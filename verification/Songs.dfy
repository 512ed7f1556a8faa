/** The 132-byte song record, its copying, and the ordered list it is looked up in. */
module Songs {
  import opened Bytes

  const NAME_SIZE := 64
  const SONG_SIZE := 132

  datatype Song = Song(songName: seq<byte>, artistName: seq<byte>, songLength: int32) {
    /** Both character arrays hold a NUL: what copying and comparing demand. */
    predicate Valid() {
      |songName| == NAME_SIZE && |artistName| == NAME_SIZE && 0 in songName && 0 in artistName
    }

    /** Equal up to the bytes after each NUL: what operator== decides. */
    predicate Equals(b: Song) {
      CString(songName) == CString(b.songName) && CString(artistName) == CString(b.artistName)
      && songLength == b.songLength
    }

    /** The bytes of the struct. */
    function Memory(): seq<byte> {
      songName + artistName + PutInt(songLength)
    }
  }

  /** The characters before the first NUL. */
  function CString(a: seq<byte>): seq<byte> {
    if a == [] || a[0] == 0 then [] else [a[0]] + CString(a[1..])
  }

  /** n characters, none of them NUL, and then the NUL of each, or its end. */
  predicate EndTogether(a: seq<byte>, b: seq<byte>, n: nat) {
    && n <= |a| && n <= |b| && (n == |a| || a[n] == 0) && (n == |b| || b[n] == 0)
    && forall i :: 0 <= i < n ==> a[i] == b[i] && a[i] != 0
  }

  /** The same characters before the NUL. */
  ghost predicate SameText(a: seq<byte>, b: seq<byte>) {
    exists n: nat :: EndTogether(a, b, n)
  }

  lemma {:induction false} CStringIs(a: seq<byte>)
    ensures |CString(a)| <= |a| && CString(a) == a[..|CString(a)|]
    ensures |CString(a)| == |a| || a[|CString(a)|] == 0
    ensures forall i :: 0 <= i < |CString(a)| ==> a[i] != 0
  {
    if a != [] && a[0] != 0 {
      CStringIs(a[1..]);
      assert forall i :: 0 < i < |CString(a)| ==> a[i] == a[1..][i - 1];
    }
  }

  /** CString stands for the text. */
  lemma {:induction false} SameTextIff(a: seq<byte>, b: seq<byte>)
    ensures CString(a) == CString(b) <==> SameText(a, b)
  {
    CStringIs(a);
    CStringIs(b);
    if CString(a) == CString(b) {
      var n := |CString(a)|;
      assert a[..n] == b[..n];
      assert forall i :: 0 <= i < n ==> a[i] == a[..n][i] == b[..n][i] == b[i];
      assert EndTogether(a, b, n);
    }
    if n: nat :| EndTogether(a, b, n) {
      assert |CString(a)| == n == |CString(b)|;
      assert a[..n] == b[..n];
    }
  }

  /** The two songs have the same names, before each NUL, and the same length. */
  ghost predicate SameSong(a: Song, b: Song) {
    SameText(a.songName, b.songName) && SameText(a.artistName, b.artistName) && a.songLength == b.songLength
  }

  lemma EqualsIff(a: Song, b: Song)
    ensures a.Equals(b) <==> SameSong(a, b)
  {
    SameTextIff(a.songName, b.songName);
    SameTextIff(a.artistName, b.artistName);
  }

  /** The struct whose memory is b. */
  function FromMemory(b: seq<byte>): (s: Song)
    requires |b| == SONG_SIZE
  {
    Song(b[..64], b[64..128], GetInt(b[128..132]))
  }

  /** The name in the first 64 bytes, the artist in the next 64, and the length in the last four, lowest byte first. */
  lemma {:induction false} MemoryLayout(b: seq<byte>)
    requires |b| == 132
    ensures var s := FromMemory(b);
            && |s.songName| == |s.artistName| == 64
            && (forall i :: 0 <= i < 64 ==> s.songName[i] == b[i] && s.artistName[i] == b[64 + i])
            && s.songLength as int % 0x1_0000_0000
               == b[128] as int + 256 * b[129] as int + 65536 * b[130] as int + 16777216 * b[131] as int
  {
    BytesOfInt(b[128..132]);
  }

  lemma {:induction false} FromMemoryOfMemory(s: Song)
    requires s.Valid()
    ensures |s.Memory()| == SONG_SIZE && FromMemory(s.Memory()) == s
  {
    var m := s.Memory();
    assert m[..64] == s.songName && m[64..128] == s.artistName && m[128..132] == PutInt(s.songLength);
    GetPutInt(s.songLength);
  }

  lemma {:induction false} CStringOfPrefix(a: seq<byte>, b: seq<byte>, n: nat)
    requires n < |a| && n < |b|
    requires a[..n] == b[..n] && a[n] == 0 && b[n] == 0
    ensures CString(a) == CString(b)
  {
    if n != 0 {
      assert a[0] == a[..n][0] == b[..n][0] == b[0];
      assert a[1..][..n - 1] == a[..n][1..] == b[1..][..n - 1];
      CStringOfPrefix(a[1..], b[1..], n - 1);
    }
  }

  lemma {:induction false} CStringsDiffer(a: seq<byte>, b: seq<byte>, n: nat)
    requires n < |a| && n < |b|
    requires a[..n] == b[..n] && 0 !in a[..n] && a[n] != b[n]
    ensures CString(a) != CString(b)
  {
    if n != 0 {
      assert a[0] == a[..n][0] == b[..n][0] == b[0];
      assert a[1..][..n - 1] == a[..n][1..] == b[1..][..n - 1];
      CStringsDiffer(a[1..], b[1..], n - 1);
      assert CString(a) == [a[0]] + CString(a[1..]) && CString(b) == [b[0]] + CString(b[1..]);
      assert CString(a)[1..] == CString(a[1..]) && CString(b)[1..] == CString(b[1..]);
    } else {
      assert a[0] != 0 ==> CString(a)[0] == a[0];
      assert b[0] != 0 ==> CString(b)[0] == b[0];
    }
  }

  /** strcmp: the difference at the first place where the strings differ or both end. */
  method StrCmp(a: seq<byte>, b: seq<byte>) returns (r: int)
    requires |a| == |b| && 0 in a && 0 in b
    ensures r == 0 <==> CString(a) == CString(b)
  {
    var i := 0;
    while a[i] == b[i] && a[i] != 0
      invariant 0 <= i < |a|
      invariant a[..i] == b[..i] && 0 !in a[..i]
      decreases |a| - i
    {
      assert a == a[..i] + [a[i]] + a[i + 1..];
      assert a[..i + 1] == a[..i] + [a[i]] && b[..i + 1] == b[..i] + [b[i]];
      i := i + 1;
    }
    r := a[i] as int - b[i] as int;
    if a[i] == b[i] {
      CStringOfPrefix(a, b, i);
    } else {
      CStringsDiffer(a, b, i);
    }
  }

  /** operator== as the source computes it. */
  method CompareSongs(a: Song, b: Song) returns (equal: bool)
    requires a.Valid() && b.Valid()
    ensures equal == a.Equals(b)
    ensures equal <==> SameSong(a, b)
  {
    EqualsIff(a, b);
    var name := StrCmp(a.songName, b.songName);
    if name != 0 {
      return false;
    }
    var artist := StrCmp(a.artistName, b.artistName);
    if artist != 0 {
      return false;
    }
    if a.songLength != b.songLength {
      return false;
    }
    return true;
  }

  /** strncpy_s into a 64-byte array: the characters and the NUL are copied, what follows is indeterminate. */
  method StrNCpyS(src: seq<byte>) returns (dst: array<byte>)
    requires |src| == NAME_SIZE && 0 in src
    ensures fresh(dst) && dst.Length == NAME_SIZE && 0 in dst[..] && CString(dst[..]) == CString(src)
  {
    dst := new byte[NAME_SIZE];
    var i := 0;
    while src[i] != 0
      invariant 0 <= i < NAME_SIZE
      invariant 0 !in src[..i]
      invariant dst[..i] == src[..i]
      decreases NAME_SIZE - i
    {
      dst[i] := src[i];
      assert src == src[..i] + [src[i]] + src[i + 1..];
      assert src[..i + 1] == src[..i] + [src[i]];
      i := i + 1;
    }
    dst[i] := 0;
    assert dst[..i] == src[..i];
    CStringOfPrefix(dst[..], src, i);
    assert dst[..][i] == 0;
  }

  /** The copy constructor: the copy compares equal, though its bytes after each NUL may differ. */
  method CopySong(obj: Song) returns (copy: Song)
    requires obj.Valid()
    ensures copy.Valid() && copy.Equals(obj)
  {
    var name := StrNCpyS(obj.songName);
    var artist := StrNCpyS(obj.artistName);
    copy := Song(name[..], artist[..], obj.songLength);
  }

  /** The first index whose song equals obj; -1 if there is none. */
  predicate IsIndexOf(res: int, songs: seq<(Song, string)>, obj: Song) {
    if res == -1 then forall k :: 0 <= k < |songs| ==> !songs[k].0.Equals(obj)
    else && 0 <= res < |songs| && songs[res].0.Equals(obj)
         && forall k :: 0 <= k < res ==> !songs[k].0.Equals(obj)
  }

  /** A song is found where the first same song is, and not found when there is none. */
  lemma {:induction false} FoundIsSame(res: int, songs: seq<(Song, string)>, obj: Song)
    requires IsIndexOf(res, songs, obj)
    ensures res == -1 ==> forall k :: 0 <= k < |songs| ==> !SameSong(songs[k].0, obj)
    ensures res != -1 ==> && 0 <= res < |songs| && SameSong(songs[res].0, obj)
                          && forall k :: 0 <= k < res ==> !SameSong(songs[k].0, obj)
  {
    forall k | 0 <= k < |songs|
      ensures songs[k].0.Equals(obj) <==> SameSong(songs[k].0, obj)
    {
      EqualsIff(songs[k].0, obj);
    }
  }

  class FileList {
    var mFileMap: seq<(Song, string)>

    predicate Valid()
      reads this
    {
      forall k :: 0 <= k < |mFileMap| ==> mFileMap[k].0.Valid()
    }

    constructor (files: seq<(Song, string)>)
      ensures mFileMap == files
    {
      mFileMap := files;
    }

    /** The source leaves the result unset when nothing matches; -1 is what its caller expects. */
    method IndexOf(obj: Song) returns (res: int)
      requires Valid() && obj.Valid()
      ensures IsIndexOf(res, mFileMap, obj)
      ensures res == -1 ==> forall k :: 0 <= k < |mFileMap| ==> !SameSong(mFileMap[k].0, obj)
      ensures res != -1 ==> && 0 <= res < |mFileMap| && SameSong(mFileMap[res].0, obj)
                            && forall k :: 0 <= k < res ==> !SameSong(mFileMap[k].0, obj)
    {
      res := -1;
      var i := -1;
      while i + 1 < |mFileMap|
        invariant -1 <= i < |mFileMap|
        invariant forall k :: 0 <= k <= i ==> !mFileMap[k].0.Equals(obj)
      {
        i := i + 1;
        var first := CopySong(mFileMap[i].0);
        var equal := CompareSongs(first, obj);
        if equal {
          res := i;
          break;
        }
      }
      FoundIsSame(res, mFileMap, obj);
    }
  }
}
