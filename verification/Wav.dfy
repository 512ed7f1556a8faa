/** Cutting a WAV file into a header and chunks, with the arithmetic of a size_t of either width. */
module Wav {
  import opened Seqs
  import opened Bytes
  import opened Packets

  const WAVE_HEADER := 44
  const RIFF: seq<byte> := [82, 73, 70, 70]
  const WAVE: seq<byte> := [87, 65, 86, 69]

  function Min(a: int, b: int): int {
    if a < b then a else b
  }

  // ----- Input streams

  datatype Stream = Stream(isOpen: bool, failed: bool, content: seq<byte>, cursor: nat) {
    predicate Valid() {
      cursor <= |content|
    }

    /** How many bytes read(n) delivers. */
    function Available(n: nat): nat
      requires Valid()
    {
      if failed then 0 else Min(n, |content| - cursor)
    }

    function Delivered(n: nat): seq<byte>
      requires Valid()
    {
      content[cursor..cursor + Available(n)]
    }

    /** A short read sets the fail bit, after which nothing more is read. */
    function AfterRead(n: nat): (s: Stream)
      requires Valid()
      ensures s.Valid()
    {
      this.(cursor := cursor + Available(n), failed := failed || Available(n) < n)
    }
  }

  /** A stream constructed on a path; None if there is no such file. */
  function OpenStream(file: Option<seq<byte>>): Stream {
    match file
    case None => Stream(false, true, [], 0)
    case Some(c) => Stream(true, false, c, 0)
  }

  // ----- The header

  /** The zero-initialised header after the first n bytes of the file were read into it. */
  function HeaderAfter(c: seq<byte>, n: nat): (h: seq<byte>)
    requires n <= WAVE_HEADER
    ensures |h| == WAVE_HEADER
  {
    c[..Min(n, |c|)] + Zeros(WAVE_HEADER - Min(n, |c|))
  }

  lemma HeaderGrows(c: seq<byte>, at: nat, n: nat)
    requires at + n <= WAVE_HEADER
    ensures var from, upto := Min(at, |c|), Min(at + n, |c|);
            HeaderAfter(c, at + n) == Splice(HeaderAfter(c, at), at, c[from..upto], upto - from)
  {
    if at < |c| {
      assert c[..Min(at + n, |c|)] == c[..at] + c[at..Min(at + n, |c|)];
    }
  }

  predicate StartsRiff(c: seq<byte>) {
    HeaderAfter(c, 4)[0..4] == RIFF
  }

  predicate IsWave(c: seq<byte>) {
    StartsRiff(c) && HeaderAfter(c, 12)[8..12] == WAVE
  }

  /** Where reading the header stops. */
  function HeaderRead(c: seq<byte>): nat {
    if !StartsRiff(c) then 4 else if !IsWave(c) then 12 else WAVE_HEADER
  }

  function Header(c: seq<byte>): (h: seq<byte>)
    ensures |h| == WAVE_HEADER
  {
    if IsWave(c) then HeaderAfter(c, WAVE_HEADER) else Zeros(WAVE_HEADER)
  }

  /** The size of the data chunk as the header states it; 0 for a file that is not RIFF/WAVE. */
  function DataSize(c: seq<byte>): uint32 {
    if IsWave(c) then GetU32(HeaderAfter(c, WAVE_HEADER)[40..44]) else 0
  }

  /** The byte at a position, 0 past the end. */
  function ByteAt(c: seq<byte>, i: nat): byte {
    if i < |c| then c[i] else 0
  }

  /** The letters R, I, F, F at the beginning and W, A, V, E from byte 8 make a file RIFF/WAVE. */
  lemma {:induction false} IsWaveBytes(c: seq<byte>)
    ensures StartsRiff(c) <==> |c| >= 4 && c[0] == 82 && c[1] == 73 && c[2] == 70 && c[3] == 70
    ensures IsWave(c) <==> && |c| >= 12 && c[0] == 82 && c[1] == 73 && c[2] == 70 && c[3] == 70
                           && c[8] == 87 && c[9] == 65 && c[10] == 86 && c[11] == 69
  {
    var h, g := HeaderAfter(c, 4), HeaderAfter(c, 12);
    assert forall i :: 0 <= i < 4 ==> h[0..4][i] == ByteAt(c, i);
    assert forall i :: 8 <= i < 12 ==> g[8..12][i - 8] == ByteAt(c, i);
    assert h[0..4] == [ByteAt(c, 0), ByteAt(c, 1), ByteAt(c, 2), ByteAt(c, 3)];
    assert g[8..12] == [ByteAt(c, 8), ByteAt(c, 9), ByteAt(c, 10), ByteAt(c, 11)];
  }

  /** The data size is in the bytes from 40 on, the lowest first; bytes that are missing count as 0. */
  lemma {:induction false} DataSizeBytes(c: seq<byte>)
    ensures DataSize(c) == if IsWave(c) then ByteAt(c, 40) as int + 256 * ByteAt(c, 41) as int
                                             + 65536 * ByteAt(c, 42) as int + 16777216 * ByteAt(c, 43) as int
                           else 0
  {
    var h := HeaderAfter(c, 44);
    assert forall i :: 40 <= i < 44 ==> h[40..44][i - 40] == ByteAt(c, i);
  }

  /** The content of a file that may be missing. */
  function ContentOf(file: Option<seq<byte>>): seq<byte> {
    if file.Some? then file.value else []
  }

  /** A canonical file: 44 header bytes and at least as much data as the header announces. */
  predicate WellFormed(c: seq<byte>) {
    IsWave(c) && WAVE_HEADER + DataSize(c) <= |c|
  }

  // ----- The chunk arithmetic

  const MODULUS_32 := 0x1_0000_0000
  const MODULUS_64 := 0x1_0000_0000_0000_0000

  /** Addition of two size_t values: it wraps around. */
  function Plus(a: nat, b: nat, modulus: nat): (r: nat)
    requires a < modulus && b < modulus
    ensures r < modulus
  {
    if a + b < modulus then a + b else a + b - modulus
  }

  /** calculatedRead in getNextChunk. */
  function ChunkSize(extracted: nat, total: nat, bufferSize: nat, modulus: nat): (r: nat)
    requires extracted <= total < modulus && bufferSize < modulus
    ensures r <= bufferSize
  {
    if Plus(extracted, bufferSize, modulus) > total then total - extracted else bufferSize
  }

  class WavFilePackager {
    const modulus: nat        // one more than the largest size_t
    var mHeader: seq<byte>
    var mOpenFile: Stream
    var mTotalSize: nat
    var mExtracted: nat

    predicate Valid()
      reads this
    {
      modulus in {MODULUS_32, MODULUS_64} && |mHeader| == WAVE_HEADER && mOpenFile.Valid()
      && mTotalSize < MODULUS_32 && mExtracted < modulus
    }

    constructor (modulus: nat)
      requires modulus in {MODULUS_32, MODULUS_64}
      ensures Valid() && this.modulus == modulus
      ensures !mOpenFile.isOpen && mTotalSize == 0 && mExtracted == 0 && mHeader == Zeros(WAVE_HEADER)
    {
      this.modulus := modulus;
      mHeader, mOpenFile, mTotalSize, mExtracted := Zeros(WAVE_HEADER), OpenStream(None), 0, 0;
    }

    /** file.read into buf from position to on. */
    method Read(buf: array<byte>, to: nat, n: nat)
      requires Valid() && to + n <= buf.Length
      modifies this`mOpenFile, buf
      ensures mOpenFile == old(mOpenFile.AfterRead(n))
      ensures buf[..] == Splice(old(buf[..]), to, old(mOpenFile).Delivered(n), old(mOpenFile).Available(n))
      ensures Valid()
    {
      CopyIn(buf, to, mOpenFile.Delivered(n));
      mOpenFile := mOpenFile.AfterRead(n);
    }

    /** The first n bytes of the file c have been read, field by field, into the header. */
    ghost predicate HaveRead(header: array<byte>, isOpen: bool, c: seq<byte>, n: nat)
      reads this, header
    {
      n <= WAVE_HEADER && header[..] == HeaderAfter(c, n) && mOpenFile == Stream(isOpen, |c| < n, c, Min(n, |c|))
    }

    method ReadField(header: array<byte>, ghost isOpen: bool, ghost c: seq<byte>, at: nat, n: nat)
      requires Valid() && header.Length == WAVE_HEADER && 0 < n && at + n <= WAVE_HEADER
      requires HaveRead(header, isOpen, c, at)
      modifies this`mOpenFile, header
      ensures Valid() && HaveRead(header, isOpen, c, at + n)
    {
      Read(header, at, n);
      HeaderGrows(c, at, n);
    }

    /** The fields after the format tag. */
    method ReadFormat(header: array<byte>, ghost isOpen: bool, ghost c: seq<byte>)
      requires Valid() && header.Length == WAVE_HEADER && HaveRead(header, isOpen, c, 12)
      modifies this`mOpenFile, header
      ensures Valid() && HaveRead(header, isOpen, c, WAVE_HEADER)
    {
      ReadField(header, isOpen, c, 12, 4);
      ReadField(header, isOpen, c, 16, 4);
      ReadField(header, isOpen, c, 20, 2);
      ReadField(header, isOpen, c, 22, 2);
      ReadRates(header, isOpen, c);
    }

    method ReadRates(header: array<byte>, ghost isOpen: bool, ghost c: seq<byte>)
      requires Valid() && header.Length == WAVE_HEADER && HaveRead(header, isOpen, c, 24)
      modifies this`mOpenFile, header
      ensures Valid() && HaveRead(header, isOpen, c, WAVE_HEADER)
    {
      ReadField(header, isOpen, c, 24, 4);
      ReadField(header, isOpen, c, 28, 4);
      ReadField(header, isOpen, c, 32, 2);
      ReadBits(header, isOpen, c);
    }

    method ReadBits(header: array<byte>, ghost isOpen: bool, ghost c: seq<byte>)
      requires Valid() && header.Length == WAVE_HEADER && HaveRead(header, isOpen, c, 34)
      modifies this`mOpenFile, header
      ensures Valid() && HaveRead(header, isOpen, c, WAVE_HEADER)
    {
      ReadField(header, isOpen, c, 34, 2);
      ReadField(header, isOpen, c, 36, 4);
      ReadField(header, isOpen, c, 40, 4);
    }

    /** Reads the header field by field; ok if the file starts as RIFF/WAVE. */
    method ProcessWavFile() returns (ok: bool)
      requires Valid() && mOpenFile.cursor == 0 && (mOpenFile.failed ==> mOpenFile.content == [])
      modifies this
      ensures Valid() && ok == IsWave(mOpenFile.content)
      ensures mHeader == Header(mOpenFile.content) && mTotalSize == DataSize(mOpenFile.content)
      ensures mExtracted == old(mExtracted)
      ensures var c, n := old(mOpenFile.content), HeaderRead(old(mOpenFile.content));
              mOpenFile == Stream(old(mOpenFile.isOpen), |c| < n, c, Min(n, |c|))
      ensures var c := mOpenFile.content;
              ok <==> && |c| >= 12 && c[0] == 82 && c[1] == 73 && c[2] == 70 && c[3] == 70
                      && c[8] == 87 && c[9] == 65 && c[10] == 86 && c[11] == 69
      ensures var c := mOpenFile.content;
              ok && |c| >= 44 ==> && mTotalSize == c[40] as int + 256 * c[41] as int + 65536 * c[42] as int + 16777216 * c[43] as int
                                  && mHeader == c[..44]
      ensures !ok ==> mTotalSize == 0 && forall i :: 0 <= i < 44 ==> mHeader[i] == 0
      ensures var c := mOpenFile.content;
              mOpenFile.cursor == if ok then Min(44, |c|)
                                  else if |c| >= 4 && c[0] == 82 && c[1] == 73 && c[2] == 70 && c[3] == 70 then Min(12, |c|)
                                  else Min(4, |c|)
    {
      ghost var c, isOpen := mOpenFile.content, mOpenFile.isOpen;
      var header := new byte[WAVE_HEADER](i => 0);
      assert header[..] == HeaderAfter(c, 0);
      ok := ReadAll(header, isOpen, c);
      if ok {
        mHeader := header[..];
        mTotalSize := GetU32(header[40..44]);
        assert header[40..44] == header[..][40..44];
      } else {
        mHeader := Zeros(WAVE_HEADER);
        mTotalSize := 0;
      }
      IsWaveBytes(c);
      DataSizeBytes(c);
    }

    /** The chunk id, and, if it is right, the rest. */
    method ReadAll(header: array<byte>, ghost isOpen: bool, ghost c: seq<byte>) returns (ok: bool)
      requires Valid() && header.Length == WAVE_HEADER && header[..] == HeaderAfter(c, 0)
      requires mOpenFile.content == c && mOpenFile.isOpen == isOpen && mOpenFile.cursor == 0
      requires mOpenFile.failed ==> c == []
      modifies this`mOpenFile, header
      ensures Valid() && ok == IsWave(c) && HaveRead(header, isOpen, c, HeaderRead(c))
    {
      Read(header, 0, 4);
      HeaderGrows(c, 0, 4);
      assert HaveRead(header, isOpen, c, 4);
      assert header[0..4] == header[..][0..4];
      if header[0..4] == RIFF {
        ok := ReadRest(header, isOpen, c);
      } else {
        ok := false;
      }
    }

    /** The chunk size and the format tag, and, if the tag is right, the other fields. */
    method ReadRest(header: array<byte>, ghost isOpen: bool, ghost c: seq<byte>) returns (ok: bool)
      requires Valid() && header.Length == WAVE_HEADER && HaveRead(header, isOpen, c, 4)
      modifies this`mOpenFile, header
      ensures Valid() && ok == (HeaderAfter(c, 12)[8..12] == WAVE)
      ensures HaveRead(header, isOpen, c, if ok then WAVE_HEADER else 12)
    {
      ReadField(header, isOpen, c, 4, 4);
      ReadField(header, isOpen, c, 8, 4);
      assert header[8..12] == header[..][8..12];
      if header[8..12] == WAVE {
        ok := true;
        ReadFormat(header, isOpen, c);
      } else {
        ok := false;
      }
    }

    /** Opening never looks at what is already extracted: it starts at 44 whatever was read. */
    method OpenFile(file: Option<seq<byte>>) returns (isOpen: bool)
      requires Valid()
      modifies this
      ensures Valid() && isOpen == IsWave(ContentOf(file))
      ensures mHeader == Header(ContentOf(file)) && mTotalSize == DataSize(ContentOf(file)) && mExtracted == WAVE_HEADER
      ensures var c, n := ContentOf(file), HeaderRead(ContentOf(file));
              mOpenFile == Stream(file.Some?, |c| < n, c, Min(n, |c|))
    {
      if mOpenFile.isOpen {
        var closed := CloseFile();
      }
      mExtracted := 0;
      mOpenFile := OpenStream(file);
      isOpen := ProcessWavFile();
      mExtracted := WAVE_HEADER;
    }

    /** The result is false whether or not a file was closed. */
    method CloseFile() returns (closed: bool)
      requires Valid()
      modifies this`mOpenFile
      ensures Valid() && mOpenFile == old(mOpenFile).(isOpen := false) && !closed
    {
      closed := false;
      if mOpenFile.isOpen {
        mOpenFile := mOpenFile.(isOpen := false);
      }
    }

    /** The cursor moves on by as many bytes as are delivered, but the buffer gets the stored header. */
    method GetHeader(buffer: array<byte>, bufferSize: nat) returns (read: nat)
      requires Valid() && bufferSize <= buffer.Length
      modifies this`mOpenFile, buffer
      ensures Valid() && read == Min(bufferSize, WAVE_HEADER)
      ensures buffer[..] == mHeader[..read] + old(buffer[..])[read..]
      ensures mOpenFile == old(mOpenFile.AfterRead(Min(bufferSize, WAVE_HEADER)))
    {
      read := if bufferSize >= WAVE_HEADER then WAVE_HEADER else bufferSize;
      ghost var was := buffer[..];
      ghost var stream := mOpenFile;
      Read(buffer, 0, read);
      CopyIn(buffer, 0, mHeader[..read]);
      CopiedOver(was, stream.Delivered(read), stream.Available(read), mHeader[..read]);
    }

    predicate IsFileComplete()
      reads this
    {
      mExtracted >= mTotalSize
    }

    method GetNextChunk(buffer: array<byte>, bufferSize: nat) returns (res: nat)
      requires Valid() && mExtracted <= mTotalSize && bufferSize <= buffer.Length && bufferSize < modulus
      modifies this`mOpenFile, this`mExtracted, buffer
      ensures Valid() && res == ChunkSize(old(mExtracted), mTotalSize, bufferSize, modulus) <= bufferSize
      ensures mExtracted == Plus(old(mExtracted), res, modulus)
      ensures mOpenFile == old(mOpenFile).AfterRead(res)
      ensures buffer[..] == old(mOpenFile).Delivered(res) + old(buffer[..])[old(mOpenFile).Available(res)..]
    {
      res := 0;
      var calculatedRead := if Plus(mExtracted, bufferSize, modulus) > mTotalSize then mTotalSize - mExtracted else bufferSize;
      assert calculatedRead == ChunkSize(mExtracted, mTotalSize, bufferSize, modulus);
      ghost var was, stream := buffer[..], mOpenFile;
      Read(buffer, 0, calculatedRead);
      SpliceAtStart(was, stream.Delivered(calculatedRead), stream.Available(calculatedRead));
      mExtracted := Plus(mExtracted, calculatedRead, modulus);
      res := res + calculatedRead;
    }
  }

  // ----- Termination of the chunk loop

  /** mExtracted after k rounds of the loop over 1024-byte buffers; a finished loop stays where it is. */
  function ExtractedAfter(total: nat, modulus: nat, k: nat): (e: nat)
    requires total < modulus && MAX_PACKET_SIZE < modulus
    ensures e < modulus
  {
    if k == 0 then WAVE_HEADER
    else
      var e := ExtractedAfter(total, modulus, k - 1);
      if e >= total then e else Plus(e, ChunkSize(e, total, MAX_PACKET_SIZE, modulus), modulus)
  }

  ghost predicate LoopEnds(total: nat, modulus: nat)
    requires total < modulus && MAX_PACKET_SIZE < modulus
  {
    exists k: nat :: ExtractedAfter(total, modulus, k) >= total
  }

  /** Until the end is near, each round extracts a full buffer. */
  lemma {:induction false} FullRounds(total: nat, modulus: nat, k: nat)
    requires MAX_PACKET_SIZE < modulus && WAVE_HEADER + MAX_PACKET_SIZE * k <= total < modulus
    ensures ExtractedAfter(total, modulus, k) == WAVE_HEADER + MAX_PACKET_SIZE * k
  {
    if k != 0 {
      FullRounds(total, modulus, k - 1);
    }
  }

  /** Above the bound the sum wraps to 44 before it can reach the total, and the loop starts over. */
  lemma {:induction false} Cycles(total: nat, m: nat, k: nat) returns (r: nat)
    requires m > 1 && MAX_PACKET_SIZE * m - 980 < total < MAX_PACKET_SIZE * m
    ensures r < m && ExtractedAfter(total, MAX_PACKET_SIZE * m, k) == WAVE_HEADER + MAX_PACKET_SIZE * r < total
  {
    if k == 0 {
      r := 0;
    } else {
      r := Cycles(total, m, k - 1);
      r := if r < m - 1 then r + 1 else 0;
    }
  }

  /** For every size of size_t that is a multiple of the buffer size: the loop ends if and only if the total is at
      most 980 below it. */
  lemma LoopEndsIff(total: nat, m: nat)
    requires m > 1 && total < MAX_PACKET_SIZE * m
    ensures LoopEnds(total, MAX_PACKET_SIZE * m) <==> total <= MAX_PACKET_SIZE * m - 980
  {
    var modulus := MAX_PACKET_SIZE * m;
    if total > modulus - 980 {
      forall k: nat
        ensures ExtractedAfter(total, modulus, k) < total
      {
        var r := Cycles(total, m, k);
      }
    } else if total <= WAVE_HEADER {
      assert ExtractedAfter(total, modulus, 0) >= total;
    } else {
      var k := (total - WAVE_HEADER) / MAX_PACKET_SIZE;
      FullRounds(total, modulus, k);
      assert ExtractedAfter(total, modulus, k + 1) == total;
    }
  }

  /** With 64 bits the loop ends for every size a header can state; with 32 bits exactly up to 2^32 - 980. */
  lemma ChunkLoopTermination(total: uint32)
    ensures LoopEnds(total, MODULUS_64)
    ensures LoopEnds(total, MODULUS_32) <==> total <= MODULUS_32 - 980
  {
    LoopEndsIff(total, MODULUS_64 / MAX_PACKET_SIZE);
    LoopEndsIff(total, MODULUS_32 / MAX_PACKET_SIZE);
  }

  // ----- The frames of a file

  function ChunkCount(total: nat): nat {
    if total <= WAVE_HEADER then 0 else (total - WAVE_HEADER + MAX_PACKET_SIZE - 1) / MAX_PACKET_SIZE
  }

  /** The header packet and some chunks of the file. */
  ghost predicate Beginning(fs: seq<Frame>, id: int32, c: seq<byte>) {
    fs != [] && fs[0] == Frame(WAVE_HEADER, AUDIO, id, Header(c)) && forall k :: 1 <= k < |fs| ==> IsChunk(fs[k], id, c, k - 1)
  }

  lemma ChunksDone(total: nat, k: nat)
    requires if k == 0 then total <= WAVE_HEADER
             else WAVE_HEADER + MAX_PACKET_SIZE * (k - 1) < total <= WAVE_HEADER + MAX_PACKET_SIZE * k
    ensures k == ChunkCount(total)
  {
  }

  /** One round of the loop, where it ends. */
  lemma Round(total: uint32, modulus: nat, k: nat)
    requires modulus == MODULUS_64 || (modulus == MODULUS_32 && total <= modulus - 980)
    requires WAVE_HEADER + MAX_PACKET_SIZE * k < total
    ensures var e, r := WAVE_HEADER + MAX_PACKET_SIZE * k, Min(MAX_PACKET_SIZE, total - WAVE_HEADER - MAX_PACKET_SIZE * k);
            ChunkSize(e, total, MAX_PACKET_SIZE, modulus) == r
            && Plus(e, r, modulus) == Min(WAVE_HEADER + MAX_PACKET_SIZE * (k + 1), total)
  {
  }

  /** The k-th data packet of a file; its bytes past the end of the file are indeterminate. */
  ghost predicate IsChunk(f: Frame, id: int32, c: seq<byte>, k: nat) {
    && f.Valid() && f.kind == AUDIO && f.id == id
    && f.size == Min(MAX_PACKET_SIZE, DataSize(c) - WAVE_HEADER - MAX_PACKET_SIZE * k)
    && forall j :: 0 <= j < f.size && 88 + MAX_PACKET_SIZE * k + j < |c| ==> f.payload[j] == c[88 + MAX_PACKET_SIZE * k + j]
  }

  lemma BeginningGrows(fs: seq<Frame>, f: Frame, id: int32, c: seq<byte>)
    requires Beginning(fs, id, c) && IsChunk(f, id, c, |fs| - 1)
    ensures Beginning(fs + [f], id, c)
  {
  }

  lemma StreamAfterHeader(c: seq<byte>)
    ensures Stream(true, |c| < WAVE_HEADER, c, Min(WAVE_HEADER, |c|)).AfterRead(WAVE_HEADER)
            == Stream(true, |c| < 88, c, Min(88, |c|))
  {
  }

  /** What a stream positioned 88 + 1024 k bytes into c delivers is the content of the k-th chunk. */
  lemma {:induction false} DeliveredIsChunk(s: Stream, c: seq<byte>, k: nat, f: Frame)
    requires s.content == c && s.cursor == Min(88 + MAX_PACKET_SIZE * k, |c|)
    requires s.failed == (|c| < 88 + MAX_PACKET_SIZE * k)
    requires f.Valid() && f.kind == AUDIO && f.size == Min(MAX_PACKET_SIZE, DataSize(c) - WAVE_HEADER - MAX_PACKET_SIZE * k)
    requires s.Available(f.size) <= f.size && f.payload[..s.Available(f.size)] == s.Delivered(f.size)
    ensures IsChunk(f, f.id, c, k)
  {
    var at := 88 + MAX_PACKET_SIZE * k;
    forall j | 0 <= j < f.size && at + j < |c|
      ensures f.payload[j] == c[at + j]
    {
      assert f.payload[j] == f.payload[..s.Available(f.size)][j];
    }
  }

  /** The packets requestFile queues for an open file with content c. */
  ghost predicate Carries(fs: seq<Frame>, id: int32, c: seq<byte>) {
    |fs| == 1 + ChunkCount(DataSize(c)) && Beginning(fs, id, c)
  }

  function PayloadOf(f: Frame): seq<byte> { f.payload }

  /** The concatenated payloads. */
  function Payloads(fs: seq<Frame>): seq<byte> {
    Flatten(Map(PayloadOf, fs))
  }

  lemma PayloadsSnoc(fs: seq<Frame>, f: Frame)
    ensures Payloads(fs + [f]) == Payloads(fs) + f.payload
  {
    assert (fs + [f])[..|fs|] == fs;
    FlattenSnoc(Map(PayloadOf, fs), f.payload);
  }

  /** What a listener gets of a well-formed file: the header, and the data from its 45th byte to its end. */
  function Streamed(c: seq<byte>): seq<byte>
    requires WellFormed(c)
  {
    if DataSize(c) < WAVE_HEADER then c[..44] else c[..44] + c[88..44 + DataSize(c)]
  }

  /** What k packets bring of the data, if there is any to send. */
  function DataUpTo(c: seq<byte>, k: nat): seq<byte>
    requires WellFormed(c) && (k > 0 ==> 88 + MAX_PACKET_SIZE * (k - 1) <= 44 + DataSize(c))
  {
    if k == 0 then [] else c[88..Min(88 + MAX_PACKET_SIZE * k, 44 + DataSize(c))]
  }

  lemma HeaderPayload(c: seq<byte>)
    requires WellFormed(c)
    ensures Header(c) == c[..44] == c[..44] + DataUpTo(c, 0)
  {
  }

  /** The k-th data packet continues the data. */
  lemma NextData(c: seq<byte>, k: nat, f: Frame, id: int32)
    requires WellFormed(c) && k > 0 && IsChunk(f, id, c, k - 1)
    ensures 88 + MAX_PACKET_SIZE * (k - 1) <= 44 + DataSize(c)
    ensures DataUpTo(c, k - 1) + f.payload == DataUpTo(c, k)
  {
    ChunkPayload(f, id, c, k - 1);
    DataGrows(c, k);
  }

  lemma DataGrows(c: seq<byte>, k: nat)
    requires WellFormed(c) && k > 0 && 88 + MAX_PACKET_SIZE * (k - 1) <= 44 + DataSize(c)
    ensures var from := 88 + MAX_PACKET_SIZE * (k - 1);
            DataUpTo(c, k - 1) + c[from..Min(from + MAX_PACKET_SIZE, 44 + DataSize(c))] == DataUpTo(c, k)
  {
    var from := 88 + MAX_PACKET_SIZE * (k - 1);
    SlicesMeet(c, 88, from, Min(from + MAX_PACKET_SIZE, 44 + DataSize(c)));
  }

  lemma SlicesMeet(c: seq<byte>, from: nat, mid: nat, upto: nat)
    requires from <= mid <= upto <= |c|
    ensures c[from..mid] + c[mid..upto] == c[from..upto]
  {
  }

  lemma {:induction false} ReassembledSoFar(fs: seq<Frame>, id: int32, c: seq<byte>)
    requires WellFormed(c) && Beginning(fs, id, c)
    ensures |fs| > 1 ==> 88 + MAX_PACKET_SIZE * (|fs| - 2) <= 44 + DataSize(c)
    ensures Payloads(fs) == c[..44] + DataUpTo(c, |fs| - 1)
  {
    var k := |fs| - 1;
    var before, last := fs[..k], fs[k];
    assert fs == before + [last];
    PayloadsSnoc(before, last);
    if k == 0 {
      HeaderPayload(c);
    } else {
      ReassembledSoFar(before, id, c);
      NextData(c, k, last, id);
      Associative(c[..44], DataUpTo(c, k - 1), last.payload);
    }
  }

  lemma Associative(a: seq<byte>, b: seq<byte>, c: seq<byte>)
    ensures (a + b) + c == a + (b + c)
  {
  }

  lemma ChunkPayload(f: Frame, id: int32, c: seq<byte>, k: nat)
    requires WellFormed(c) && IsChunk(f, id, c, k)
    ensures var from := 88 + MAX_PACKET_SIZE * k;
            from <= 44 + DataSize(c) <= |c| && f.payload == c[from..Min(from + MAX_PACKET_SIZE, 44 + DataSize(c))]
  {
  }

  /** The payloads concatenate to the header and the data-chunk bytes from offset 44 on, never anything past the
      data chunk. */
  lemma Reassembled(fs: seq<Frame>, id: int32, c: seq<byte>)
    requires WellFormed(c) && Carries(fs, id, c)
    ensures Payloads(fs) == Streamed(c)
  {
    var k := |fs| - 1;
    ReassembledSoFar(fs, id, c);
    assert DataSize(c) <= WAVE_HEADER || WAVE_HEADER + MAX_PACKET_SIZE * k >= DataSize(c);
  }

  /** The same in terms of the file's bytes alone: n being the number in bytes 40 to 43 of a file that begins with RIFF
      and has WAVE at byte 8, the packets are of type 4, and their payloads are the header and, past the first 44 bytes
      of the data, the data. */
  lemma {:induction false} ReassembledFromBytes(fs: seq<Frame>, id: int32, c: seq<byte>, n: nat)
    requires |c| >= 44 && c[0] == 82 && c[1] == 73 && c[2] == 70 && c[3] == 70
    requires c[8] == 87 && c[9] == 65 && c[10] == 86 && c[11] == 69
    requires n == c[40] as int + 256 * c[41] as int + 65536 * c[42] as int + 16777216 * c[43] as int && 44 + n <= |c|
    requires Carries(fs, id, c)
    ensures Payloads(fs) == if n < 44 then c[..44] else c[..44] + c[88..44 + n]
    ensures forall f :: f in fs ==> f.kind == 4 && f.id == id && 0 < f.size <= 1024
  {
    IsWaveBytes(c);
    DataSizeBytes(c);
    Reassembled(fs, id, c);
    forall f | f in fs
      ensures f.kind == 4 && f.id == id && 0 < f.size <= 1024
    {
      var k :| 0 <= k < |fs| && f == fs[k];
      if k > 0 {
        ChunksFull(fs, id, c, k);
      }
    }
  }

  /** Of a file that is not RIFF/WAVE, 44 zeros are sent and nothing else. */
  lemma {:induction false} OtherFilesSendZeros(fs: seq<Frame>, id: int32, c: seq<byte>)
    requires !IsWave(c) && Carries(fs, id, c)
    ensures fs == [Frame(44, 4, id, seq(44, i => 0))]
  {
    assert fs == [fs[0]];
    assert Zeros(44) == seq(44, i => 0);
  }

  /** Every data packet but the last is full, and none is empty. */
  lemma {:induction false} ChunksFull(fs: seq<Frame>, id: int32, c: seq<byte>, k: nat)
    requires Carries(fs, id, c) && 1 <= k < |fs|
    ensures fs[k].size == MAX_PACKET_SIZE || k == |fs| - 1
    ensures 1 <= fs[k].size
  {
    assert IsChunk(fs[k], id, c, k - 1);
  }

  /** The source means to send the whole file. It does so if and only if there is no data: the first 44 data bytes
      are skipped. */
  lemma WholeFileOnlyWithoutData(fs: seq<Frame>, id: int32, c: seq<byte>)
    requires WellFormed(c) && Carries(fs, id, c)
    ensures Payloads(fs) == c[..44 + DataSize(c)] <==> DataSize(c) == 0
  {
    Reassembled(fs, id, c);
    assert |Streamed(c)| == if DataSize(c) < WAVE_HEADER then 44 else DataSize(c);
  }
}
