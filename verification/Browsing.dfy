/** What a client can do with the answers: read the list back, and ask for a song it saw there. */
module Browsing {
  import opened Seqs
  import opened Bytes
  import opened Packets
  import opened Packing
  import opened Songs
  import opened Handlers

  /** The records of FILELIST packets, in the order of arrival. */
  function RecordsIn(fs: seq<Frame>): seq<seq<byte>> {
    if fs == [] then [] else Split(fs[0].payload, SONG_SIZE) + RecordsIn(fs[1..])
  }

  lemma {:induction false} RecordsInPacked(fs: seq<Frame>, id: int32, groups: seq<seq<seq<byte>>>)
    requires Packed(fs, id, groups)
    requires forall g, r :: g in groups && r in g ==> |r| == SONG_SIZE
    ensures RecordsIn(fs) == Flatten(groups)
  {
    if fs != [] {
      assert groups[0] in groups;
      SplitFlatten(groups[0], SONG_SIZE);
      RecordsInPacked(fs[1..], id, groups[1..]);
    }
  }

  lemma RecordSizes(groups: seq<seq<seq<byte>>>, songs: seq<(Song, string)>)
    requires RecordsOf(Flatten(groups), songs)
    ensures forall g, r :: g in groups && r in g ==> |r| == SONG_SIZE
  {
    forall g, r | g in groups && r in g
      ensures |r| == SONG_SIZE
    {
      InFlatten(groups, r);
    }
  }

  /** The list arrives complete, in order, in whole records, in max(1, ceil(n / 7)) packets. */
  lemma {:induction false} ListFaithful(fs: seq<Frame>, id: int32, songs: seq<(Song, string)>)
    requires ListPackets(fs, id, songs)
    ensures RecordsOf(RecordsIn(fs), songs)
    ensures |fs| == PacketsFor(|songs|, 7)
  {
    var groups: seq<seq<seq<byte>>> :|
      Packed(fs, id, groups) && RecordsOf(Flatten(groups), songs) && Greedy(groups, Flatten(groups), SONGS_PER_PACKET);
    RecordSizes(groups, songs);
    RecordsInPacked(fs, id, groups);
    GreedyCount(groups, Flatten(groups), SONGS_PER_PACKET);
  }

  /** No record straddles two packets: every payload is a whole number of records. */
  lemma WholeRecords(fs: seq<Frame>, id: int32, songs: seq<(Song, string)>, k: nat) returns (n: nat)
    requires ListPackets(fs, id, songs) && k < |fs|
    ensures n <= 7 && fs[k].size == |fs[k].payload| == SONG_SIZE * n
    ensures k < |fs| - 1 ==> n == 7
    ensures songs != [] ==> n > 0
  {
    var groups: seq<seq<seq<byte>>> :|
      Packed(fs, id, groups) && RecordsOf(Flatten(groups), songs) && Greedy(groups, Flatten(groups), SONGS_PER_PACKET);
    RecordSizes(groups, songs);
    assert groups[k] in groups;
    FlattenUniform(groups[k], SONG_SIZE);
    n := |groups[k]|;
  }

  lemma {:induction false} RecordsInConcat(a: seq<Frame>, b: seq<Frame>)
    ensures RecordsIn(a + b) == RecordsIn(a) + RecordsIn(b)
  {
    if a == [] {
      assert a + b == b;
    } else {
      assert (a + b)[1..] == a[1..] + b;
      RecordsInConcat(a[1..], b);
    }
  }

  /** No packet of a non-empty list is empty. */
  lemma SomeRecord(fs: seq<Frame>, id: int32, songs: seq<(Song, string)>, k: nat)
    requires ListPackets(fs, id, songs) && k < |fs| && songs != []
    ensures Split(fs[k].payload, SONG_SIZE) != []
  {
    var n := WholeRecords(fs, id, songs, k);
  }

  /** So part of its packets has only part of its records. */
  lemma RecordsShorter(a: seq<Frame>, b: seq<Frame>, id: int32, songs: seq<(Song, string)>)
    requires ListPackets(b, id, songs) && a < b
    ensures |RecordsIn(a)| <= |songs|
    ensures songs != [] ==> |RecordsIn(a)| < |songs|
  {
    ListFaithful(b, id, songs);
    var rest := b[|a|..];
    assert b == a + rest && rest[0] == b[|a|];
    RecordsInConcat(a, rest);
    if songs != [] {
      SomeRecord(b, id, songs, |a|);
    }
  }

  /** No way to send these records whole uses fewer packets. */
  lemma {:induction false} ListOptimal(fs: seq<Frame>, id: int32, songs: seq<(Song, string)>, groups: seq<seq<seq<byte>>>)
    requires ListPackets(fs, id, songs) && songs != []
    requires Flatten(groups) == RecordsIn(fs) && forall g :: g in groups ==> Fits(g, SONG_SIZE, MAX_PACKET_SIZE)
    ensures |fs| <= |groups|
  {
    var greedy: seq<seq<seq<byte>>> :|
      Packed(fs, id, greedy) && RecordsOf(Flatten(greedy), songs) && Greedy(greedy, Flatten(greedy), SONGS_PER_PACKET);
    RecordSizes(greedy, songs);
    RecordsInPacked(fs, id, greedy);
    PackingOptimal(greedy, groups, SONG_SIZE, MAX_PACKET_SIZE);
  }

  /** The song has the names and the length of the i-th entry, and a look-up for it gives the first such entry. */
  ghost predicate Finds(index: int, songs: seq<(Song, string)>, song: Song, i: nat)
    requires i < |songs|
  {
    && SameSong(song, songs[i].0)
    && (IsIndexOf(index, songs, song) <==> IsIndexOf(index, songs, songs[i].0))
    && (IsIndexOf(index, songs, song) ==>
          && 0 <= index <= i && SameSong(songs[index].0, songs[i].0)
          && forall k :: 0 <= k < index ==> !SameSong(songs[k].0, songs[i].0))
  }

  /** A record of the list, sent back as a TRACK packet however padded, asks for an equal song, and the look-up
      finds the first entry that equals it. */
  lemma BrowseThenPlay(fs: seq<Frame>, id: int32, songs: seq<(Song, string)>, i: nat, ask: int32, pad: seq<byte>, index: int)
    requires ListPackets(fs, id, songs) && i < |songs| && |pad| == MAX_PACKET_SIZE - SONG_SIZE
    ensures |RecordsIn(fs)| == |songs|
    ensures var record := RecordsIn(fs)[i];
            && |record| == SONG_SIZE && FromMemory(record).Equals(songs[i].0)
            && RequestOf(PutInt(SONG_SIZE) + PutInt(ask) + PutInt(TRACK) + (record + pad))
               == TrackRequest(ask, FromMemory(record))
            && Finds(index, songs, FromMemory(record), i)
  {
    ListFaithful(fs, id, songs);
    var record := RecordsIn(fs)[i];
    assert IsRecord(record, songs[i].0);
    RecordAsks(record, ask, pad);
    FoundBefore(index, songs, FromMemory(record), i);
  }

  /** A record sent as a TRACK packet asks for the song it is the memory of. */
  lemma RecordAsks(record: seq<byte>, ask: int32, pad: seq<byte>)
    requires |record| == SONG_SIZE && FromMemory(record).Valid() && |pad| == MAX_PACKET_SIZE - SONG_SIZE
    ensures RequestOf(PutInt(SONG_SIZE) + PutInt(ask) + PutInt(TRACK) + (record + pad))
            == TrackRequest(ask, FromMemory(record))
  {
    MessageAsks(Frame(SONG_SIZE, TRACK, ask, record), pad);
    assert record[128..132] == record[128..];
  }

  lemma FoundBefore(index: int, songs: seq<(Song, string)>, song: Song, i: nat)
    requires i < |songs| && song.Equals(songs[i].0)
    ensures Finds(index, songs, song, i)
  {
    EqualsIff(song, songs[i].0);
    SameIndices(songs, song, songs[i].0);
    if IsIndexOf(index, songs, songs[i].0) {
      EqualsIff(songs[i].0, songs[i].0);
      FoundIsSame(index, songs, songs[i].0);
    }
  }
}
