/** Answering requests: from a received message to the packets queued for the client. */
module Handlers {
  import opened Seqs
  import opened Bytes
  import opened Packets
  import opened Packing
  import opened Songs
  import opened Wav
  import opened ConcurrentQueue

  /** What a received message asks for. BadSong is a TRACK packet whose names are not NUL-terminated: copying it
      makes strncpy_s call the invalid-parameter handler of the C runtime, which does not return. */
  datatype Request = Nothing | TrackRequest(id: int32, song: Song) | ListRequest(id: int32) | BadSong

  /** The switch in handlePacket. */
  function RequestIn(p: PacketValue): Request
    requires p.Valid()
  {
    if p.kind == TRACK then
      if p.size == SONG_SIZE then
        var song := FromMemory(p.data[..SONG_SIZE]);
        if song.Valid() then TrackRequest(p.id, song) else BadSong
      else Nothing
    else if p.kind == FILELIST then ListRequest(p.id)
    else Nothing
  }

  /** What the receive handler makes of the bytes in the read buffer. */
  function RequestOf(msg: seq<byte>): Request {
    if |msg| != SIZEOF_PACKET then Nothing
    else
      match Deserialized(FRESH, msg)
      case None => Nothing
      case Some(p) => RequestIn(p)
  }

  /** What a message of the right length asks for, read off its bytes: the size in bytes 0 to 3, the id in 4 to 7, the
      type in 8 to 11; type 8 asks for the list, type 2 with a size of 132 for the song in bytes 12 to 143. */
  lemma {:induction false} RequestBytes(msg: seq<byte>)
    requires |msg| == 1036
    ensures var size, id, kind := GetInt(msg[0..4]), GetInt(msg[4..8]), GetInt(msg[8..12]);
            RequestOf(msg)
            == if kind == 8 && 0 <= size <= 1024 then ListRequest(id)
               else if kind == 2 && size == 132 then
                 if 0 in msg[12..76] && 0 in msg[76..140]
                 then TrackRequest(id, Song(msg[12..76], msg[76..140], GetInt(msg[140..144]))) else BadSong
               else Nothing
  {
    FreshAccepts(msg);
    if GetInt(msg[0..4]) == 132 && GetInt(msg[8..12]) == 2 {
      SongBytes(msg);
    }
  }

  /** What a packet asks for. */
  lemma PacketAsks(p: PacketValue)
    requires p.Valid()
    ensures p.kind == 8 ==> RequestIn(p) == ListRequest(p.id)
    ensures p.kind == 2 && p.size == 132 && 0 in p.data[..64] && 0 in p.data[64..128] ==>
              RequestIn(p) == TrackRequest(p.id, Song(p.data[..64], p.data[64..128], GetInt(p.data[128..132])))
    ensures p.kind != 8 && (p.kind != 2 || p.size != 132) ==> RequestIn(p) == Nothing
  {
    var d := p.data[..132];
    assert d[..64] == p.data[..64] && d[64..128] == p.data[64..128] && d[128..132] == p.data[128..132];
  }

  lemma SongBytes(msg: seq<byte>)
    requires |msg| == 1036 && GetInt(msg[0..4]) == 132 && GetInt(msg[8..12]) == 2
    ensures Deserialized(FRESH, msg).Some?
    ensures FromMemory(Deserialized(FRESH, msg).value.data[..132]) == Song(msg[12..76], msg[76..140], GetInt(msg[140..144]))
  {
    FreshAccepts(msg);
    var d := Deserialized(FRESH, msg).value.data[..132];
    assert d == msg[12..144];
    assert d[..64] == msg[12..76] && d[64..128] == msg[76..140] && d[128..132] == msg[140..144];
  }

  /** For every packet in the inbound layout, however padded: a FILELIST asks for the list with its id, a TRACK of 132
      bytes for the song in them, with its id; a TRACK of any other size and any other type ask for nothing. */
  lemma {:induction false} MessageAsks(f: Frame, pad: seq<byte>)
    requires f.Valid() && |pad| == MAX_PACKET_SIZE - f.size
    ensures RequestOf(PutInt(f.size) + PutInt(f.id) + PutInt(f.kind) + (f.payload + pad))
            == if f.kind == 8 then ListRequest(f.id)
               else if f.kind == 2 && f.size == 132 then
                 if 0 in f.payload[..64] && 0 in f.payload[64..128]
                 then TrackRequest(f.id, Song(f.payload[..64], f.payload[64..128], GetInt(f.payload[128..]))) else BadSong
               else Nothing
  {
    var msg := PutInt(f.size) + PutInt(f.id) + PutInt(f.kind) + (f.payload + pad);
    SlicesOf(PutInt(f.size), PutInt(f.id), PutInt(f.kind), f.payload + pad);
    GetPutInt(f.size);
    GetPutInt(f.id);
    GetPutInt(f.kind);
    RequestBytes(msg);
    if f.size == 132 {
      PayloadSlices(msg, f.payload, pad);
    }
  }

  lemma PayloadSlices(msg: seq<byte>, payload: seq<byte>, pad: seq<byte>)
    requires |msg| == 1036 && |payload| == 132 && msg[12..] == payload + pad
    ensures msg[12..76] == payload[..64] && msg[76..140] == payload[64..128] && msg[140..144] == payload[128..]
  {
    assert msg[12..144] == msg[12..][..132] == payload;
    assert msg[12..76] == msg[12..144][..64] && msg[76..140] == msg[12..144][64..128] && msg[140..144] == msg[12..144][128..];
  }

  /** listensFor */
  predicate Listens(kind: int32, listenFor: int32) {
    And(Unsigned(kind), Unsigned(listenFor)) != 0
  }

  /** now is before with entries for one client appended, all of them packets with a size in range. */
  predicate Appended(before: seq<ClientPacket>, now: seq<ClientPacket>, client: nat) {
    before <= now && forall k :: |before| <= k < |now| ==> now[k].client == client && now[k].packet.Valid()
  }

  lemma OneMoreQueued(before: seq<ClientPacket>, now: seq<ClientPacket>, cp: ClientPacket, fs: seq<Frame>)
    requires Appended(before, now, cp.client) && Views(now[|before|..]) == fs && cp.packet.Valid()
    ensures Appended(before, now + [cp], cp.client) && Views((now + [cp])[|before|..]) == fs + [cp.packet.View()]
  {
    AppendedGrows(before, now, cp);
    DropOfConcat(now, [cp], |before|);
    MapSnoc(ViewOf, now[|before|..], cp);
  }

  lemma AppendedGrows(before: seq<ClientPacket>, now: seq<ClientPacket>, cp: ClientPacket)
    requires Appended(before, now, cp.client) && cp.packet.Valid()
    ensures Appended(before, now + [cp], cp.client)
  {
  }

  /** The memory of a copy of the song. */
  predicate IsRecord(record: seq<byte>, song: Song) {
    |record| == SONG_SIZE && FromMemory(record).Valid() && FromMemory(record).Equals(song)
  }

  /** Records of the songs, in the order of the list. */
  ghost predicate RecordsOf(records: seq<seq<byte>>, songs: seq<(Song, string)>) {
    |records| == |songs| && forall k :: 0 <= k < |records| ==> IsRecord(records[k], songs[k].0)
  }

  /** One packet for each group of records. */
  ghost predicate Packed(fs: seq<Frame>, id: int32, groups: seq<seq<seq<byte>>>) {
    && |fs| == |groups|
    && forall k :: 0 <= k < |fs| ==> fs[k] == Frame(fs[k].size, FILELIST, id, Flatten(groups[k])) && fs[k].Valid()
  }

  const SONGS_PER_PACKET := PerPacket(SONG_SIZE, MAX_PACKET_SIZE)

  /** What requestFileList queues. */
  ghost predicate ListPackets(fs: seq<Frame>, id: int32, songs: seq<(Song, string)>) {
    exists groups: seq<seq<seq<byte>>> ::
      Packed(fs, id, groups) && RecordsOf(Flatten(groups), songs) && Greedy(groups, Flatten(groups), SONGS_PER_PACKET)
  }

  /** The progress of requestFileList: the groups of records sent, those in the buffer, and the packets sent. */
  datatype Ledger = Ledger(groups: seq<seq<seq<byte>>>, current: seq<seq<byte>>, fs: seq<Frame>) {
    /** Together the records are those of the songs, and the packets carry the groups. */
    ghost predicate Records(id: int32, songs: seq<(Song, string)>) {
      && Packed(fs, id, groups) && RecordsOf(Flatten(groups) + current, songs)
    }

    ghost predicate AllFull() {
      forall k :: 0 <= k < |groups| ==> |groups[k]| == SONGS_PER_PACKET
    }

    lemma Start(id: int32)
      requires this == Ledger([], [], [])
      ensures Records(id, []) && AllFull()
    {
    }

    /** One more record in the buffer. */
    lemma Add(id: int32, songs: seq<(Song, string)>, i: nat, record: seq<byte>)
      requires i < |songs| && Records(id, songs[..i]) && IsRecord(record, songs[i].0)
      ensures this.(current := current + [record]).Records(id, songs[..i + 1])
    {
      assert Flatten(groups) + (current + [record]) == (Flatten(groups) + current) + [record];
    }

    /** The ledger after the records in the buffer were sent as one packet. */
    function Flushed(f: Frame): Ledger {
      Ledger(groups + [current], [], fs + [f])
    }

    lemma Flush(id: int32, songs: seq<(Song, string)>, f: Frame)
      requires Records(id, songs) && f.Valid() && f == Frame(f.size, FILELIST, id, Flatten(current))
      ensures Flushed(f).Records(id, songs)
    {
      FlattenSnoc(groups, current);
      assert Flatten(Flushed(f).groups) + [] == Flatten(groups) + current;
    }

    lemma Done(id: int32, songs: seq<(Song, string)>)
      requires Records(id, songs) && current == [] && groups != []
      requires forall k :: 0 <= k < |groups| - 1 ==> |groups[k]| == SONGS_PER_PACKET
      requires var last := groups[|groups| - 1]; |last| <= SONGS_PER_PACKET && (songs != [] ==> last != [])
      ensures ListPackets(fs, id, songs)
    {
      assert Flatten(groups) + [] == Flatten(groups);
      assert Greedy(groups, Flatten(groups), SONGS_PER_PACKET);
    }
  }

  /** Where the stream of an open file with content c is after the header and k chunks: its cursor stays 44 bytes ahead
      of mExtracted. */
  predicate Positioned(stream: Stream, extracted: nat, c: seq<byte>, k: nat) {
    && (k == 0 || WAVE_HEADER + MAX_PACKET_SIZE * (k - 1) < DataSize(c))
    && extracted == (if k == 0 then WAVE_HEADER else Min(WAVE_HEADER + MAX_PACKET_SIZE * k, DataSize(c)))
    && (IsWave(c) ==>
          && stream.content == c
          && stream.cursor == Min(WAVE_HEADER + extracted, |c|)
          && stream.failed == (|c| < WAVE_HEADER + extracted))
  }

  /** When everything is extracted, all chunks have been read, and reading has ended where the data chunk ends. */
  lemma EndsWithData(stream: Stream, extracted: nat, c: seq<byte>, k: nat)
    requires Positioned(stream, extracted, c, k) && extracted >= DataSize(c)
    ensures k == ChunkCount(DataSize(c))
    ensures IsWave(c) && DataSize(c) >= WAVE_HEADER ==> stream.cursor == Min(WAVE_HEADER + DataSize(c), |c|)
  {
    ChunksDone(DataSize(c), k);
  }

  /** What the next chunk holds, and where the stream is after it. */
  lemma ChunkRead(stream: Stream, c: seq<byte>, k: nat, size: nat, data: seq<byte>, was: seq<byte>, id: int32)
    requires stream.Valid() && Positioned(stream, WAVE_HEADER + MAX_PACKET_SIZE * k, c, k)
    requires WAVE_HEADER + MAX_PACKET_SIZE * k < DataSize(c)
    requires size == Min(MAX_PACKET_SIZE, DataSize(c) - WAVE_HEADER - MAX_PACKET_SIZE * k)
    requires |was| == MAX_PACKET_SIZE && stream.Available(size) <= size
    requires data == stream.Delivered(size) + was[stream.Available(size)..]
    ensures Positioned(stream.AfterRead(size), Min(WAVE_HEADER + MAX_PACKET_SIZE * (k + 1), DataSize(c)), c, k + 1)
    ensures |data| == MAX_PACKET_SIZE && IsChunk(Frame(size, AUDIO, id, data[..size]), id, c, k)
  {
    var f := Frame(size, AUDIO, id, data[..size]);
    var n := stream.Available(size);
    assert f.payload[..n] == data[..n] == stream.Delivered(size);
    DeliveredIsChunk(stream, c, k, f);
  }

  class AudioServerHandler {
    const mListenFor: int32 := TRACK + FILELIST
    const fileList: FileList
    const mConQueue: Queue?<ClientPacket>   // null when the queue no longer exists
    const mClient: nat
    const disk: map<string, seq<byte>>      // the files that can be opened
    const modulus: nat                      // one more than the largest size_t

    constructor (client: nat, queue: Queue?<ClientPacket>, files: FileList, disk: map<string, seq<byte>>, modulus: nat)
      ensures mClient == client && mConQueue == queue && fileList == files && this.disk == disk && this.modulus == modulus
    {
      mClient, mConQueue, fileList, this.disk, this.modulus := client, queue, files, disk, modulus;
    }

    function FileAt(path: string): Option<seq<byte>> {
      if path in disk then Some(disk[path]) else None
    }

    /** The list holds songs that can be copied. */
    ghost predicate Valid()
      reads fileList
    {
      modulus in {MODULUS_32, MODULUS_64} && fileList.Valid()
    }

    /** The chunk loop ends for the file of the first entry that equals the song, if there is one. */
    ghost predicate Ends(song: Song)
      reads fileList
      requires modulus in {MODULUS_32, MODULUS_64}
    {
      forall k :: 0 <= k < |fileList.mFileMap| && IsIndexOf(k, fileList.mFileMap, song) ==>
                    LoopEnds(DataSize(ContentOf(FileAt(fileList.mFileMap[k].1))), modulus)
    }

    /** Answering the request ends. */
    ghost predicate Returns(request: Request)
      reads fileList
      requires modulus in {MODULUS_32, MODULUS_64}
    {
      request.TrackRequest? ==> Ends(request.song)
    }

    function Entries(): seq<ClientPacket>
      reads mConQueue
    {
      if mConQueue == null then [] else mConQueue.mQueue
    }

    /** The outcome of a TRACK request: the packets of the file of the first equal song, or nothing. */
    ghost predicate TrackServed(before: seq<ClientPacket>, now: seq<ClientPacket>, id: int32, index: int)
      reads fileList
      requires -1 <= index < |fileList.mFileMap|
    {
      if index == -1 || mConQueue == null || FileAt(fileList.mFileMap[index].1).None? then now == before
      else Appended(before, now, mClient)
           && Carries(Views(now[|before|..]), id, FileAt(fileList.mFileMap[index].1).value)
    }

    ghost predicate ListServed(before: seq<ClientPacket>, now: seq<ClientPacket>, id: int32)
      reads fileList
    {
      if mConQueue == null then now == before
      else Appended(before, now, mClient) && ListPackets(Views(now[|before|..]), id, fileList.mFileMap)
    }

    /** Since the entries were before, packets with the views fs have been queued, if there is a queue. */
    predicate HasQueued(before: seq<ClientPacket>, fs: seq<Frame>)
      reads mConQueue
    {
      if mConQueue == null then Entries() == before
      else Appended(before, Entries(), mClient) && Views(Entries()[|before|..]) == fs
    }

    method Push(packet: PacketValue, ghost before: seq<ClientPacket>, ghost fs: seq<Frame>)
      requires packet.Valid() && HasQueued(before, fs)
      modifies mConQueue
      ensures HasQueued(before, fs + [packet.View()])
    {
      if mConQueue != null {
        OneMoreQueued(before, Entries(), ClientPacket(mClient, packet), fs);
        mConQueue.Push(ClientPacket(mClient, packet));
      }
    }

    /** requestFile; index is the result of the look-up. */
    method RequestFile(id: int32, song: Song) returns (index: int)
      requires Valid() && song.Valid() && Ends(song)
      modifies mConQueue
      ensures IsIndexOf(index, fileList.mFileMap, song)
      ensures TrackServed(old(Entries()), Entries(), id, index)
    {
      index := fileList.IndexOf(song);
      if index > -1 {
        var file := FileAt(fileList.mFileMap[index].1);
        var packager := new WavFilePackager(modulus);
        var ok := packager.OpenFile(file);
        if packager.mOpenFile.isOpen {
          ghost var fs := SendFile(id, packager, file.value);
        }
        var closed := packager.CloseFile();
      }
    }

    /** The packager has produced the header and k chunks of the file c. */
    ghost predicate AfterChunks(packager: WavFilePackager, c: seq<byte>, k: nat)
      reads packager
    {
      packager.Valid() && packager.modulus == modulus && packager.mTotalSize == DataSize(c)
      && Positioned(packager.mOpenFile, packager.mExtracted, c, k)
    }

    /** What requestFile does with an open file. Reading ends where the data chunk ends, or the file. */
    method SendFile(id: int32, packager: WavFilePackager, ghost c: seq<byte>) returns (ghost fs: seq<Frame>)
      requires modulus == packager.modulus && packager.Valid() && LoopEnds(DataSize(c), modulus)
      requires packager.mHeader == Header(c) && packager.mTotalSize == DataSize(c) && packager.mExtracted == WAVE_HEADER
      requires packager.mOpenFile == Stream(true, |c| < HeaderRead(c), c, Min(HeaderRead(c), |c|))
      requires mConQueue as object? != packager
      modifies mConQueue, packager
      ensures packager.Valid()
      ensures IsWave(c) && DataSize(c) >= WAVE_HEADER ==> packager.mOpenFile.cursor == Min(WAVE_HEADER + DataSize(c), |c|)
      ensures HasQueued(old(Entries()), fs) && Carries(fs, id, c)
    {
      ghost var before := Entries();
      ChunkLoopTermination(DataSize(c));
      fs := SendHeader(id, packager, c);
      ghost var k := 0;
      while !packager.IsFileComplete()
        invariant Filing(id, packager, c, k, before, fs)
        decreases MODULUS_64 - packager.mExtracted
      {
        fs := SendChunk(id, packager, c, k, before, fs);
        k := k + 1;
      }
      EndsWithData(packager.mOpenFile, packager.mExtracted, c, k);
    }

    /** Queues the first size bytes of the buffer as a packet. */
    method SendPacket(kind: int32, id: int32, buffer: array<byte>, size: nat, ghost before: seq<ClientPacket>,
                      ghost fs: seq<Frame>) returns (ghost f: Frame)
      requires size <= MAX_PACKET_SIZE && size <= buffer.Length && HasQueued(before, fs)
      modifies mConQueue
      ensures f == Frame(size, kind, id, buffer[..size]) && HasQueued(before, fs + [f])
    {
      var packet := new Packet.FromData(kind, size, id, buffer);
      f := packet.Value().View();
      Push(packet.Value(), before, fs);
    }

    method SendHeader(id: int32, packager: WavFilePackager, ghost c: seq<byte>) returns (ghost fs: seq<Frame>)
      requires modulus == packager.modulus && packager.Valid()
      requires packager.mHeader == Header(c) && packager.mTotalSize == DataSize(c) && packager.mExtracted == WAVE_HEADER
      requires packager.mOpenFile == Stream(true, |c| < HeaderRead(c), c, Min(HeaderRead(c), |c|))
      requires mConQueue as object? != packager
      modifies mConQueue, packager
      ensures AfterChunks(packager, c, 0)
      ensures fs == [Frame(WAVE_HEADER, AUDIO, id, Header(c))] && HasQueued(old(Entries()), fs)
    {
      var headerSize := 44;
      var headerBuffer := new byte[headerSize];
      var read := packager.GetHeader(headerBuffer, headerSize);
      StreamAfterHeader(c);
      assert AfterChunks(packager, c, 0);
      assert headerBuffer[..headerSize] == Header(c);
      var f := SendPacket(AUDIO, id, headerBuffer, headerSize, Entries(), []);
      fs := [f];
      assert [] + fs == fs;
    }

    /** The state of requestFile between two chunks. */
    ghost predicate Filing(id: int32, packager: WavFilePackager, c: seq<byte>, k: nat, before: seq<ClientPacket>, fs: seq<Frame>)
      reads packager, mConQueue
    {
      AfterChunks(packager, c, k) && |fs| == k + 1 && Beginning(fs, id, c) && HasQueued(before, fs)
    }

    /** One round of the loop in requestFile. */
    method SendChunk(id: int32, packager: WavFilePackager, ghost c: seq<byte>, ghost k: nat,
                     ghost before: seq<ClientPacket>, ghost fs: seq<Frame>) returns (ghost fs': seq<Frame>)
      requires Filing(id, packager, c, k, before, fs) && packager.mExtracted < packager.mTotalSize
      requires modulus == MODULUS_64 || DataSize(c) <= modulus - 980
      requires mConQueue as object? != packager
      modifies mConQueue, packager
      ensures Filing(id, packager, c, k + 1, before, fs') && old(packager.mExtracted) < packager.mExtracted
    {
      var dataBuffer, actualSize := ReadChunk(packager, c, k, id);
      ghost var f := SendPacket(AUDIO, id, dataBuffer, actualSize, before, fs);
      fs' := fs + [f];
      BeginningGrows(fs, f, id, c);
    }

    method ReadChunk(packager: WavFilePackager, ghost c: seq<byte>, ghost k: nat, ghost id: int32)
      returns (dataBuffer: array<byte>, actualSize: nat)
      requires AfterChunks(packager, c, k) && packager.mExtracted < packager.mTotalSize
      requires modulus == MODULUS_64 || DataSize(c) <= modulus - 980
      modifies packager
      ensures AfterChunks(packager, c, k + 1) && old(packager.mExtracted) < packager.mExtracted
      ensures fresh(dataBuffer) && actualSize <= MAX_PACKET_SIZE && actualSize <= dataBuffer.Length
      ensures IsChunk(Frame(actualSize, AUDIO, id, dataBuffer[..actualSize]), id, c, k)
    {
      var bufferSize := MAX_PACKET_SIZE;
      dataBuffer := new byte[bufferSize];
      ghost var stream, was := packager.mOpenFile, dataBuffer[..];
      assert packager.mExtracted == WAVE_HEADER + MAX_PACKET_SIZE * k;
      Round(DataSize(c), modulus, k);
      actualSize := packager.GetNextChunk(dataBuffer, bufferSize);
      ChunkRead(stream, c, k, actualSize, dataBuffer[..], was, id);
      assert dataBuffer[..actualSize] == dataBuffer[..][..actualSize];
    }

    /** requestFileList; its write pointer is always used bytes into the array. */
    method RequestFileList(id: int32)
      requires Valid()
      modifies mConQueue
      ensures ListServed(old(Entries()), Entries(), id)
    {
      ghost var before := Entries();
      var files := fileList.mFileMap;
      var byteArray := new byte[MAX_PACKET_SIZE];
      var used := 0;
      ghost var l := Ledger([], [], []);
      l.Start(id);
      var i := 0;
      assert files[..i] == [];
      while i < |files|
        invariant 0 <= i <= |files|
        invariant fresh(byteArray) && Listing(id, before, byteArray, used, l, files[..i]) && (i > 0 ==> l.current != [])
      {
        var alive: bool;
        alive, byteArray, used, l := ListSong(id, byteArray, used, before, l, files, i);
        if !alive {
          break;
        }
        i := i + 1;
      }
      if mConQueue != null {
        assert files[..i] == files;
        SendLast(id, byteArray, used, before, l);
      }
    }

    /** A round of the loop. */
    method ListSong(id: int32, byteArray: array<byte>, used: nat, ghost before: seq<ClientPacket>, ghost l: Ledger,
                    files: seq<(Song, string)>, i: nat)
      returns (alive: bool, byteArray': array<byte>, used': nat, ghost l': Ledger)
      requires i < |files| && files[i].0.Valid() && Listing(id, before, byteArray, used, l, files[..i])
      modifies mConQueue, byteArray
      ensures byteArray' == byteArray || fresh(byteArray')
      ensures if alive then Listing(id, before, byteArray', used', l', files[..i + 1]) && l'.current != []
              else mConQueue == null && HasQueued(before, l'.fs)
    {
      alive, byteArray', used', l' := MakeRoom(id, byteArray, used, before, l, files[..i]);
      if alive {
        l' := StoreRecord(byteArray', used', id, before, files, i, l');
        used' := used' + SONG_SIZE;
      }
    }

    method SendLast(id: int32, byteArray: array<byte>, used: nat, ghost before: seq<ClientPacket>, ghost l: Ledger)
      requires Listing(id, before, byteArray, used, l, fileList.mFileMap) && mConQueue != null
      requires fileList.mFileMap != [] ==> l.current != []
      modifies mConQueue
      ensures ListServed(before, Entries(), id)
    {
      ghost var l' := SendList(id, byteArray, used, before, l, fileList.mFileMap);
      l'.Done(id, fileList.mFileMap);
    }

    /** If no record fits behind the used bytes, they are queued and a new array is started; not alive if the queue
        is found gone. */
    method MakeRoom(id: int32, byteArray: array<byte>, used: nat, ghost before: seq<ClientPacket>,
                    ghost l: Ledger, ghost songs: seq<(Song, string)>)
      returns (alive: bool, byteArray': array<byte>, used': nat, ghost l': Ledger)
      requires Listing(id, before, byteArray, used, l, songs)
      modifies mConQueue
      ensures byteArray' == byteArray || fresh(byteArray')
      ensures Listing(id, before, byteArray', used', l', songs)
      ensures if alive then used' + SONG_SIZE <= MAX_PACKET_SIZE else mConQueue == null
    {
      alive, byteArray', used', l' := true, byteArray, used, l;
      if used + SONG_SIZE > MAX_PACKET_SIZE {
        if mConQueue != null {
          l' := SendList(id, byteArray, used, before, l, songs);
        } else {
          alive := false;
          return;
        }
        byteArray' := new byte[MAX_PACKET_SIZE];
        used' := 0;
      }
    }

    /** The first used bytes of the array are the records. */
    ghost predicate Buffered(byteArray: array<byte>, used: nat, records: seq<seq<byte>>)
      reads byteArray
    {
      byteArray.Length == MAX_PACKET_SIZE && used == SONG_SIZE * |records| && used <= MAX_PACKET_SIZE
      && byteArray[..used] == Flatten(records)
    }

    /** The state of requestFileList between two songs. */
    ghost predicate Listing(id: int32, before: seq<ClientPacket>, byteArray: array<byte>, used: nat, l: Ledger,
                            songs: seq<(Song, string)>)
      reads byteArray, mConQueue
    {
      Buffered(byteArray, used, l.current) && l.Records(id, songs) && l.AllFull() && HasQueued(before, l.fs)
    }

    /** Queues the first used bytes of the array as one packet. */
    method SendList(id: int32, byteArray: array<byte>, used: nat, ghost before: seq<ClientPacket>,
                    ghost l: Ledger, ghost songs: seq<(Song, string)>) returns (ghost l': Ledger)
      requires Buffered(byteArray, used, l.current) && l.Records(id, songs)
      requires mConQueue != null && HasQueued(before, l.fs)
      modifies mConQueue
      ensures l'.Records(id, songs) && HasQueued(before, l'.fs)
      ensures l'.current == [] && l'.groups != [] && l'.groups[|l'.groups| - 1] == l.current
      ensures l.AllFull() ==> forall k :: 0 <= k < |l'.groups| - 1 ==> |l'.groups[k]| == SONGS_PER_PACKET
    {
      ghost var f := SendPacket(FILELIST, id, byteArray, used, before, l.fs);
      l' := l.Flushed(f);
      l.Flush(id, songs, f);
    }

    /** memcpy of a copy of the song, behind the records already there. */
    method StoreRecord(buf: array<byte>, at: nat, ghost id: int32, ghost before: seq<ClientPacket>,
                       songs: seq<(Song, string)>, i: nat, ghost l: Ledger)
      returns (ghost l': Ledger)
      requires i < |songs| && songs[i].0.Valid() && at + SONG_SIZE <= buf.Length
      requires Listing(id, before, buf, at, l, songs[..i])
      modifies buf
      ensures Listing(id, before, buf, at + SONG_SIZE, l', songs[..i + 1]) && l'.current != []
    {
      var copy := CopySong(songs[i].0);
      var memory := copy.Memory();
      FromMemoryOfMemory(copy);
      MemCpy(buf, at, memory, l.current);
      l.Add(id, songs, i, memory);
      l' := l.(current := l.current + [memory]);
    }

    method MemCpy(buf: array<byte>, at: nat, memory: seq<byte>, ghost records: seq<seq<byte>>)
      requires |memory| == SONG_SIZE && at + SONG_SIZE <= buf.Length && Buffered(buf, at, records)
      modifies buf
      ensures Buffered(buf, at + SONG_SIZE, records + [memory])
    {
      FlattenSnoc(records, memory);
      ghost var was := buf[..];
      CopyIn(buf, at, memory);
      assert buf[..at + SONG_SIZE] == was[..at] + memory;
    }

    /** handlePacket */
    method HandlePacket(sentMessage: PacketValue) returns (index: int)
      requires Valid() && sentMessage.Valid() && Returns(RequestIn(sentMessage))
      modifies mConQueue
      ensures Answered(RequestIn(sentMessage), old(Entries()), Entries(), index)
      ensures sentMessage.kind == 8 ==> ListServed(old(Entries()), Entries(), sentMessage.id)
      ensures sentMessage.kind == 2 && sentMessage.size == 132
              && 0 in sentMessage.data[..64] && 0 in sentMessage.data[64..128] ==>
                && -1 <= index < |fileList.mFileMap| && TrackServed(old(Entries()), Entries(), sentMessage.id, index)
                && FirstSame(index, Song(sentMessage.data[..64], sentMessage.data[64..128], GetInt(sentMessage.data[128..132])))
      ensures sentMessage.kind != 8 && (sentMessage.kind != 2 || sentMessage.size != 132) ==> Entries() == old(Entries())
    {
      index := -1;
      if sentMessage.kind == TRACK {
        if sentMessage.size == SONG_SIZE {
          var packetSong := FromMemory(sentMessage.data[..SONG_SIZE]);
          if packetSong.Valid() {
            var song := CopySong(packetSong);
            SameIndices(fileList.mFileMap, song, packetSong);
            index := RequestFile(sentMessage.id, song);
          }
        }
      } else if sentMessage.kind == FILELIST {
        RequestFileList(sentMessage.id);
      }
      PacketAsks(sentMessage);
      if RequestIn(sentMessage).TrackRequest? {
        FoundIsSame(index, fileList.mFileMap, RequestIn(sentMessage).song);
      }
    }

    /** The entry at index is the first with the names and the length of the song; -1 if there is none. */
    ghost predicate FirstSame(index: int, song: Song)
      reads fileList
    {
      if index == -1 then forall k :: 0 <= k < |fileList.mFileMap| ==> !SameSong(fileList.mFileMap[k].0, song)
      else && 0 <= index < |fileList.mFileMap| && SameSong(fileList.mFileMap[index].0, song)
           && forall k :: 0 <= k < index ==> !SameSong(fileList.mFileMap[k].0, song)
    }

    /** What a request makes of the queue. */
    ghost predicate Answered(request: Request, before: seq<ClientPacket>, now: seq<ClientPacket>, index: int)
      reads fileList
    {
      match request
      case TrackRequest(id, song) => IsIndexOf(index, fileList.mFileMap, song) && TrackServed(before, now, id, index)
      case ListRequest(id) => ListServed(before, now, id)
      case _ => now == before
    }

    /** The receive lambda, on a read buffer of which size bytes were received. */
    method OnReceived(buffer: array<byte>, size: nat) returns (index: int)
      requires Valid() && size <= buffer.Length && Returns(RequestOf(buffer[..size]))
      modifies mConQueue
      ensures Answered(RequestOf(buffer[..size]), old(Entries()), Entries(), index)
    {
      index := -1;
      var packet := new Packet.Default();
      var thrown := packet.Deserialize(buffer, size);
      if !thrown {
        ListensToItsTypes(packet.kind);
        if Listens(packet.kind, mListenFor) {
          index := HandlePacket(packet.Value());
        }
      }
    }
  }

  lemma AndTen(a: nat)
    ensures And(a, 10) == 2 * (a / 2 % 2) + 8 * (a / 8 % 2)
  {
    assert And(a / 8, 1) == a / 8 % 2 by {
      assert And(a / 16, 0) == 0;
    }
    assert a / 4 / 2 == a / 8 && And(a / 4, 2) == 2 * And(a / 8, 1);
    assert a / 2 / 2 == a / 4 && And(a / 2, 5) == 2 * And(a / 4, 2) + a / 2 % 2;
    assert And(a, 10) == 2 * And(a / 2, 5);
  }

  /** The handler listens to a type exactly when its second or its fourth bit is set: to TRACK and FILELIST, and not to
      INVALID or any other single bit. */
  lemma {:induction false} ListensIff(kind: int32)
    ensures Listens(kind, TRACK + FILELIST) <==> Unsigned(kind) as int / 2 % 2 == 1 || Unsigned(kind) as int / 8 % 2 == 1
  {
    AndTen(Unsigned(kind));
  }

  lemma ListensToItsTypes(kind: int32)
    ensures kind == TRACK || kind == FILELIST ==> Listens(kind, TRACK + FILELIST)
    ensures kind == INVALID ==> !Listens(kind, TRACK + FILELIST)
  {
    ListensIff(kind);
  }

  /** Equal songs are found at the same place. */
  lemma SameIndices(songs: seq<(Song, string)>, song: Song, other: Song)
    requires song.Equals(other)
    ensures forall k :: IsIndexOf(k, songs, song) <==> IsIndexOf(k, songs, other)
  {
  }
}
