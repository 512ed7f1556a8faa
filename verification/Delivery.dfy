/** What arrives at a client, under every schedule of the send pipeline. */
module Delivery {
  import opened Seqs
  import opened Runs
  import opened Bytes
  import opened Packets
  import opened Packing
  import opened Songs
  import opened Wav
  import opened Handlers
  import opened Browsing
  import opened Pipeline
  import Monitor

  // ----- Gap-free delivery and throttling

  lemma StartsWith<T>(a: seq<T>, b: seq<T>, c: seq<T>, d: seq<T>)
    ensures a <= ((a + b) + c) + d
  {
  }

  /** sendTask has decided about a beginning of what was pushed. */
  lemma DecidedPrefix(s: State)
    requires Inv(s)
    ensures s.decided <= s.mon.pushed
  {
    StartsWith(s.decided, Undecided(s), Monitor.InHand(s.mon), s.mon.queue);
  }

  /** The packets given to BeginSend for a client are a prefix of those pushed for it that are not INVALID. */
  lemma {:induction false} GapFree(prog: seq<seq<ClientPacket>>, keys: seq<Key>, es: seq<Event>, c: nat)
    requires Configured(prog, keys) && Exec(Next, Init(prog, keys), es).Some?
    ensures var s := Exec(Next, Init(prog, keys), es).value;
            Filter(ForClient(c), s.sent) <= Filter(DueTo(c), s.mon.pushed)
  {
    Reachable(prog, keys, es);
    var s := Exec(Next, Init(prog, keys), es).value;
    DecidedPrefix(s);
    FilterPrefix(DueTo(c), s.decided, s.mon.pushed);
    assert Filter(ForClient(c), s.sent) <= Filter(DueTo(c), s.decided);
  }

  ghost predicate Gone(c: nat, got: seq<ClientPacket>, s: State) {
    Inv(s) && c in s.expired && Filter(ForClient(c), s.sent) == got
  }

  /** Only Send adds to what was sent, and nobody comes back to life. */
  lemma SentAndExpired(s: State, e: Event)
    requires Next(s, e).Some?
    ensures s.expired <= Next(s, e).value.expired
    ensures Next(s, e).value.sent == if e.Send? then s.sent + [s.sender.cp] else s.sent
    ensures e.Send? ==> s.sender.Holding?
  {
  }

  lemma {:induction false} GoneStays(c: nat, got: seq<ClientPacket>, s: State, e: Event)
    requires Gone(c, got, s) && Next(s, e).Some?
    ensures Gone(c, got, Next(s, e).value)
  {
    SentAndExpired(s, e);
    if e.Send? {
      assert Keeps(s.sender, s.sender.cp.client);
      FilterSnoc(ForClient(c), s.sent, s.sender.cp);
    }
    StepKeepsInv(s, e);
  }

  /** A client once expired is sent nothing more, and never holds sendTask up: its packets are dropped. */
  lemma ExpiredForGood(prog: seq<seq<ClientPacket>>, keys: seq<Key>, es: seq<Event>, more: seq<Event>, c: nat)
    requires Configured(prog, keys) && Exec(Next, Init(prog, keys), es).Some?
    requires var s := Exec(Next, Init(prog, keys), es).value; c in s.expired && Exec(Next, s, more).Some?
    ensures var s := Exec(Next, Init(prog, keys), es).value;
            var later := Exec(Next, s, more).value;
            c in later.expired && Filter(ForClient(c), later.sent) == Filter(ForClient(c), s.sent) && !Keeps(later.sender, c)
  {
    Reachable(prog, keys, es);
    var s := Exec(Next, Init(prog, keys), es).value;
    var got := Filter(ForClient(c), s.sent);
    forall m: State, e: Event | Gone(c, got, m) && Next(m, e).Some?
      ensures Gone(c, got, Next(m, e).value)
    {
      GoneStays(c, got, m, e);
    }
    Invariance(Next, m => Gone(c, got, m), s, more);
  }

  /** BeginSend is called at most once more than sendTask can have been woken, whatever clients the workers served. */
  lemma Throttled(prog: seq<seq<ClientPacket>>, keys: seq<Key>, es: seq<Event>)
    requires Configured(prog, keys) && Exec(Next, Init(prog, keys), es).Some?
    ensures var s := Exec(Next, Init(prog, keys), es).value;
            |s.wire| == |s.sent| <= s.notifies + s.spurious + 1
  {
    Reachable(prog, keys, es);
  }

  // ----- From buffers to frames

  lemma BufferIsImage(p: PacketValue)
    requires p.Valid()
    ensures Buffer(p) == p.View().Image()
  {
  }

  lemma ReceivedSnoc(wire: seq<(nat, seq<byte>)>, w: (nat, seq<byte>), c: nat)
    ensures Received(wire + [w], c) == if w.0 == c then Received(wire, c) + w.1 else Received(wire, c)
  {
    var bufs := Filter(OnWireFor(c), wire);
    FilterSnoc(OnWireFor(c), wire, w);
    if w.0 == c {
      MapSnoc(BytesOf, bufs, w);
      FlattenSnoc(Map(BytesOf, bufs), w.1);
    } else {
      assert bufs + [] == bufs;
    }
  }

  lemma {:induction false} EncodeSnoc(fs: seq<Frame>, f: Frame)
    ensures Encode(fs + [f]) == Encode(fs) + f.Image()
  {
    MapSnoc(ImageOf, fs, f);
    FlattenSnoc(Map(ImageOf, fs), f.Image());
  }

  lemma ViewsSnoc(cps: seq<ClientPacket>, p: ClientPacket -> bool, cp: ClientPacket)
    ensures Views(Filter(p, cps + [cp])) == if p(cp) then Views(Filter(p, cps)) + [ViewOf(cp)] else Views(Filter(p, cps))
  {
    FilterSnoc(p, cps, cp);
    if p(cp) {
      MapSnoc(ViewOf, Filter(p, cps), cp);
    } else {
      assert Filter(p, cps) + [] == Filter(p, cps);
    }
  }

  /** The buffers a client was sent are the encoding of the packets it was sent. */
  lemma {:induction false} ReceivedIsEncoded(sent: seq<ClientPacket>, wire: seq<(nat, seq<byte>)>, c: nat)
    requires |wire| == |sent| && forall k :: 0 <= k < |sent| ==> wire[k] == (sent[k].client, Buffer(sent[k].packet))
    requires forall k :: 0 <= k < |sent| && sent[k].client == c ==> sent[k].packet.Valid()
    ensures Received(wire, c) == Encode(Views(Filter(ForClient(c), sent)))
  {
    if sent != [] {
      var n := |sent| - 1;
      var cp, w := sent[n], wire[n];
      ReceivedIsEncoded(sent[..n], wire[..n], c);
      assert sent == sent[..n] + [cp] && wire == wire[..n] + [w];
      ReceivedSnoc(wire[..n], w, c);
      ViewsSnoc(sent[..n], ForClient(c), cp);
      if cp.client == c {
        BufferIsImage(cp.packet);
        EncodeSnoc(Views(Filter(ForClient(c), sent[..n])), ViewOf(cp));
      }
    }
  }

  lemma TagIsKey(k: Key, cp: ClientPacket)
    requires k.kind != INVALID
    ensures HasKey(k)(cp) <==> DueTo(k.client)(cp) && Tagged(k.kind, k.id)(ViewOf(cp))
  {
  }

  /** Among the frames due to a client, the tag of a request selects the packets with its key. */
  lemma {:induction false} TagSelectsKey(k: Key, s: seq<ClientPacket>)
    requires k.kind != INVALID
    ensures Filter(Tagged(k.kind, k.id), Views(Filter(DueTo(k.client), s))) == Views(Filter(HasKey(k), s))
  {
    if s != [] {
      var n := |s| - 1;
      var cp := s[n];
      TagSelectsKey(k, s[..n]);
      assert s == s[..n] + [cp];
      TagIsKey(k, cp);
      ViewsSnoc(s[..n], DueTo(k.client), cp);
      ViewsSnoc(s[..n], HasKey(k), cp);
      FilterSnoc(Tagged(k.kind, k.id), Views(Filter(DueTo(k.client), s[..n])), ViewOf(cp));
    }
  }

  /** The frames a client can read from what it was sent. */
  function Frames(s: State, c: nat): seq<Frame> {
    match Decode(Received(s.wire, c))
    case None => []
    case Some(fs) => fs
  }

  lemma FramesAre(s: State, c: nat)
    requires Inv(s)
    ensures Decode(Received(s.wire, c)).Some?
    ensures Frames(s, c) == Views(Filter(ForClient(c), s.sent))
  {
    var got := Filter(ForClient(c), s.sent);
    forall k | 0 <= k < |s.sent| && s.sent[k].client == c
      ensures s.sent[k].packet.Valid()
    {
      FilterMember(ForClient(c), s.sent, s.sent[k]);
      SentIsValid(s, c, s.sent[k]);
    }
    ReceivedIsEncoded(s.sent, s.wire, c);
    forall f | f in Views(got)
      ensures f.Valid()
    {
      var k :| 0 <= k < |got| && f == ViewOf(got[k]);
      SentIsValid(s, c, got[k]);
    }
    DecodeEncode(Views(got));
  }

  lemma SentIsValid(s: State, c: nat, cp: ClientPacket)
    requires Inv(s) && cp in Filter(ForClient(c), s.sent)
    ensures cp.packet.Valid()
  {
    DecidedPrefix(s);
    assert Filter(ForClient(c), s.sent) <= Filter(DueTo(c), s.decided);
    assert cp in Filter(DueTo(c), s.decided);
    FilterMember(DueTo(c), s.decided, cp);
    assert cp in s.mon.pushed;
  }

  // ----- Demultiplexing

  /** In every reachable state the frames a client has received with the tag of a request are a prefix of the request's
      packets, whatever other requests are interleaved with it, if it is alone with its client, type and id. */
  lemma TaggedFramesPrefix(s: State, t: nat)
    requires Inv(s) && 0 < t < |s.keys| && s.keys[t].kind != INVALID && Alone(s.prog, s.keys, t)
    ensures Filter(Tagged(s.keys[t].kind, s.keys[t].id), Frames(s, s.keys[t].client)) <= Views(s.prog[t])
  {
    var k := s.keys[t];
    var tag, got, due := Tagged(k.kind, k.id), Filter(ForClient(k.client), s.sent), Filter(DueTo(k.client), s.decided);
    FramesAre(s, k.client);
    assert got <= due;
    MapPrefix(ViewOf, got, due);
    FilterPrefix(tag, Views(got), Views(due));
    TagSelectsKey(k, s.decided);
    DecidedPrefix(s);
    FilterPrefix(HasKey(k), s.decided, s.mon.pushed);
    assert WithKey(k, s.mon.pushed) + Holdings(s.mon, s.todo)[t] == s.prog[t];
    MapPrefix(ViewOf, Filter(HasKey(k), s.decided), s.prog[t]);
  }

  /** A live client has received all packets with a key that sendTask has decided about. */
  lemma DecidedFrames(s: State, k: Key)
    requires Inv(s) && k.kind != INVALID && k.client !in s.expired
    ensures Filter(Tagged(k.kind, k.id), Frames(s, k.client)) == Views(WithKey(k, s.decided))
  {
    FramesAre(s, k.client);
    assert Filter(ForClient(k.client), s.sent) == Filter(DueTo(k.client), s.decided);
    TagSelectsKey(k, s.decided);
  }

  /** sendTask has taken as many packets with the key of request t off the queue, and sent or dropped them, as the
      request consists of. */
  predicate Settled(s: State, t: nat)
    requires t < |s.keys| == |s.prog|
  {
    |WithKey(s.keys[t], s.decided)| == |s.prog[t]|
  }

  /** Exactly when a request has arrived: at every moment, whatever other requests are still in progress, a live client
      has received all packets of a request that is alone with its key if and only if the request is settled. */
  lemma ArrivedIff(s: State, t: nat)
    requires Inv(s) && 0 < t < |s.keys| && s.keys[t].kind != INVALID && s.keys[t].client !in s.expired
    requires Alone(s.prog, s.keys, t)
    ensures Filter(Tagged(s.keys[t].kind, s.keys[t].id), Frames(s, s.keys[t].client)) == Views(s.prog[t]) <==> Settled(s, t)
  {
    DecidedFrames(s, s.keys[t]);
    TaggedFramesPrefix(s, t);
  }

  /** Everything pushed has been sent or dropped, and no request holds anything back. */
  ghost predicate Drained(s: State)
    requires |s.mon.pc| == |s.todo| == |s.prog|
  {
    s.decided == s.mon.pushed && forall t :: 0 < t < |s.prog| ==> Held(s.mon, s.todo, t) == []
  }

  /** A drained pipeline has settled every request that is alone with its key. */
  lemma DrainedIsSettled(s: State, t: nat)
    requires Inv(s) && Drained(s) && 0 < t < |s.keys| && Alone(s.prog, s.keys, t)
    ensures Settled(s, t)
  {
    assert WithKey(s.keys[t], s.mon.pushed) + Holdings(s.mon, s.todo)[t] == s.prog[t];
  }

  // ----- When the pipeline is drained

  /** What the server's own threads can do. */
  predicate Own(e: Event) {
    e.Act? || e.StartPush? || e.StartPop? || e.Decide? || e.Send? || e.Wait? || e.Resume?
  }

  /** No thread of the pipeline can act. */
  ghost predicate Stuck(s: State) {
    forall e :: Own(e) ==> Next(s, e).None?
  }

  lemma StuckQueue(s: State)
    requires Inv(s) && Stuck(s)
    ensures forall t :: 0 <= t < |s.mon.pc| ==> Monitor.Advance(s.mon, t).None?
  {
    forall t | 0 <= t < |s.mon.pc|
      ensures Monitor.Advance(s.mon, t).None?
    {
      assert Own(Act(t)) && Next(s, Act(t)).None?;
    }
  }

  /** Unless it is inside pop or waiting, sendTask can act. */
  lemma SenderCanAct(s: State) returns (e: Event)
    requires s.mon.pc != [] && s.mon.pc[0].Idle? && !s.sender.Popping? && !s.sender.Waiting?
    ensures Own(e) && Next(s, e).Some?
  {
    match s.sender
    case Top => e := StartPop;
    case Have(_) => e := Decide;
    case Holding(_) => e := Send;
    case Sent(_) => e := Wait;
    case Ready(_) => e := Resume;
  }

  lemma StuckSender(s: State)
    requires Inv(s) && Stuck(s)
    ensures s.sender.Popping? || s.sender.Waiting?
  {
    if !s.sender.Popping? && !s.sender.Waiting? {
      var e := SenderCanAct(s);
    }
  }

  lemma StuckRequest(s: State, t: nat)
    requires Inv(s) && Stuck(s) && 0 < t < |s.prog| && s.mon.pc[t].Idle?
    ensures s.todo[t] == []
  {
    assert Own(StartPush(t)) && Next(s, StartPush(t)).None?;
  }

  /** Then every request has pushed all of its packets, and what sendTask has not decided about is in the queue. */
  lemma StuckHoldsNothing(s: State)
    requires Inv(s) && Stuck(s)
    ensures forall t :: 0 < t < |s.prog| ==> Held(s.mon, s.todo, t) == []
    ensures s.mon.pushed == s.decided + s.mon.queue
    ensures s.sender.Popping? ==> s.mon.queue == []
  {
    StuckQueue(s);
    StuckSender(s);
    Monitor.QuietMeansServed(s.mon);
    forall t | 0 < t < |s.prog|
      ensures Held(s.mon, s.todo, t) == []
    {
      StuckRequest(s, t);
    }
    assert s.mon.pushed == (s.decided + []) + [] + s.mon.queue;
  }

  /** Exactly when a pipeline that has come to a stop is drained: when the queue is empty. And it is, unless sendTask
      waits for a notification. */
  lemma StuckIsDrainedIff(s: State)
    requires Inv(s) && Stuck(s)
    ensures Drained(s) <==> s.mon.queue == []
    ensures !s.sender.Waiting? ==> Drained(s)
  {
    StuckHoldsNothing(s);
    StuckSender(s);
    assert s.mon.queue == [] ==> s.decided + s.mon.queue == s.decided;
  }

  // ----- The handlers' answers are requests of the pipeline

  /** What requestFile appends to the queue is a request with the client, type and id it was asked with. */
  lemma {:induction false} TrackIsRequest(before: seq<ClientPacket>, now: seq<ClientPacket>, c: nat, id: int32, file: seq<byte>)
    requires Appended(before, now, c) && Carries(Views(now[|before|..]), id, file)
    ensures forall cp :: cp in now[|before|..] ==> cp.packet.Valid() && KeyOf(cp) == Key(c, AUDIO, id)
  {
    var cps := now[|before|..];
    forall cp | cp in cps
      ensures cp.packet.Valid() && KeyOf(cp) == Key(c, AUDIO, id)
    {
      var k :| 0 <= k < |cps| && cp == cps[k];
      assert cp == now[|before| + k];
      var f := Views(cps)[k];
      assert f == cp.packet.View();
      assert k == 0 || IsChunk(f, id, file, k - 1);
    }
  }

  /** And so is what requestFileList appends. */
  lemma {:induction false} ListIsRequest(before: seq<ClientPacket>, now: seq<ClientPacket>, c: nat, id: int32, songs: seq<(Song, string)>)
    requires Appended(before, now, c) && ListPackets(Views(now[|before|..]), id, songs)
    ensures forall cp :: cp in now[|before|..] ==> cp.packet.Valid() && KeyOf(cp) == Key(c, FILELIST, id)
  {
    var cps := now[|before|..];
    forall cp | cp in cps
      ensures cp.packet.Valid() && KeyOf(cp) == Key(c, FILELIST, id)
    {
      var k :| 0 <= k < |cps| && cp == cps[k];
      assert cp == now[|before| + k];
      assert Views(cps)[k] == cp.packet.View();
    }
  }

  // ----- End to end

  lemma PayloadsPrefix(a: seq<Frame>, b: seq<Frame>)
    requires a <= b
    ensures Payloads(a) <= Payloads(b)
  {
    MapPrefix(PayloadOf, a, b);
    FlattenPrefix(Map(PayloadOf, a), Map(PayloadOf, b));
  }

  /** At every moment of every schedule, what a client has received of a file is a prefix of what it is to get. */
  lemma {:induction false} FileArriving(prog: seq<seq<ClientPacket>>, keys: seq<Key>, es: seq<Event>, t: nat, c: nat, id: int32, file: seq<byte>)
    requires Configured(prog, keys) && Exec(Next, Init(prog, keys), es).Some?
    requires 0 < t < |prog| && keys[t] == Key(c, AUDIO, id) && Alone(prog, keys, t)
    requires WellFormed(file) && Carries(Views(prog[t]), id, file)
    ensures var s := Exec(Next, Init(prog, keys), es).value;
            Decode(Received(s.wire, c)).Some?
            && Payloads(Filter(Tagged(AUDIO, id), Decode(Received(s.wire, c)).value)) <= Streamed(file)
  {
    Reachable(prog, keys, es);
    var s := Exec(Next, Init(prog, keys), es).value;
    FramesAre(s, c);
    TaggedFramesPrefix(s, t);
    PayloadsPrefix(Filter(Tagged(AUDIO, id), Frames(s, c)), Views(prog[t]));
    Reassembled(Views(prog[t]), id, file);
  }

  /** Part of a file's packets has part of its bytes, since no packet of a file is empty. */
  lemma PayloadsShorter(a: seq<Frame>, b: seq<Frame>, id: int32, file: seq<byte>)
    requires Carries(b, id, file) && a < b
    ensures |Payloads(a)| < |Payloads(b)|
  {
    var f := b[|a|];
    if a != [] {
      ChunksFull(b, id, file, |a|);
    }
    assert b == (a + [f]) + b[|a| + 1..];
    PayloadsSnoc(a, f);
    PayloadsPrefix(a + [f], b);
  }

  /** A live client can reassemble a file from the bytes given to BeginSend - it decodes the stream, keeps the AUDIO
      packets with the id of its request, and concatenates - from the very moment sendTask has settled the request,
      and not before, whatever else is in progress or interleaved with it. */
  lemma FileDelivered(prog: seq<seq<ClientPacket>>, keys: seq<Key>, es: seq<Event>, t: nat, c: nat, id: int32, file: seq<byte>)
    requires Configured(prog, keys) && Exec(Next, Init(prog, keys), es).Some?
    requires c !in Exec(Next, Init(prog, keys), es).value.expired
    requires 0 < t < |prog| && keys[t] == Key(c, AUDIO, id) && Alone(prog, keys, t)
    requires WellFormed(file) && Carries(Views(prog[t]), id, file)
    ensures var s := Exec(Next, Init(prog, keys), es).value;
            && |s.keys| == |s.prog| == |prog|
            && Decode(Received(s.wire, c)).Some?
            && (Payloads(Filter(Tagged(AUDIO, id), Decode(Received(s.wire, c)).value)) == Streamed(file) <==> Settled(s, t))
  {
    Reachable(prog, keys, es);
    var s := Exec(Next, Init(prog, keys), es).value;
    FramesAre(s, c);
    ArrivedIff(s, t);
    TaggedFramesPrefix(s, t);
    Reassembled(Views(prog[t]), id, file);
    var got := Filter(Tagged(AUDIO, id), Frames(s, c));
    if got != Views(prog[t]) {
      PayloadsShorter(got, Views(prog[t]), id, file);
    }
  }

  /** Likewise for a file list: from that moment the FILELIST packets with the id of the request hold one record for
      each song; and not before, unless there is no song. */
  lemma ListDelivered(prog: seq<seq<ClientPacket>>, keys: seq<Key>, es: seq<Event>, t: nat, c: nat, id: int32,
                      songs: seq<(Song, string)>)
    requires Configured(prog, keys) && Exec(Next, Init(prog, keys), es).Some?
    requires c !in Exec(Next, Init(prog, keys), es).value.expired
    requires 0 < t < |prog| && keys[t] == Key(c, FILELIST, id) && Alone(prog, keys, t)
    requires ListPackets(Views(prog[t]), id, songs)
    ensures var s := Exec(Next, Init(prog, keys), es).value;
            && |s.keys| == |s.prog| == |prog|
            && Decode(Received(s.wire, c)).Some?
            && (RecordsOf(RecordsIn(Filter(Tagged(FILELIST, id), Decode(Received(s.wire, c)).value)), songs)
                <==> Settled(s, t) || songs == [])
  {
    Reachable(prog, keys, es);
    var s := Exec(Next, Init(prog, keys), es).value;
    FramesAre(s, c);
    ArrivedIff(s, t);
    TaggedFramesPrefix(s, t);
    ListFaithful(Views(prog[t]), id, songs);
    var got := Filter(Tagged(FILELIST, id), Frames(s, c));
    if got != Views(prog[t]) {
      RecordsShorter(got, Views(prog[t]), id, songs);
    }
  }

  // ----- From the bytes received to the bytes sent

  /** A request whose packets all carry one key has that key. */
  lemma KeyIs(prog: seq<seq<ClientPacket>>, keys: seq<Key>, t: nat, k: Key)
    requires Configured(prog, keys) && 0 < t < |prog| && prog[t] != []
    requires forall cp :: cp in prog[t] ==> KeyOf(cp) == k
    ensures keys[t] == k
  {
    assert prog[t][0] in prog[t];
  }

  /** From the bytes received to the bytes sent: a message of type 2 and size 132 whose names end in a NUL. If the
      receive handler has answered it, and found an entry whose file can be opened, then that entry is the first with
      the names and the length in the message; and if the pipeline works off what the handler queued, a live client
      that uses the id of the message for no other song gets this file, in packets of type 4 with this id, from the
      moment the request is settled. */
  lemma {:induction false} TrackAnswered(h: AudioServerHandler, msg: seq<byte>, before: seq<ClientPacket>, now: seq<ClientPacket>,
                                         index: int, prog: seq<seq<ClientPacket>>, keys: seq<Key>, es: seq<Event>, t: nat,
                                         file: seq<byte>)
    requires |msg| == 1036 && GetInt(msg[0..4]) == 132 && GetInt(msg[8..12]) == 2 && 0 in msg[12..76] && 0 in msg[76..140]
    requires h.Answered(RequestOf(msg), before, now, index)
    requires h.mConQueue != null && 0 <= index < |h.fileList.mFileMap|
    requires h.FileAt(h.fileList.mFileMap[index].1) == Some(file) && WellFormed(file)
    requires Configured(prog, keys) && Exec(Next, Init(prog, keys), es).Some?
    requires 0 < t < |prog| && prog[t] == now[|before|..] && Alone(prog, keys, t)
    requires h.mClient !in Exec(Next, Init(prog, keys), es).value.expired
    ensures h.FirstSame(index, Song(msg[12..76], msg[76..140], GetInt(msg[140..144])))
    ensures var s, id := Exec(Next, Init(prog, keys), es).value, GetInt(msg[4..8]);
            && |s.keys| == |s.prog| == |prog|
            && Decode(Received(s.wire, h.mClient)).Some?
            && (Payloads(Filter(Tagged(4, id), Decode(Received(s.wire, h.mClient)).value)) == Streamed(file)
                <==> Settled(s, t))
  {
    var id := GetInt(msg[4..8]);
    RequestBytes(msg);
    FoundIsSame(index, h.fileList.mFileMap, RequestOf(msg).song);
    TrackIsRequest(before, now, h.mClient, id, file);
    KeyIs(prog, keys, t, Key(h.mClient, AUDIO, id));
    FileDelivered(prog, keys, es, t, h.mClient, id, file);
  }

  /** Likewise a message of type 8 brings the list, in packets of type 8 with the id of the message. */
  lemma {:induction false} ListAnswered(h: AudioServerHandler, msg: seq<byte>, before: seq<ClientPacket>, now: seq<ClientPacket>,
                                        index: int, prog: seq<seq<ClientPacket>>, keys: seq<Key>, es: seq<Event>, t: nat)
    requires |msg| == 1036 && 0 <= GetInt(msg[0..4]) <= 1024 && GetInt(msg[8..12]) == 8
    requires h.Answered(RequestOf(msg), before, now, index) && h.mConQueue != null
    requires Configured(prog, keys) && Exec(Next, Init(prog, keys), es).Some?
    requires 0 < t < |prog| && prog[t] == now[|before|..] && Alone(prog, keys, t)
    requires h.mClient !in Exec(Next, Init(prog, keys), es).value.expired
    ensures var s, id := Exec(Next, Init(prog, keys), es).value, GetInt(msg[4..8]);
            && |s.keys| == |s.prog| == |prog|
            && Decode(Received(s.wire, h.mClient)).Some?
            && (RecordsOf(RecordsIn(Filter(Tagged(8, id), Decode(Received(s.wire, h.mClient)).value)), h.fileList.mFileMap)
                <==> Settled(s, t) || h.fileList.mFileMap == [])
  {
    var id, songs := GetInt(msg[4..8]), h.fileList.mFileMap;
    RequestBytes(msg);
    ListIsRequest(before, now, h.mClient, id, songs);
    ListFaithful(Views(now[|before|..]), id, songs);
    KeyIs(prog, keys, t, Key(h.mClient, FILELIST, id));
    ListDelivered(prog, keys, es, t, h.mClient, id, songs);
  }
}
