/** The send pipeline: any number of requests pushing their packets, the monitor queue, and the one sendTask, all
    interleaved action by action, while clients may disappear and workers notify at any time. */
module Pipeline {
  import opened Seqs
  import opened Runs
  import opened Bytes
  import opened Packets
  import Monitor

  /** What tells the packets of one request from all others. */
  datatype Key = Key(client: nat, kind: int32, id: int32)

  function KeyOf(cp: ClientPacket): Key {
    Key(cp.client, cp.packet.kind, cp.packet.id)
  }

  /** Where sendTask is in its loop. */
  datatype Sender =
    | Top                        // about to pop
    | Popping                    // inside pop
    | Have(cp: ClientPacket)     // has popped, not yet looked at the packet
    | Holding(cp: ClientPacket)  // client.lock() succeeded, about to call BeginSend
    | Sent(client: nat)          // has called BeginSend, about to wait
    | Waiting(client: nat)       // inside wait on mSendCondition
    | Ready(client: nat)         // woken, about to leave the scope that keeps the client alive

  /** How a wait of sendTask on mSendCondition came to an end. */
  datatype Ending =
    | OwnCompletion       // a worker notified after the completion of the very send waited for
    | OtherNotification   // a worker notified after another completion, of whatever client
    | Unnotified          // a spurious wakeup

  /** Thread 0 is sendTask; every other thread works off one request. prog and keys never change; pushed (inside
      mon), decided, sent, wire, done, endings, notifies and spurious record what happened. */
  datatype State = State(
    mon: Monitor.State<ClientPacket>,
    prog: seq<seq<ClientPacket>>,     // what each request pushes
    keys: seq<Key>,                   // the client, type and id of each request
    todo: seq<seq<ClientPacket>>,     // what it has yet to push
    sender: Sender,
    expired: set<nat>,                // clients whose last shared_ptr is gone
    decided: seq<ClientPacket>,       // popped packets that were sent or dropped
    sent: seq<ClientPacket>,          // packets given to BeginSend
    wire: seq<(nat, seq<byte>)>,      // the buffers given to BeginSend
    done: set<nat>,                   // positions in sent whose completion a worker has dequeued
    endings: seq<Ending>,             // how the waits ended, in order
    notifies: nat,                    // calls of mSendCondition.notify_all
    spurious: nat)                    // spurious wakeups of sendTask

  datatype Event =
    | Act(t: nat)             // thread t performs its next action inside the queue
    | WakeSpuriously(t: nat)  // thread t wakes inside pop without a notification
    | StartPush(t: nat)       // request t calls push with its next packet
    | StartPop                // sendTask calls pop
    | Decide                  // sendTask tests the type and tries to lock the client
    | Send                    // sendTask calls BeginSend
    | Wait                    // sendTask starts to wait
    | Complete(k: nat)        // a worker dequeues the completion of the k-th send
    | Notify(cause: Option<nat>)  // a worker calls notify_all, after the completion of a send or after another
    | WakeSender              // sendTask wakes spuriously
    | Resume                  // sendTask goes back to the top of its loop
    | Expire(client: nat)     // the last reference to a client goes

  function Init(prog: seq<seq<ClientPacket>>, keys: seq<Key>): State {
    State(Monitor.Init(|prog|), prog, keys, prog, Top, {}, [], [], [], {}, [], 0, 0)
  }

  /** The bytes memcpy takes from the packet for BeginSend. */
  function Buffer(p: PacketValue): seq<byte> {
    if p.Valid() then p.Memory()[..HEADER_SIZE + p.size] else []
  }

  /** sendTask keeps this client alive. */
  predicate Keeps(sender: Sender, c: nat) {
    match sender
    case Holding(cp) => cp.client == c
    case Sent(client) => client == c
    case Waiting(client) => client == c
    case Ready(client) => client == c
    case _ => false
  }

  /** If sendTask is inside the wait, it wakes. */
  function EndWait(s: State, how: Ending): State {
    if s.sender.Waiting? then s.(sender := Ready(s.sender.client), endings := s.endings + [how]) else s
  }

  /** sendTask waits for the send it made last, so only that completion is its own. */
  function EndingFor(s: State, cause: Option<nat>): Ending {
    if cause.Some? && cause.value + 1 == |s.sent| then OwnCompletion else OtherNotification
  }

  function Next(s: State, e: Event): Option<State> {
    match e
    case Act(t) =>
      (match Monitor.Next(s.mon, Monitor.Run(t))
       case None => None
       case Some(m) =>
         Some(s.(mon := m, sender := if t == 0 && s.mon.pc[0].PopUnlock? then Have(s.mon.pc[0].result) else s.sender)))
    case WakeSpuriously(t) =>
      (match Monitor.Next(s.mon, Monitor.Spurious(t))
       case None => None
       case Some(m) => Some(s.(mon := m)))
    case StartPush(t) =>
      if 0 < t < |s.todo| && s.todo[t] != [] then
        match Monitor.Next(s.mon, Monitor.Call(t, Monitor.Push(s.todo[t][0])))
        case None => None
        case Some(m) => Some(s.(mon := m, todo := s.todo[t := s.todo[t][1..]]))
      else None
    case StartPop =>
      if s.sender.Top? then
        match Monitor.Next(s.mon, Monitor.Call(0, Monitor.Pop))
        case None => None
        case Some(m) => Some(s.(mon := m, sender := Popping))
      else None
    case Decide =>
      if s.sender.Have? then
        var cp := s.sender.cp;
        if cp.packet.kind == INVALID || cp.client in s.expired
        then Some(s.(sender := Top, decided := s.decided + [cp]))
        else Some(s.(sender := Holding(cp)))
      else None
    case Send =>
      if s.sender.Holding? then
        var cp := s.sender.cp;
        Some(s.(sender := Sent(cp.client), decided := s.decided + [cp], sent := s.sent + [cp],
                wire := s.wire + [(cp.client, Buffer(cp.packet))]))
      else None
    case Wait => if s.sender.Sent? then Some(s.(sender := Waiting(s.sender.client))) else None
    case Complete(k) => if k < |s.sent| && k !in s.done then Some(s.(done := s.done + {k})) else None
    case Notify(cause) =>
      if cause.Some? && cause.value !in s.done then None
      else Some(EndWait(s.(notifies := s.notifies + 1), EndingFor(s, cause)))
    case WakeSender => if s.sender.Waiting? then Some(EndWait(s.(spurious := s.spurious + 1), Unnotified)) else None
    case Resume => if s.sender.Ready? then Some(s.(sender := Top)) else None
    case Expire(c) => if Keeps(s.sender, c) then None else Some(s.(expired := s.expired + {c}))
  }

  /** Requests of well-formed packets, each for one client, of one type and with one id. */
  ghost predicate Configured(prog: seq<seq<ClientPacket>>, keys: seq<Key>) {
    && |prog| == |keys| > 0 && prog[0] == []
    && forall t, cp :: 0 < t < |prog| && cp in prog[t] ==> cp.packet.Valid() && KeyOf(cp) == keys[t]
  }

  /** No other request pushes packets for the same client, with the same type and id. */
  ghost predicate Alone(prog: seq<seq<ClientPacket>>, keys: seq<Key>, t: nat)
    requires t < |keys| == |prog|
  {
    forall u :: 0 < u < |keys| && u != t && keys[u] == keys[t] ==> prog[u] == []
  }

  // ----- Selections

  function ForClient(c: nat): ClientPacket -> bool {
    (cp: ClientPacket) => cp.client == c
  }

  /** Packets that sendTask would send to c. */
  function DueTo(c: nat): ClientPacket -> bool {
    (cp: ClientPacket) => cp.client == c && cp.packet.kind != INVALID
  }

  function HasKey(k: Key): ClientPacket -> bool {
    (cp: ClientPacket) => KeyOf(cp) == k
  }

  function Tagged(kind: int32, id: int32): Frame -> bool {
    (f: Frame) => f.kind == kind && f.id == id
  }

  function OnWireFor(c: nat): ((nat, seq<byte>)) -> bool {
    (w: (nat, seq<byte>)) => w.0 == c
  }

  function BytesOf(w: (nat, seq<byte>)): seq<byte> { w.1 }

  /** Everything BeginSend was given for client c. */
  function Received(wire: seq<(nat, seq<byte>)>, c: nat): seq<byte> {
    Flatten(Map(BytesOf, Filter(OnWireFor(c), wire)))
  }

  // ----- The queue's part of the invariant

  /** sendTask pops and everybody else pushes. */
  ghost predicate Roles(s: State) {
    && |s.mon.pc| == |s.prog| == |s.todo| && Configured(s.prog, s.keys)
    && (if s.sender.Popping? then Monitor.InPop(s.mon.pc[0]) else s.mon.pc[0].Idle?)
    && (forall t :: 0 < t < |s.mon.pc| ==> s.mon.pc[t].Idle? || Monitor.InPush(s.mon.pc[t]))
  }

  /** What request t has called push with and not yet inserted, and what it has yet to push. */
  function Held(mon: Monitor.State<ClientPacket>, todo: seq<seq<ClientPacket>>, t: nat): seq<ClientPacket>
    requires t < |mon.pc| && t < |todo|
  {
    Monitor.Offered(mon.pc[t]) + todo[t]
  }

  /** The packets with a key. */
  function WithKey(k: Key, cps: seq<ClientPacket>): seq<ClientPacket> {
    Filter(HasKey(k), cps)
  }

  /** What each request holds. */
  function Holdings(mon: Monitor.State<ClientPacket>, todo: seq<seq<ClientPacket>>): (h: seq<seq<ClientPacket>>)
    requires |mon.pc| == |todo|
    ensures |h| == |todo| && forall t :: 0 <= t < |todo| ==> h[t] == Held(mon, todo, t)
  {
    seq(|todo|, t requires 0 <= t < |todo| && |mon.pc| == |todo| => Held(mon, todo, t))
  }

  /** A request holds only packets of its own. */
  ghost predicate HoldsOwn(holds: seq<ClientPacket>, prog: seq<ClientPacket>, key: Key) {
    (forall cp :: cp in holds ==> cp.packet.Valid() && KeyOf(cp) == key) && (holds != [] ==> prog != [])
  }

  /** Every request holds only packets of its own, and a request alone with its key has inserted the beginning of its
      program and holds the rest. */
  ghost predicate Producers(pushed: seq<ClientPacket>, holds: seq<seq<ClientPacket>>,
                            prog: seq<seq<ClientPacket>>, keys: seq<Key>)
    requires |holds| == |prog| == |keys|
  {
    && (forall t :: 0 <= t < |prog| ==> HoldsOwn(holds[t], prog[t], keys[t]))
    && (forall t :: 0 < t < |prog| && Alone(prog, keys, t) ==> WithKey(keys[t], pushed) + holds[t] == prog[t])
    && (forall cp :: cp in pushed ==> cp.packet.Valid())
  }

  /** The packet sendTask has popped and not yet sent or dropped. */
  function Undecided(s: State): seq<ClientPacket> {
    match s.sender
    case Have(cp) => [cp]
    case Holding(cp) => [cp]
    case _ => []
  }

  /** A live client was sent everything due to it; an expired one, a prefix of it. */
  ghost predicate Delivered(s: State) {
    forall c: nat ::
      var got, due := Filter(ForClient(c), s.sent), Filter(DueTo(c), s.decided);
      if c in s.expired then got <= due else got == due
  }

  /** Every send but the one under way had its wait ended by a notification or a spurious wakeup, and if by that for
      its own completion, then it is complete. */
  ghost predicate Waits(s: State) {
    && |s.sent| == |s.endings| + (if s.sender.Sent? || s.sender.Waiting? then 1 else 0)
    && |s.endings| <= s.notifies + s.spurious
    && (forall k :: 0 <= k < |s.endings| && s.endings[k].OwnCompletion? ==> k in s.done)
    && (forall k :: k in s.done ==> k < |s.sent|)
  }

  /** Each packet sent went out as one buffer. */
  predicate Wired(s: State) {
    |s.wire| == |s.sent| && forall k :: 0 <= k < |s.sent| ==> s.wire[k] == (s.sent[k].client, Buffer(s.sent[k].packet))
  }

  ghost predicate Sending(s: State) {
    && Monitor.Results(s.mon) == s.decided + Undecided(s)
    && Delivered(s)
    && (forall c :: Keeps(s.sender, c) ==> c !in s.expired)
    && (s.sender.Holding? ==> s.sender.cp.packet.kind != INVALID)
    && Wired(s)
    && Waits(s)
  }

  ghost predicate Inv(s: State) {
    Monitor.Inv(s.mon) && Roles(s) && Producers(s.mon.pushed, Holdings(s.mon, s.todo), s.prog, s.keys) && Sending(s)
  }

  // ----- Preservation

  /** An action inside the queue inserts what its thread is about to insert, or nothing. */
  lemma ActKeepsProducers(s: State, mon: Monitor.State<ClientPacket>, t: nat)
    requires Roles(s) && Producers(s.mon.pushed, Holdings(s.mon, s.todo), s.prog, s.keys) && Monitor.Effect(s.mon, mon, t)
    ensures Producers(mon.pushed, Holdings(mon, s.todo), s.prog, s.keys)
  {
    HoldingsAfter(s.mon, mon, s.todo, t);
    if s.mon.pc[t].PushInsert? {
      InsertKeepsProducers(s.mon.pushed, Holdings(s.mon, s.todo), s.prog, s.keys, t, s.mon.pc[t].item, s.todo[t]);
    }
  }

  lemma HoldingsAfter(mon: Monitor.State<ClientPacket>, mon': Monitor.State<ClientPacket>, todo: seq<seq<ClientPacket>>, t: nat)
    requires Monitor.Effect(mon, mon', t) && |mon.pc| == |todo|
    ensures mon.pc[t].PushInsert? ==>
              && Holdings(mon, todo)[t] == [mon.pc[t].item] + todo[t]
              && mon'.pushed == mon.pushed + [mon.pc[t].item] && Holdings(mon', todo) == Holdings(mon, todo)[t := todo[t]]
    ensures !mon.pc[t].PushInsert? ==> mon'.pushed == mon.pushed && Holdings(mon', todo) == Holdings(mon, todo)
  {
    forall u | 0 <= u < |todo|
      ensures Held(mon', todo, u) == if u == t && mon.pc[t].PushInsert? then todo[t] else Held(mon, todo, u)
    {
    }
  }

  lemma InsertKeepsProducers(pushed: seq<ClientPacket>, holds: seq<seq<ClientPacket>>, prog: seq<seq<ClientPacket>>,
                             keys: seq<Key>, t: nat, x: ClientPacket, rest: seq<ClientPacket>)
    requires |holds| == |prog| == |keys| && 0 < t < |prog| && Producers(pushed, holds, prog, keys)
    requires holds[t] == [x] + rest
    ensures Producers(pushed + [x], holds[t := rest], prog, keys)
  {
    assert x in holds[t] && HoldsOwn(holds[t], prog[t], keys[t]);
    assert forall u :: 0 <= u < |prog| && u != t ==> holds[t := rest][u] == holds[u];
    forall u | 0 < u < |prog| && Alone(prog, keys, u)
      ensures WithKey(keys[u], pushed + [x]) + holds[t := rest][u] == prog[u]
    {
      assert u != t ==> keys[u] != keys[t];
      Inserted(keys[u], pushed, x, holds[t := rest][u]);
    }
  }

  /** An inserted packet joins the history of its key and of no other. */
  lemma Inserted(k: Key, pushed: seq<ClientPacket>, x: ClientPacket, rest: seq<ClientPacket>)
    ensures WithKey(k, pushed + [x]) + rest == WithKey(k, pushed) + if KeyOf(x) == k then [x] + rest else rest
  {
    FilterSnoc(HasKey(k), pushed, x);
  }

  lemma ActKeepsSending(s: State, s': State, t: nat)
    requires Roles(s) && Sending(s) && Monitor.Effect(s.mon, s'.mon, t)
    requires s' == s.(mon := s'.mon, sender := if t == 0 && s.mon.pc[0].PopUnlock? then Have(s.mon.pc[0].result) else s.sender)
    ensures Sending(s')
  {
    if s.mon.pc[t].PopUnlock? {
      assert t == 0;
      Monitor.ResultsSnoc(s.mon, (0, s.mon.pc[0].result));
    } else {
      assert s'.mon.returned == s.mon.returned;
    }
    assert Delivered(s');
  }

  lemma ActKeepsRoles(s: State, s': State, t: nat)
    requires Roles(s) && Monitor.Effect(s.mon, s'.mon, t)
    requires s' == s.(mon := s'.mon, sender := if t == 0 && s.mon.pc[0].PopUnlock? then Have(s.mon.pc[0].result) else s.sender)
    ensures Roles(s')
  {
  }

  /** Sending does not depend on what goes on inside the queue. */
  lemma SendingStays(s: State, s': State)
    requires Sending(s) && s'.mon.returned == s.mon.returned
    requires s' == s.(mon := s'.mon, todo := s'.todo, sender := s'.sender)
    requires s'.sender == s.sender || (s.sender.Top? && s'.sender.Popping?)
    ensures Sending(s')
  {
    assert Delivered(s');
  }

  lemma HoldingsStay(s: State, mon: Monitor.State<ClientPacket>, todo: seq<seq<ClientPacket>>)
    requires |s.mon.pc| == |s.todo| == |mon.pc| == |todo|
    requires forall u :: 0 <= u < |todo| ==> Held(mon, todo, u) == Held(s.mon, s.todo, u)
    ensures Holdings(mon, todo) == Holdings(s.mon, s.todo)
  {
  }

  lemma StartPushKeepsInv(s: State, s': State, t: nat)
    requires Inv(s) && Monitor.Inv(s'.mon) && 0 < t < |s.todo| && s.todo[t] != []
    requires Monitor.Called(s.mon, s'.mon, t, Monitor.Push(s.todo[t][0]))
    requires s' == s.(mon := s'.mon, todo := s.todo[t := s.todo[t][1..]])
    ensures Inv(s')
  {
    assert [s.todo[t][0]] + s.todo[t][1..] == [] + s.todo[t];
    forall u | 0 <= u < |s.todo|
      ensures Held(s'.mon, s'.todo, u) == Held(s.mon, s.todo, u)
    {
    }
    HoldingsStay(s, s'.mon, s'.todo);
    SendingStays(s, s');
  }

  lemma StartPopKeepsInv(s: State, s': State)
    requires Inv(s) && Monitor.Inv(s'.mon) && s.sender.Top?
    requires Monitor.Called(s.mon, s'.mon, 0, Monitor.Pop)
    requires s' == s.(mon := s'.mon, sender := Popping)
    ensures Inv(s')
  {
    HoldingsStay(s, s'.mon, s'.todo);
    SendingStays(s, s');
  }

  lemma WakeKeepsInv(s: State, s': State, t: nat)
    requires Inv(s) && Monitor.Inv(s'.mon) && t < |s.mon.pc| && s.mon.pc[t].Sleeping?
    requires s' == s.(mon := Monitor.Goto(s.mon, t, Monitor.Woken))
    ensures Inv(s')
  {
    HoldingsStay(s, s'.mon, s'.todo);
    SendingStays(s, s');
  }

  /** Outside the queue only what is sent and decided changes. */
  ghost predicate Outside(s: State, s': State) {
    s'.mon == s.mon && s'.todo == s.todo && s'.prog == s.prog && s'.keys == s.keys
    && (s'.sender.Popping? <==> s.sender.Popping?)
  }

  /** A packet that is not due to a live client may be dropped. */
  lemma {:induction false} DropKeepsSending(s: State, s': State, cp: ClientPacket)
    requires Sending(s) && s.sender == Have(cp) && (cp.packet.kind == INVALID || cp.client in s.expired)
    requires s' == s.(sender := Top, decided := s.decided + [cp])
    ensures Sending(s')
  {
    forall c: nat
      ensures var got, due := Filter(ForClient(c), s'.sent), Filter(DueTo(c), s'.decided);
              if c in s'.expired then got <= due else got == due
    {
      FilterSnoc(DueTo(c), s.decided, cp);
    }
  }

  lemma HoldKeepsSending(s: State, s': State, cp: ClientPacket)
    requires Sending(s) && s.sender == Have(cp) && cp.packet.kind != INVALID && cp.client !in s.expired
    requires s' == s.(sender := Holding(cp))
    ensures Sending(s')
  {
    assert Delivered(s');
  }

  /** A packet due to a live client is appended on both sides. */
  lemma SentIsDelivered(s: State, s': State, cp: ClientPacket)
    requires Delivered(s) && cp.client !in s.expired && cp.packet.kind != INVALID
    requires s'.sent == s.sent + [cp] && s'.decided == s.decided + [cp] && s'.expired == s.expired
    ensures Delivered(s')
  {
    forall c: nat
      ensures var got, due := Filter(ForClient(c), s'.sent), Filter(DueTo(c), s'.decided);
              if c in s'.expired then got <= due else got == due
    {
      FilterSnoc(DueTo(c), s.decided, cp);
      FilterSnoc(ForClient(c), s.sent, cp);
    }
  }

  lemma SendKeepsSending(s: State, s': State, cp: ClientPacket)
    requires Sending(s) && s.sender == Holding(cp)
    requires s' == s.(sender := Sent(cp.client), decided := s.decided + [cp], sent := s.sent + [cp],
                      wire := s.wire + [(cp.client, Buffer(cp.packet))])
    ensures Sending(s')
  {
    assert Keeps(s.sender, cp.client);
    SentIsDelivered(s, s', cp);
    assert s'.decided + Undecided(s') == s.decided + [cp];
    assert Wired(s');
  }

  lemma {:induction false} ActKeepsInv(s: State, t: nat)
    requires Inv(s) && Next(s, Act(t)).Some?
    ensures Inv(Next(s, Act(t)).value)
  {
    var s' := Next(s, Act(t)).value;
    Monitor.StepKeepsInv(s.mon, Monitor.Run(t));
    Monitor.ActEffect(s.mon, t);
    ActKeepsRoles(s, s', t);
    ActKeepsProducers(s, s'.mon, t);
    ActKeepsSending(s, s', t);
  }

  /** Waiting, waking and expiring move no packets. */
  ghost predicate MovesNothing(s: State, s': State) {
    && Waits(s')
    && s' == s.(sender := s'.sender, expired := s'.expired, done := s'.done, endings := s'.endings,
                notifies := s'.notifies, spurious := s'.spurious)
    && Undecided(s') == Undecided(s) && (s'.sender.Popping? <==> s.sender.Popping?)
    && (s'.sender.Holding? ==> s'.sender == s.sender)
    && s.expired <= s'.expired && forall c :: Keeps(s'.sender, c) ==> c !in s'.expired
  }

  lemma OtherKeepsSending(s: State, s': State)
    requires Sending(s) && MovesNothing(s, s')
    ensures Sending(s')
  {
    assert Delivered(s');
  }

  lemma OtherEvents(s: State, e: Event)
    requires Next(s, e).Some? && (e.Wait? || e.Complete? || e.Notify? || e.WakeSender? || e.Resume? || e.Expire?)
    requires Waits(s) && forall c :: Keeps(s.sender, c) ==> c !in s.expired
    ensures MovesNothing(s, Next(s, e).value)
  {
    var s' := Next(s, e).value;
    forall c | Keeps(s'.sender, c)
      ensures c !in s'.expired
    {
      assert Keeps(s.sender, c);
    }
  }

  lemma {:induction false} StepKeepsInv(s: State, e: Event)
    requires Inv(s) && Next(s, e).Some?
    ensures Inv(Next(s, e).value)
  {
    match e
    case Act(t) => ActKeepsInv(s, t);
    case StartPush(t) =>
      Monitor.StepKeepsInv(s.mon, Monitor.Call(t, Monitor.Push(s.todo[t][0])));
      StartPushKeepsInv(s, Next(s, e).value, t);
    case StartPop =>
      Monitor.StepKeepsInv(s.mon, Monitor.Call(0, Monitor.Pop));
      StartPopKeepsInv(s, Next(s, e).value);
    case WakeSpuriously(t) =>
      Monitor.StepKeepsInv(s.mon, Monitor.Spurious(t));
      WakeKeepsInv(s, Next(s, e).value, t);
    case _ =>
      OutsideKeepsSending(s, e);
      assert Outside(s, Next(s, e).value);
  }

  lemma OutsideKeepsSending(s: State, e: Event)
    requires Sending(s) && Next(s, e).Some?
    requires !e.Act? && !e.StartPush? && !e.StartPop? && !e.WakeSpuriously?
    ensures Sending(Next(s, e).value) && Outside(s, Next(s, e).value)
  {
    var s' := Next(s, e).value;
    match e
    case Decide =>
      var cp := s.sender.cp;
      if cp.packet.kind == INVALID || cp.client in s.expired {
        DropKeepsSending(s, s', cp);
      } else {
        HoldKeepsSending(s, s', cp);
      }
    case Send => SendKeepsSending(s, s', s.sender.cp);
    case _ =>
      OtherEvents(s, e);
      OtherKeepsSending(s, s');
  }

  lemma ConfigurationStays(s: State, e: Event)
    requires Next(s, e).Some?
    ensures Next(s, e).value.prog == s.prog && Next(s, e).value.keys == s.keys
  {
  }

  /** At first every request holds its whole program. */
  lemma AllHeld(prog: seq<seq<ClientPacket>>)
    ensures Holdings(Monitor.Init(|prog|), prog) == prog
  {
    forall t | 0 <= t < |prog|
      ensures Held(Monitor.Init(|prog|), prog, t) == prog[t]
    {
      assert [] + prog[t] == prog[t];
    }
  }

  lemma InitProducers(prog: seq<seq<ClientPacket>>, keys: seq<Key>)
    requires Configured(prog, keys)
    ensures Producers([], prog, prog, keys)
  {
    forall t | 0 < t < |prog|
      ensures WithKey(keys[t], []) + prog[t] == prog[t]
    {
      assert [] + prog[t] == prog[t];
    }
  }

  lemma InitInv(prog: seq<seq<ClientPacket>>, keys: seq<Key>)
    requires Configured(prog, keys)
    ensures Inv(Init(prog, keys))
  {
    AllHeld(prog);
    InitProducers(prog, keys);
    Monitor.InitInv<ClientPacket>(|prog|);
  }

  /** Every schedule of every set of requests keeps the invariant. */
  lemma {:induction false} Reachable(prog: seq<seq<ClientPacket>>, keys: seq<Key>, es: seq<Event>)
    requires Configured(prog, keys) && Exec(Next, Init(prog, keys), es).Some?
    ensures var s := Exec(Next, Init(prog, keys), es).value; Inv(s) && s.prog == prog && s.keys == keys
  {
    forall m: State, e: Event | Inv(m) && m.prog == prog && m.keys == keys && Next(m, e).Some?
      ensures Inv(Next(m, e).value) && Next(m, e).value.prog == prog && Next(m, e).value.keys == keys
    {
      StepKeepsInv(m, e);
      ConfigurationStays(m, e);
    }
    InitInv(prog, keys);
    Invariance(Next, m => Inv(m) && m.prog == prog && m.keys == keys, Init(prog, keys), es);
  }
}
