/** The shutdown protocol of a ClientManager: start, recvTask and sendTask around a flag and a sentinel packet, on the
    monitor queue, action by action, while anybody else pushes packets at any time. */
module Shutdown {
  import opened Seqs
  import opened Runs
  import opened Bytes
  import opened Packets
  import Monitor

  datatype Start =
    | StoreTrue | SpawnRecv | SpawnSend
    | JoinRecv      // waits for recvTask to return
    | PushSentinel  // about to call push
    | Pushing       // inside push
    | JoinSend      // waits for sendTask to return
    | Close         // closeClient stores false
    | Finished

  datatype Recv =
    | RecvUnborn
    | RecvLoop              // about to test mIsRunning
    | Reading               // inside the read of the socket
    | ReadThrew             // the read has thrown: about to store false
    | AfterRead(size: nat)  // about to test mIsRunning and the size
    | ReadNothing           // about to store false
    | RecvReturned

  datatype Sender =
    | SendUnborn
    | SendLoop              // about to test mIsRunning
    | Popping               // inside pop
    | HaveItem(kind: int32)
    | SocketSend            // inside the send of the socket
    | SendThrew             // about to store false
    | SendReturned

  /** Packets are told apart by their type only. Of the threads of the queue, 0 is sendTask, 1 is start, and all others
      push. popsSince counts the pops of sendTask that return after recvTask has; socket records what it was given to
      send. */
  datatype State = State(mon: Monitor.State<int32>, running: bool, start: Start, recv: Recv, sender: Sender, popsSince: nat,
                         socket: seq<int32>)

  datatype Event =
    | StartStep
    | RecvStep
    | ReadReturns(size: nat)
    | ReadThrows
    | SendStep(throws: bool)       // throws: the send of the socket throws
    | Act(t: nat)                  // thread t performs its next action inside the queue
    | WakeSpuriously(t: nat)
    | Push(t: nat, kind: int32)    // thread t calls push

  function Init(pushers: nat): State {
    State(Monitor.Init(2 + pushers), false, StoreTrue, RecvUnborn, SendUnborn, 0, [])
  }

  function StartNext(s: State): Option<State> {
    match s.start
    case StoreTrue => Some(s.(start := SpawnRecv, running := true))
    case SpawnRecv => Some(s.(start := SpawnSend, recv := RecvLoop))
    case SpawnSend => Some(s.(start := JoinRecv, sender := SendLoop))
    case JoinRecv => if s.recv.RecvReturned? then Some(s.(start := PushSentinel)) else None
    case PushSentinel =>
      (match Monitor.Next(s.mon, Monitor.Call(1, Monitor.Push(INVALID)))
       case None => None
       case Some(m) => Some(s.(start := Pushing, mon := m)))
    case Pushing => None
    case JoinSend => if s.sender.SendReturned? then Some(s.(start := Close)) else None
    case Close => Some(s.(start := Finished, running := false))
    case Finished => None
  }

  function RecvNext(s: State): Option<State> {
    match s.recv
    case RecvLoop => Some(s.(recv := if s.running then Reading else RecvReturned))
    case ReadThrew => Some(s.(running := false, recv := AfterRead(0)))
    case AfterRead(size) => Some(s.(recv := if size == 0 then ReadNothing else RecvLoop))
    case ReadNothing => Some(s.(running := false, recv := RecvLoop))
    case _ => None
  }

  function SendNext(s: State, throws: bool): Option<State> {
    match s.sender
    case SendLoop =>
      if !s.running then Some(s.(sender := SendReturned))
      else
        (match Monitor.Next(s.mon, Monitor.Call(0, Monitor.Pop))
         case None => None
         case Some(m) => Some(s.(sender := Popping, mon := m)))
    case HaveItem(kind) =>
      Some(if kind == INVALID then s.(sender := SendLoop) else s.(sender := SocketSend, socket := s.socket + [kind]))
    case SocketSend => Some(s.(sender := if throws then SendThrew else SendLoop))
    case SendThrew => Some(s.(running := false, sender := SendLoop))
    case _ => None
  }

  /** Thread t has acted inside the queue, which is now m; a call may have returned. */
  function Acted(s: State, m: Monitor.State<int32>, t: nat): State
    requires t < |s.mon.pc|
  {
    if t == 0 && s.mon.pc[0].PopUnlock? then
      s.(mon := m, sender := HaveItem(s.mon.pc[0].result), popsSince := s.popsSince + if s.recv.RecvReturned? then 1 else 0)
    else if t == 1 && s.mon.pc[1].PushNotify? then s.(mon := m, start := JoinSend)
    else s.(mon := m)
  }

  function Next(s: State, e: Event): Option<State> {
    match e
    case StartStep => StartNext(s)
    case RecvStep => RecvNext(s)
    case ReadReturns(size) => if s.recv.Reading? then Some(s.(recv := AfterRead(size))) else None
    case ReadThrows => if s.recv.Reading? then Some(s.(recv := ReadThrew)) else None
    case SendStep(throws) => SendNext(s, throws)
    case Act(t) =>
      (match Monitor.Next(s.mon, Monitor.Run(t))
       case None => None
       case Some(m) => Some(Acted(s, m, t)))
    case WakeSpuriously(t) =>
      (match Monitor.Next(s.mon, Monitor.Spurious(t))
       case None => None
       case Some(m) => Some(s.(mon := m)))
    case Push(t, kind) =>
      if t < 2 then None
      else
        (match Monitor.Next(s.mon, Monitor.Call(t, Monitor.Push(kind)))
         case None => None
         case Some(m) => Some(s.(mon := m)))
  }

  // ----- Invariant

  /** Where the threads are inside the queue. */
  ghost predicate Roles(s: State) {
    && |s.mon.pc| >= 2
    && (if s.sender.Popping? then Monitor.InPop(s.mon.pc[0]) else s.mon.pc[0].Idle?)
    && (if s.start.Pushing? then Monitor.InPush(s.mon.pc[1]) else s.mon.pc[1].Idle?)
    && (forall t :: 2 <= t < |s.mon.pc| ==> s.mon.pc[t].Idle? || Monitor.InPush(s.mon.pc[t]))
  }

  /** The sentinel is in the queue, or was. */
  predicate Guarded(s: State)
    requires |s.mon.pc| >= 2
  {
    s.start.JoinSend? || (s.start.Pushing? && Monitor.Owing(s.mon.pc[1]))
  }

  /** start is past the join of recvTask. */
  predicate Joined(p: Start) {
    p.PushSentinel? || p.Pushing? || p.JoinSend? || p.Close? || p.Finished?
  }

  ghost predicate Protocol(s: State)
    requires |s.mon.pc| >= 2
  {
    && (s.recv.RecvUnborn? <==> s.start.StoreTrue? || s.start.SpawnRecv?)
    && (s.sender.SendUnborn? <==> s.start.StoreTrue? || s.start.SpawnRecv? || s.start.SpawnSend?)
    && (Joined(s.start) ==> s.recv.RecvReturned?)
    && (s.start.Close? || s.start.Finished? ==> s.sender.SendReturned?)
    && (s.recv.RecvReturned? ==> !s.running)
    && (s.popsSince > 0 ==> s.recv.RecvReturned? && s.popsSince == 1 && !s.sender.Popping?)
    && (Guarded(s) && s.sender.Popping? && Monitor.WaitingToPop(s.mon.pc[0]) ==> s.mon.queue != [])
  }

  ghost predicate Inv(s: State) {
    Monitor.Inv(s.mon) && Roles(s) && Protocol(s)
  }

  lemma ActKeepsRoles(s: State, m: Monitor.State<int32>, t: nat)
    requires Roles(s) && Monitor.Effect(s.mon, m, t)
    ensures Roles(Acted(s, m, t))
  {
  }

  lemma ActKeepsProtocol(s: State, m: Monitor.State<int32>, t: nat)
    requires Roles(s) && Protocol(s) && Monitor.Inv(s.mon) && Monitor.Effect(s.mon, m, t)
    requires Monitor.Advance(s.mon, t) == Some(m)
    ensures Protocol(Acted(s, m, t))
  {
    Monitor.QueueEffect(s.mon, t);
    PoppingOnly(s, m, t);
  }

  /** Nobody returns to waiting for an item, and only sendTask removes one. */
  lemma PoppingOnly(s: State, m: Monitor.State<int32>, t: nat)
    requires Roles(s) && Monitor.Effect(s.mon, m, t) && Monitor.Advance(s.mon, t) == Some(m)
    ensures Monitor.WaitingToPop(m.pc[0]) ==> Monitor.WaitingToPop(s.mon.pc[0])
    ensures s.mon.pc[t].PopRemove? ==> t == 0 && !Monitor.WaitingToPop(m.pc[0])
    ensures Monitor.Owing(m.pc[1]) ==> Monitor.Owing(s.mon.pc[1]) || (t == 1 && s.mon.pc[1].PushInsert?)
  {
  }

  lemma ActKeepsInv(s: State, t: nat)
    requires Inv(s) && Next(s, Act(t)).Some?
    ensures Inv(Next(s, Act(t)).value)
  {
    var m := Monitor.Advance(s.mon, t).value;
    Monitor.StepKeepsInv(s.mon, Monitor.Run(t));
    Monitor.ActEffect(s.mon, t);
    ActKeepsRoles(s, m, t);
    ActKeepsProtocol(s, m, t);
  }

  /** A thread has called push or pop. */
  lemma CallKeepsInv(s: State, s': State, t: nat, op: Monitor.Op<int32>)
    requires Inv(s) && t < |s.mon.pc| && s.mon.pc[t].Idle? && s'.mon == Monitor.Goto(s.mon, t, Monitor.Entry(op))
    requires if t == 0 then op.Pop? && s.sender.SendLoop? && s.running && s' == s.(mon := s'.mon, sender := Popping)
             else op.Push? && s' == if t == 1 then s.(mon := s'.mon, start := Pushing) else s.(mon := s'.mon)
    requires t == 1 ==> s.start.PushSentinel?
    ensures Inv(s')
  {
    Monitor.StepKeepsInv(s.mon, Monitor.Call(t, op));
  }

  lemma WakeKeepsInv(s: State, t: nat)
    requires Inv(s) && t < |s.mon.pc| && s.mon.pc[t].Sleeping?
    ensures Inv(s.(mon := Monitor.Goto(s.mon, t, Monitor.Woken)))
  {
    Monitor.StepKeepsInv(s.mon, Monitor.Spurious(t));
  }

  /** Outside the queue. */
  lemma OutsideKeepsInv(s: State, e: Event)
    requires Roles(s) && Protocol(s) && Next(s, e).Some? && Next(s, e).value.mon == s.mon
    requires e.StartStep? || e.RecvStep? || e.ReadReturns? || e.ReadThrows? || e.SendStep?
    ensures Roles(Next(s, e).value) && Protocol(Next(s, e).value)
  {
  }

  lemma {:induction false} StepKeepsInv(s: State, e: Event)
    requires Inv(s) && Next(s, e).Some?
    ensures Inv(Next(s, e).value)
  {
    if e.Act? {
      ActKeepsInv(s, e.t);
    } else if e.WakeSpuriously? {
      WakeKeepsInv(s, e.t);
    } else if e.Push? {
      CallKeepsInv(s, Next(s, e).value, e.t, Monitor.Push(e.kind));
    } else if e.StartStep? && s.start.PushSentinel? {
      CallKeepsInv(s, Next(s, e).value, 1, Monitor.Push(INVALID));
    } else if e.SendStep? && s.sender.SendLoop? && s.running {
      CallKeepsInv(s, Next(s, e).value, 0, Monitor.Pop);
    } else {
      OutsideKeepsInv(s, e);
    }
  }

  lemma ThreadsStay(s: State, e: Event)
    requires Next(s, e).Some?
    ensures |Next(s, e).value.mon.pc| == |s.mon.pc|
  {
  }

  lemma InitInv(pushers: nat)
    ensures Inv(Init(pushers))
  {
    Monitor.InitInv<int32>(2 + pushers);
  }

  lemma {:induction false} Reachable(pushers: nat, es: seq<Event>)
    requires Exec(Next, Init(pushers), es).Some?
    ensures Inv(Exec(Next, Init(pushers), es).value) && |Exec(Next, Init(pushers), es).value.mon.pc| == 2 + pushers
  {
    forall m: State, e: Event | Inv(m) && |m.mon.pc| == 2 + pushers && Next(m, e).Some?
      ensures Inv(Next(m, e).value) && |Next(m, e).value.mon.pc| == 2 + pushers
    {
      StepKeepsInv(m, e);
      ThreadsStay(m, e);
    }
    InitInv(pushers);
    Invariance(Next, m => Inv(m) && |m.mon.pc| == 2 + pushers, Init(pushers), es);
  }

  /** Once recvTask has returned, sendTask pops at most once more, in every interleaving. */
  lemma OneMorePop(pushers: nat, es: seq<Event>)
    requires Exec(Next, Init(pushers), es).Some?
    ensures Exec(Next, Init(pushers), es).value.popsSince <= 1
  {
    Reachable(pushers, es);
  }

  predicate Stopped(s: State) {
    !s.start.StoreTrue? && !s.running
  }

  /** Once false, mIsRunning never becomes true again. */
  lemma NeverRunsAgain(pushers: nat, es: seq<Event>, more: seq<Event>)
    requires Exec(Next, Init(pushers), es).Some? && Stopped(Exec(Next, Init(pushers), es).value)
    requires Exec(Next, Exec(Next, Init(pushers), es).value, more).Some?
    ensures !Exec(Next, Exec(Next, Init(pushers), es).value, more).value.running
  {
    Invariance(Next, Stopped, Exec(Next, Init(pushers), es).value, more);
  }

  // ----- What is sent, and while all is well

  predicate NotInvalid(kind: int32) { kind != 0 }

  /** What sendTask has popped and not yet looked at, if it is to be sent. */
  function Unsent(sender: Sender): seq<int32> {
    if sender.HaveItem? && sender.kind != 0 then [sender.kind] else []
  }

  /** The socket was given what was popped, but for INVALID packets. */
  predicate Sending(returned: seq<(nat, int32)>, socket: seq<int32>, sender: Sender) {
    Filter(NotInvalid, Map(Monitor.Second, returned)) == socket + Unsent(sender)
  }

  /** start has inserted the sentinel. */
  predicate PastPush(start: Start, c: Monitor.Pc<int32>) {
    start.JoinSend? || (start.Pushing? && Monitor.Owing(c)) || start.Close? || start.Finished?
  }

  /** start pushes INVALID and nothing else, and has done so when it waits for sendTask. */
  ghost predicate Sentinel(start: Start, c: Monitor.Pc<int32>, pushed: seq<int32>) {
    (forall kind :: kind in Monitor.Offered(c) ==> kind == 0) && (PastPush(start, c) ==> 0 in pushed)
  }

  ghost predicate Sends(s: State)
    requires |s.mon.pc| >= 2
  {
    Sending(s.mon.returned, s.socket, s.sender) && Sentinel(s.start, s.mon.pc[1], s.mon.pushed)
  }

  lemma ActKeepsSentinel(s: State, m: Monitor.State<int32>, t: nat)
    requires Roles(s) && Sentinel(s.start, s.mon.pc[1], s.mon.pushed) && Monitor.Effect(s.mon, m, t)
    requires Monitor.Advance(s.mon, t) == Some(m)
    ensures Sentinel(Acted(s, m, t).start, m.pc[1], m.pushed)
  {
    PoppingOnly(s, m, t);
    assert s.mon.pushed <= m.pushed;
    assert forall kind :: kind in s.mon.pushed ==> kind in m.pushed;
    if t == 1 && s.mon.pc[1].PushInsert? {
      assert s.mon.pc[1].item in Monitor.Offered(s.mon.pc[1]);
      assert m.pushed[|s.mon.pushed|] == 0;
    }
  }

  lemma ActKeepsSending(s: State, m: Monitor.State<int32>, t: nat)
    requires Roles(s) && Sending(s.mon.returned, s.socket, s.sender) && Monitor.Effect(s.mon, m, t)
    ensures Sending(m.returned, s.socket, Acted(s, m, t).sender)
  {
    if s.mon.pc[t].PopUnlock? {
      PopKeepsSending(s.mon.returned, s.socket, s.sender, t, s.mon.pc[t].result);
    } else {
      assert m.returned == s.mon.returned;
    }
  }

  lemma PopKeepsSending(returned: seq<(nat, int32)>, socket: seq<int32>, sender: Sender, t: nat, x: int32)
    requires Sending(returned, socket, sender) && !sender.HaveItem?
    ensures Sending(returned + [(t, x)], socket, HaveItem(x))
  {
    MapSnoc(Monitor.Second, returned, (t, x));
    FilterSnoc(NotInvalid, Map(Monitor.Second, returned), x);
    AppendNothing(socket);
  }

  /** Outside the queue sendTask gives the socket what it holds. */
  lemma SenderTouches(s: State, throws: bool)
    requires SendNext(s, throws).Some?
    ensures var s' := SendNext(s, throws).value;
            && s'.mon.returned == s.mon.returned
            && (Unsent(s.sender) != [] ==> s'.socket == s.socket + Unsent(s.sender) && Unsent(s'.sender) == [])
            && (Unsent(s.sender) == [] ==> s'.socket == s.socket && Unsent(s'.sender) == [])
  {
  }

  lemma SenderKeepsSending(s: State, throws: bool)
    requires Sending(s.mon.returned, s.socket, s.sender) && SendNext(s, throws).Some?
    ensures var s' := SendNext(s, throws).value; Sending(s'.mon.returned, s'.socket, s'.sender)
  {
    SenderTouches(s, throws);
    AppendNothing(s.socket);
    AppendNothing(s.socket + Unsent(s.sender));
  }

  /** The others leave it alone. */
  lemma OthersTouch(s: State, e: Event)
    requires |s.mon.pc| >= 2 && Protocol(s) && Next(s, e).Some? && !e.Act? && !e.SendStep?
    ensures var s' := Next(s, e).value;
            s'.mon.returned == s.mon.returned && s'.socket == s.socket && Unsent(s'.sender) == Unsent(s.sender)
  {
  }

  lemma OthersKeepSending(s: State, e: Event)
    requires |s.mon.pc| >= 2 && Protocol(s) && Next(s, e).Some? && !e.Act?
    requires Sending(s.mon.returned, s.socket, s.sender)
    ensures var s' := Next(s, e).value; Sending(s'.mon.returned, s'.socket, s'.sender)
  {
    if e.SendStep? {
      SenderKeepsSending(s, e.throws);
    } else {
      OthersTouch(s, e);
    }
  }

  /** And start calls push with INVALID. */
  lemma OthersKeepSentinel(s: State, e: Event)
    requires Roles(s) && Sentinel(s.start, s.mon.pc[1], s.mon.pushed) && Next(s, e).Some? && !e.Act?
    ensures var s' := Next(s, e).value; |s'.mon.pc| >= 2 && Sentinel(s'.start, s'.mon.pc[1], s'.mon.pushed)
  {
  }

  lemma StepKeepsSends(s: State, e: Event)
    requires Inv(s) && Sends(s) && Next(s, e).Some?
    ensures Inv(Next(s, e).value) && Sends(Next(s, e).value)
  {
    StepKeepsInv(s, e);
    if e.Act? {
      var m := Monitor.Advance(s.mon, e.t).value;
      Monitor.ActEffect(s.mon, e.t);
      ActKeepsSending(s, m, e.t);
      ActKeepsSentinel(s, m, e.t);
    } else {
      OthersKeepSending(s, e);
      OthersKeepSentinel(s, e);
    }
  }

  lemma {:induction false} SendingReachable(pushers: nat, es: seq<Event>)
    requires Exec(Next, Init(pushers), es).Some?
    ensures Inv(Exec(Next, Init(pushers), es).value) && Sends(Exec(Next, Init(pushers), es).value)
  {
    forall m: State, e: Event | Inv(m) && Sends(m) && Next(m, e).Some?
      ensures Inv(Next(m, e).value) && Sends(Next(m, e).value)
    {
      StepKeepsSends(m, e);
    }
    InitInv(pushers);
    Invariance(Next, m => Inv(m) && Sends(m), Init(pushers), es);
  }

  /** The socket is given the packets popped, in order, but for those of type 0, and these are a beginning of the packets
      pushed. The sentinel has type 0, so it is not sent; and it has been pushed when start waits for sendTask. */
  lemma {:induction false} SocketGets(pushers: nat, es: seq<Event>)
    requires Exec(Next, Init(pushers), es).Some?
    ensures var s := Exec(Next, Init(pushers), es).value;
            && s.socket <= Filter(NotInvalid, s.mon.pushed) && 0 !in s.socket
            && (!s.sender.HaveItem? ==> s.socket == Filter(NotInvalid, Monitor.Results(s.mon)))
            && (s.start.JoinSend? || s.start.Close? || s.start.Finished? ==> 0 in s.mon.pushed)
  {
    SendingReachable(pushers, es);
    var s := Exec(Next, Init(pushers), es).value;
    FilterPrefix(NotInvalid, Monitor.Results(s.mon), s.mon.pushed);
    FilterMember(NotInvalid, Monitor.Results(s.mon), 0);
    assert !s.sender.HaveItem? ==> s.socket + [] == s.socket;
  }

  /** No read throws or returns nothing, and no send throws. */
  predicate Untroubled(e: Event) {
    !e.ReadThrows? && e != ReadReturns(0) && e != SendStep(true)
  }

  predicate AllWell(s: State) {
    if s.start.StoreTrue? then s.recv.RecvUnborn? && s.sender.SendUnborn?
    else && s.running && (s.start.SpawnRecv? || s.start.SpawnSend? || s.start.JoinRecv?)
         && !s.recv.ReadThrew? && !s.recv.ReadNothing? && !s.recv.RecvReturned? && (s.recv.AfterRead? ==> s.recv.size > 0)
         && !s.sender.SendThrew? && !s.sender.SendReturned?
  }

  /** While no read fails or ends and no send fails, mIsRunning stays true from its first store on, and recvTask and
      sendTask go on. */
  lemma {:induction false} RunsWhileAllIsWell(pushers: nat, es: seq<Event>)
    requires Exec(Next, Init(pushers), es).Some? && forall e :: e in es ==> Untroubled(e)
    ensures var s := Exec(Next, Init(pushers), es).value;
            !s.start.StoreTrue? ==> s.running && !s.recv.RecvReturned? && !s.sender.SendReturned?
  {
    forall m: State, e: Event | Inv(m) && AllWell(m) && Untroubled(e) && Next(m, e).Some?
      ensures Inv(Next(m, e).value) && AllWell(Next(m, e).value)
    {
      StepKeepsInv(m, e);
      StaysWell(m, e);
    }
    InitInv(pushers);
    InvarianceUnder(Next, m => Inv(m) && AllWell(m), Untroubled, Init(pushers), es);
  }

  lemma StaysWell(s: State, e: Event)
    requires |s.mon.pc| >= 2 && Roles(s) && AllWell(s) && Untroubled(e) && Next(s, e).Some?
    ensures AllWell(Next(s, e).value)
  {
  }

  /** start sets both tasks to work: recvTask reads, and sendTask is inside pop. */
  lemma {:induction false} StartsUp(pushers: nat)
    ensures var q := Exec(Next, Init(pushers), [StartStep, StartStep, StartStep] + [RecvStep, SendStep(false)]);
            q.Some? && q.value.running && q.value.recv.Reading? && q.value.sender.Popping? && q.value.start.JoinRecv?
  {
    var s := Init(pushers);
    var stored := s.(start := SpawnRecv, running := true);
    var one := stored.(start := SpawnSend, recv := RecvLoop);
    var two := one.(start := JoinRecv, sender := SendLoop);
    ThreeEvents(Next, s, StartStep, stored, StartStep, one, StartStep, two);
    var reading := two.(recv := Reading);
    TwoEvents(Next, two, RecvStep, reading, SendStep(false), Next(reading, SendStep(false)).value);
    ExecConcat(Next, s, [StartStep, StartStep, StartStep], [RecvStep, SendStep(false)]);
  }

  // ----- The end of start and sendTask

  /** Actions start still performs once recvTask has returned. */
  function StartLeft(p: Start, c: Monitor.Pc<int32>): nat {
    match p
    case StoreTrue => 11
    case SpawnRecv => 10
    case SpawnSend => 9
    case JoinRecv => 8
    case PushSentinel => 7
    case Pushing => 2 + Monitor.Weight(c)
    case JoinSend => 2
    case Close => 1
    case Finished => 0
  }

  /** Actions of pop before it returns, but for those that notifications cause: beside an empty queue it may test and
      sleep again. */
  function PopLeft(c: Monitor.Pc<int32>, empty: bool): nat {
    match c
    case PopLock => if empty then 8 else 5
    case Woken => if empty then 8 else 5
    case PopTest => if empty then 7 else 4
    case PopWait => 6
    case Sleeping => 5
    case PopFront => 3
    case PopRemove(_) => 2
    case PopUnlock(_) => 1
    case _ => 0
  }

  function Notices(c: Monitor.Pc<int32>): nat {
    if Monitor.Owing(c) then 1 else 0
  }

  const RETRY := 3

  /** The actions of pop, and those that notifications still owed may cause while the queue is empty. */
  function PopWork(mon: Monitor.State<int32>): nat
    requires mon.pc != []
  {
    PopLeft(mon.pc[0], mon.queue == [])
    + if mon.queue == [] && Monitor.WaitingToPop(mon.pc[0]) then RETRY * Sum(Notices, mon.pc) else 0
  }

  function SendLeft(p: Sender, mon: Monitor.State<int32>): nat
    requires mon.pc != []
  {
    match p
    case SendUnborn => 1
    case Popping => 4 + PopWork(mon)
    case HaveItem(_) => 4
    case SocketSend => 3
    case SendThrew => 2
    case SendLoop => 1
    case SendReturned => 0
  }

  function Measure(s: State): nat {
    if |s.mon.pc| < 2 then 0 else StartLeft(s.start, s.mon.pc[1]) + SendLeft(s.sender, s.mon)
  }

  /** The actions of start and sendTask. */
  predicate Own(e: Event) {
    e.StartStep? || e.SendStep? || e == Act(0) || e == Act(1)
  }

  predicate IsWake(e: Event) {
    e.WakeSpuriously?
  }

  /** An action of sendTask inside pop. */
  lemma PopperActs(mon: Monitor.State<int32>, m: Monitor.State<int32>)
    requires Monitor.Inv(mon) && mon.pc != [] && Monitor.InPop(mon.pc[0]) && !mon.pc[0].PopUnlock?
    requires Monitor.Advance(mon, 0) == Some(m)
    ensures m.pc != [] && PopWork(m) < PopWork(mon)
  {
    PopperMoves(mon, m);
    SumUpdate(Notices, mon.pc, 0, m.pc[0]);
  }

  /** It comes nearer to the end of pop, or to sleep beside an empty queue. */
  lemma PopperMoves(mon: Monitor.State<int32>, m: Monitor.State<int32>)
    requires Monitor.Inv(mon) && mon.pc != [] && Monitor.InPop(mon.pc[0]) && !mon.pc[0].PopUnlock?
    requires Monitor.Advance(mon, 0) == Some(m)
    ensures m.pc != [] && m.pc == mon.pc[0 := m.pc[0]] && Notices(m.pc[0]) == Notices(mon.pc[0]) == 0
    ensures PopLeft(m.pc[0], m.queue == []) < PopLeft(mon.pc[0], mon.queue == [])
    ensures Monitor.WaitingToPop(m.pc[0]) ==> Monitor.WaitingToPop(mon.pc[0]) && m.queue == mon.queue
  {
    assert Monitor.Local(mon.queue, mon.pc[0]);
  }

  /** An action of a pusher, while sendTask is inside pop. */
  lemma PusherActs(mon: Monitor.State<int32>, m: Monitor.State<int32>, t: nat)
    requires 0 < t < |mon.pc| && Monitor.InPush(mon.pc[t]) && Monitor.Advance(mon, t) == Some(m)
    ensures m.pc != [] && PopWork(m) <= PopWork(mon)
  {
    if mon.pc[t].PushNotify? {
      SumUpdate(Notices, mon.pc, t, Monitor.Idle);
      Monitor.WakeKeeps(Notices, mon.pc[t := Monitor.Idle]);
    } else {
      SumUpdate(Notices, mon.pc, t, m.pc[t]);
    }
  }

  lemma SenderActLowers(s: State)
    requires Inv(s) && Next(s, Act(0)).Some?
    ensures Measure(Next(s, Act(0)).value) + 1 <= Measure(s)
  {
    var m := Monitor.Advance(s.mon, 0).value;
    Monitor.ActEffect(s.mon, 0);
    if !s.mon.pc[0].PopUnlock? {
      PopperActs(s.mon, m);
    }
  }

  lemma StartActLowers(s: State)
    requires Inv(s) && Next(s, Act(1)).Some?
    ensures Measure(Next(s, Act(1)).value) + 1 <= Measure(s)
  {
    var m := Monitor.Advance(s.mon, 1).value;
    Monitor.ActEffect(s.mon, 1);
    PusherActs(s.mon, m, 1);
    PushAdvances(s.mon, m);
  }

  lemma OtherActLowers(s: State, t: nat)
    requires Inv(s) && Next(s, Act(t)).Some? && t >= 2
    ensures Measure(Next(s, Act(t)).value) <= Measure(s)
  {
    var m := Monitor.Advance(s.mon, t).value;
    Monitor.ActEffect(s.mon, t);
    PusherActs(s.mon, m, t);
  }

  lemma ActLowers(s: State, t: nat)
    requires Inv(s) && Next(s, Act(t)).Some?
    ensures Measure(Next(s, Act(t)).value) + (if t < 2 then 1 else 0) <= Measure(s)
  {
    if t == 0 {
      SenderActLowers(s);
    } else if t == 1 {
      StartActLowers(s);
    } else {
      OtherActLowers(s, t);
    }
  }

  lemma PushAdvances(mon: Monitor.State<int32>, m: Monitor.State<int32>)
    requires 1 < |mon.pc| && Monitor.InPush(mon.pc[1]) && Monitor.Advance(mon, 1) == Some(m)
    ensures |m.pc| == |mon.pc| && Monitor.Weight(m.pc[1]) < Monitor.Weight(mon.pc[1])
  {
  }

  /** A call or a spurious wakeup; nobody sleeps but sendTask. */
  lemma CallLowers(s: State, s': State, t: nat, c: Monitor.Pc<int32>)
    requires Roles(s) && t < |s.mon.pc| && s'.mon == Monitor.Goto(s.mon, t, c)
    requires if t == 0 then s.mon.pc[0].Sleeping? && c.Woken? else s.mon.pc[t].Idle? && c.PushLock?
    requires s' == if t == 1 then s.(mon := s'.mon, start := Pushing) else s.(mon := s'.mon)
    requires t == 1 ==> s.start.PushSentinel?
    ensures Measure(s') + (if t == 1 then 1 else 0) <= Measure(s) + if t == 0 then RETRY else 0
  {
    SumUpdate(Notices, s.mon.pc, t, c);
  }

  ghost predicate Down(s: State) {
    Inv(s) && s.recv.RecvReturned?
  }

  lemma OutsideLowers(s: State, e: Event)
    requires Roles(s) && Protocol(s) && s.recv.RecvReturned? && Next(s, e).Some? && Next(s, e).value.mon == s.mon
    requires e.StartStep? || e.RecvStep? || e.ReadReturns? || e.ReadThrows? || e.SendStep?
    ensures Measure(Next(s, e).value) + (if Own(e) then 1 else 0) <= Measure(s)
  {
  }

  lemma StepLowers(s: State, e: Event)
    requires Inv(s) && s.recv.RecvReturned? && Next(s, e).Some?
    ensures Measure(Next(s, e).value) + (if Own(e) then 1 else 0) <= Measure(s) + if IsWake(e) then RETRY else 0
  {
    if e.Act? {
      ActLowers(s, e.t);
    } else if e.WakeSpuriously? {
      CallLowers(s, Next(s, e).value, e.t, Monitor.Woken);
    } else if e.Push? {
      CallLowers(s, Next(s, e).value, e.t, Monitor.PushLock(e.kind));
    } else if e.StartStep? && s.start.PushSentinel? {
      CallLowers(s, Next(s, e).value, 1, Monitor.PushLock(INVALID));
    } else {
      OutsideLowers(s, e);
    }
  }

  lemma StaysReturned(s: State, e: Event)
    requires |s.mon.pc| >= 2 && Protocol(s) && s.recv.RecvReturned? && Next(s, e).Some?
    ensures Next(s, e).value.recv.RecvReturned?
  {
  }

  lemma DownStep(s: State, e: Event)
    requires Down(s) && Next(s, e).Some?
    ensures Down(Next(s, e).value)
    ensures Measure(Next(s, e).value) + (if Own(e) then 1 else 0) <= Measure(s) + if IsWake(e) then RETRY else 0
  {
    StepKeepsInv(s, e);
    StaysReturned(s, e);
    StepLowers(s, e);
  }

  lemma MeasureBound(s: State)
    requires Inv(s) && s.recv.RecvReturned?
    ensures Measure(s) <= 21 + RETRY * |s.mon.pc|
  {
    SumBound(Notices, s.mon.pc, 1);
  }

  /** start and sendTask can do nothing. */
  predicate Blocked(s: State)
    requires |s.mon.pc| >= 2
  {
    StartNext(s).None? && SendNext(s, false).None? && SendNext(s, true).None?
    && Monitor.Advance(s.mon, 0).None? && Monitor.Advance(s.mon, 1).None?
  }

  /** Somebody else is inside push, and can go on. */
  ghost predicate PusherCanAct(s: State) {
    exists t :: 2 <= t < |s.mon.pc| && Monitor.InPush(s.mon.pc[t]) && Monitor.Advance(s.mon, t).Some?
  }

  /** A thread that is kept from the mutex is kept by one that can act. */
  lemma MutexHeld(s: State, u: nat)
    requires Inv(s) && Blocked(s) && u < 2 && Monitor.Acquiring(s.mon.pc[u])
    ensures PusherCanAct(s)
  {
    var t := s.mon.owner.value;
    assert Monitor.Critical(s.mon.pc[t]);
    assert Monitor.Advance(s.mon, t).Some?;
  }

  /** A sendTask that sleeps beside the sentinel will be notified. */
  lemma SleeperNotified(s: State)
    requires Inv(s) && Blocked(s) && s.mon.pc[0].Sleeping? && s.mon.queue != [] && !s.start.Pushing?
    ensures PusherCanAct(s)
  {
    var p :| 0 <= p < |s.mon.pc| && Monitor.Owing(s.mon.pc[p]);
    assert Monitor.Advance(s.mon, p).Some?;
  }

  lemma BlockedMeansDone(s: State)
    requires Down(s) && Blocked(s)
    ensures (s.start.Finished? && s.sender.SendReturned?) || PusherCanAct(s)
  {
    if s.start.Pushing? {
      MutexHeld(s, 1);
    } else if s.start.JoinSend? {
      if s.mon.pc[0].Sleeping? {
        SleeperNotified(s);
      } else {
        MutexHeld(s, 0);
      }
    }
  }

  /** Whenever recvTask has returned, shutdown terminates, whatever anybody pushes meanwhile: from then on start and
      sendTask perform a bounded number of actions, locks and wakeups included, and three more for each spurious
      wakeup; and they can act until both have returned, unless somebody inside push can. */
  lemma {:induction false} ShutdownTerminates(pushers: nat, es: seq<Event>, more: seq<Event>)
    requires Exec(Next, Init(pushers), es).Some? && Exec(Next, Init(pushers), es).value.recv.RecvReturned?
    requires Exec(Next, Exec(Next, Init(pushers), es).value, more).Some?
    ensures |Filter(Own, more)| <= 21 + RETRY * (2 + pushers) + RETRY * |Filter(IsWake, more)|
    ensures var q := Exec(Next, Exec(Next, Init(pushers), es).value, more).value;
            && !q.running && |q.mon.pc| >= 2
            && (q.start.Finished? ==> q.sender.SendReturned?)
            && (Blocked(q) ==> (q.start.Finished? && q.sender.SendReturned?) || PusherCanAct(q))
  {
    Reachable(pushers, es);
    var s := Exec(Next, Init(pushers), es).value;
    forall m: State, e: Event | Down(m) && Next(m, e).Some?
      ensures Down(Next(m, e).value)
              && Measure(Next(m, e).value) + (if Own(e) then 1 else 0) <= Measure(m) + if IsWake(e) then RETRY else 0
    {
      DownStep(m, e);
    }
    BoundedBy(Next, m => Down(m), (e: Event) => true, Own, IsWake, RETRY, Measure, s, more);
    MeasureBound(s);
    var q := Exec(Next, s, more).value;
    if Blocked(q) {
      BlockedMeansDone(q);
    }
  }

  // ----- The end of recvTask

  /** recvTask has seen a read fail or end, and will not read again. */
  predicate Ending(s: State) {
    && !s.start.StoreTrue?
    && match s.recv
       case ReadThrew => true
       case AfterRead(size) => size == 0
       case ReadNothing => true
       case RecvLoop => !s.running
       case RecvReturned => true
       case _ => false
  }

  function RecvLeft(p: Recv): nat {
    match p
    case ReadThrew => 4
    case AfterRead(_) => 3
    case ReadNothing => 2
    case RecvLoop => 1
    case _ => 0
  }

  predicate IsRecvStep(e: Event) {
    e.RecvStep?
  }

  /** Only recvTask itself moves on. */
  lemma EndingStep(s: State, e: Event)
    requires |s.mon.pc| >= 2 && Protocol(s) && Ending(s) && Next(s, e).Some?
    ensures var s' := Next(s, e).value;
            Ending(s') && RecvLeft(s'.recv) + (if IsRecvStep(e) then 1 else 0) <= RecvLeft(s.recv)
  {
  }

  /** After a read that throws or returns no bytes, recvTask returns: in every interleaving it performs at most four
      more actions, none of them a read, and it can act until it has returned. */
  lemma EmptyReadEnds(pushers: nat, es: seq<Event>, read: Event, more: seq<Event>)
    requires Exec(Next, Init(pushers), es).Some? && Exec(Next, Init(pushers), es).value.recv.Reading?
    requires read in {ReadThrows, ReadReturns(0)}
    requires Exec(Next, Next(Exec(Next, Init(pushers), es).value, read).value, more).Some?
    ensures |Filter(IsRecvStep, more)| <= 4
    ensures var q := Exec(Next, Next(Exec(Next, Init(pushers), es).value, read).value, more).value;
            !q.recv.Reading? && (RecvNext(q).None? ==> q.recv.RecvReturned? && !q.running)
  {
    Reachable(pushers, es);
    StepKeepsInv(Exec(Next, Init(pushers), es).value, read);
    RecvEnds(Next(Exec(Next, Init(pushers), es).value, read).value, more);
  }

  lemma RecvEnds(s: State, more: seq<Event>)
    requires Inv(s) && Ending(s) && Exec(Next, s, more).Some?
    ensures |Filter(IsRecvStep, more)| <= RecvLeft(s.recv) && Inv(Exec(Next, s, more).value) && Ending(Exec(Next, s, more).value)
  {
    forall m: State, e: Event | Inv(m) && Ending(m) && Next(m, e).Some?
      ensures Inv(Next(m, e).value) && Ending(Next(m, e).value)
              && RecvLeft(Next(m, e).value.recv) + (if IsRecvStep(e) then 1 else 0) <= RecvLeft(m.recv)
    {
      StepKeepsInv(m, e);
      EndingStep(m, e);
    }
    Bounded(Next, m => Inv(m) && Ending(m), (e: Event) => true, IsRecvStep, (m: State) => RecvLeft(m.recv), s, more);
  }

  // ----- The end of sendTask after a failed send

  /** sendTask has seen a send fail, and will not pop again. */
  predicate Failing(s: State) {
    && !s.start.StoreTrue? && (s.sender.SendThrew? || s.sender.SendLoop? || s.sender.SendReturned?)
    && (s.running ==> s.sender.SendThrew?)
  }

  predicate IsSendStep(e: Event) {
    e.SendStep? || e == Act(0)
  }

  function FailLeft(s: State): nat {
    if s.sender.SendThrew? then 2 else if s.sender.SendLoop? then 1 else 0
  }

  lemma FailingStep(s: State, e: Event)
    requires Roles(s) && Protocol(s) && Failing(s) && Next(s, e).Some?
    ensures Failing(Next(s, e).value)
    ensures FailLeft(Next(s, e).value) + (if IsSendStep(e) then 1 else 0) <= FailLeft(s)
  {
  }

  /** After a send that throws, sendTask stops the client: in every interleaving it performs two more actions at most,
      none of them a pop, and when it can act no more it has returned and mIsRunning is false. */
  lemma {:induction false} FailedSendEnds(pushers: nat, es: seq<Event>, more: seq<Event>)
    requires Exec(Next, Init(pushers), es).Some? && Exec(Next, Init(pushers), es).value.sender.SocketSend?
    requires Exec(Next, Next(Exec(Next, Init(pushers), es).value, SendStep(true)).value, more).Some?
    ensures |Filter(IsSendStep, more)| <= 2
    ensures var q := Exec(Next, Next(Exec(Next, Init(pushers), es).value, SendStep(true)).value, more).value;
            !q.sender.Popping? && (SendNext(q, false).None? ==> q.sender.SendReturned? && !q.running)
  {
    Reachable(pushers, es);
    StepKeepsInv(Exec(Next, Init(pushers), es).value, SendStep(true));
    SenderEnds(Next(Exec(Next, Init(pushers), es).value, SendStep(true)).value, more);
  }

  lemma SenderEnds(s: State, more: seq<Event>)
    requires Inv(s) && Failing(s) && Exec(Next, s, more).Some?
    ensures |Filter(IsSendStep, more)| <= FailLeft(s) && Inv(Exec(Next, s, more).value) && Failing(Exec(Next, s, more).value)
  {
    forall m: State, e: Event | Inv(m) && Failing(m) && Next(m, e).Some?
      ensures Inv(Next(m, e).value) && Failing(Next(m, e).value)
              && FailLeft(Next(m, e).value) + (if IsSendStep(e) then 1 else 0) <= FailLeft(m)
    {
      StepKeepsInv(m, e);
      FailingStep(m, e);
    }
    Bounded(Next, m => Inv(m) && Failing(m), (e: Event) => true, IsSendStep, FailLeft, s, more);
  }
}
