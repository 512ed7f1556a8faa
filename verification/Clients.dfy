/** One client of the completion port: the class, and the machine of all threads that touch it while the kernel
    completes any posted operation at any time. */
module Clients {
  import opened Seqs
  import opened Runs
  import opened Bytes

  const UNSET := -1
  const READ := 0
  const SEND := 1

  /** mState, and the operations posted to the kernel and not yet dequeued from the completion port. */
  datatype Io = Io(mState: int, readOps: nat, sendOps: nat)

  function Store(io: Io, state: int): Io {
    io.(mState := state)
  }

  function PostRead(io: Io): Io {
    io.(readOps := io.readOps + 1)
  }

  function PostSend(io: Io): Io {
    io.(sendOps := io.sendOps + 1)
  }

  /** The member functions as one undisturbed thread performs them; posting always succeeds. */
  class Client {
    var mState: int
    var postedReads: nat
    var posted: seq<seq<byte>>      // the buffers given to WSASend and not yet completed
    var received: seq<nat>          // the sizes given to the receive handler
    var completedSends: nat         // calls of the sent handler

    constructor ()
      ensures State() == Io(UNSET, 0, 0) && received == [] && completedSends == 0
    {
      mState, postedReads, posted, received, completedSends := UNSET, 0, [], [], 0;
    }

    function State(): Io
      reads this
    {
      Io(mState, postedReads, |posted|)
    }

    method BeginRead()
      modifies this
      ensures State() == PostRead(Store(old(State()), READ))
      ensures mState == READ && postedReads == old(postedReads) + 1
      ensures posted == old(posted) && received == old(received) && completedSends == old(completedSends)
    {
      mState := READ;
      postedReads := postedReads + 1;
    }

    method BeginSend(data: array<byte>, dataSize: nat)
      requires dataSize <= data.Length
      modifies this
      ensures State() == PostSend(Store(old(State()), SEND)) && posted == old(posted) + [data[..dataSize]]
      ensures mState == SEND && postedReads == old(postedReads)
      ensures received == old(received) && completedSends == old(completedSends)
    {
      mState := SEND;
      posted := posted + [data[..dataSize]];
    }

    /** What a completion is taken for depends on mState alone. */
    method BeginIOEvent(transferred: nat)
      modifies this
      ensures received == old(received) + if old(mState) == READ then [transferred] else []
      ensures completedSends == old(completedSends) + if old(mState) == SEND then 1 else 0
      ensures State() == if old(mState) == READ then PostRead(old(State())) else old(State())
      ensures mState == old(mState) && postedReads == old(postedReads) + if old(mState) == READ then 1 else 0
      ensures posted == old(posted)
    {
      if mState == READ {
        received := received + [transferred];
        BeginRead();
      } else if mState == SEND {
        completedSends := completedSends + 1;
      }
    }
  }

  /** Where a worker is with a completion of this client. ok: the status was good and bytes were transferred. */
  datatype Worker =
    | Dequeueing               // in GetQueuedCompletionStatus, or busy with another client
    | Got(ok: bool)            // about to check that the client is in the map
    | Valid(ok: bool)          // it was; about to look it up
    | Found(ok: bool)          // about to test the completion, and then mState
    | Removing                 // about to erase the client from the map
    | InHandler                // CompleteRead
    | InnerStore | InnerPost   // the BeginRead of BeginIOEvent
    | Completing               // CompleteSend
    | OuterStore | OuterPost   // the BeginRead of workerThread
    | Notifying                // about to call notify_all
    | Crashed                  // mSockets.at has thrown

  datatype Acceptor = AcceptStore | AcceptPost | Accepted

  datatype Sender = SendIdle | SendStore | SendPost

  /** The counters only record what happened. */
  datatype State = State(
    io: Io,
    inMap: bool,
    acceptor: Acceptor,
    sender: Sender,
    workers: seq<Worker>,
    readsDequeued: nat,
    sendsDequeued: nat,
    failures: nat,          // failed or zero-byte completions dequeued
    lost: nat,              // completions after which no read is posted
    readDispatches: nat,    // BeginIOEvent with mState READ
    sendDispatches: nat,    // BeginIOEvent with mState SEND
    otherDispatches: nat,
    sendsPosted: nat)

  datatype Event =
    | Accept                               // acceptConnection goes on with BeginRead
    | StartSend                            // sendTask calls BeginSend
    | GoOnSend
    | ReadCompletes(i: nat, ok: bool)      // worker i dequeues the completion of a posted read
    | SendCompletes(i: nat, ok: bool)      // worker i dequeues the completion of a posted send
    | Step(i: nat)                         // worker i performs its next action

  function Init(workers: nat): State {
    State(Io(UNSET, 0, 0), true, AcceptStore, SendIdle, seq(workers, i => Dequeueing), 0, 0, 0, 0, 0, 0, 0, 0)
  }

  function Goto(s: State, i: nat, w: Worker): State
    requires i < |s.workers|
  {
    s.(workers := s.workers[i := w])
  }

  function Lose(s: State, i: nat, w: Worker): State
    requires i < |s.workers|
  {
    Goto(s.(lost := s.lost + 1), i, w)
  }

  function StepOf(s: State, i: nat): Option<State>
    requires i < |s.workers|
  {
    match s.workers[i]
    case Dequeueing => None
    case Crashed => None
    case Got(ok) => Some(if s.inMap then Goto(s, i, Valid(ok)) else Lose(s, i, Dequeueing))
    case Valid(ok) => Some(if s.inMap then Goto(s, i, Found(ok)) else Lose(s, i, Crashed))
    case Found(ok) =>
      Some(if !ok then Goto(s, i, Removing)
           else if s.io.mState == READ then Goto(s.(readDispatches := s.readDispatches + 1), i, InHandler)
           else if s.io.mState == SEND then Goto(s.(sendDispatches := s.sendDispatches + 1), i, Completing)
           else Goto(s.(otherDispatches := s.otherDispatches + 1), i, OuterStore))
    case Removing => Some(Lose(s.(inMap := false), i, Dequeueing))
    case InHandler => Some(Goto(s, i, InnerStore))
    case InnerStore => Some(Goto(s.(io := Store(s.io, READ)), i, InnerPost))
    case InnerPost => Some(Goto(s.(io := PostRead(s.io)), i, OuterStore))
    case Completing => Some(Goto(s, i, OuterStore))
    case OuterStore => Some(Goto(s.(io := Store(s.io, READ)), i, OuterPost))
    case OuterPost => Some(Goto(s.(io := PostRead(s.io)), i, Notifying))
    case Notifying => Some(Goto(s, i, Dequeueing))
  }

  function Dequeue(s: State, i: nat, ok: bool): State
    requires i < |s.workers|
  {
    Goto(s.(failures := s.failures + if ok then 0 else 1), i, Got(ok))
  }

  function Next(s: State, e: Event): Option<State> {
    match e
    case Accept =>
      (match s.acceptor
       case AcceptStore => Some(s.(acceptor := AcceptPost, io := Store(s.io, READ)))
       case AcceptPost => Some(s.(acceptor := Accepted, io := PostRead(s.io)))
       case Accepted => None)
    case StartSend => if s.sender.SendIdle? then Some(s.(sender := SendStore)) else None
    case GoOnSend =>
      (match s.sender
       case SendIdle => None
       case SendStore => Some(s.(sender := SendPost, io := Store(s.io, SEND)))
       case SendPost => Some(s.(sender := SendIdle, io := PostSend(s.io), sendsPosted := s.sendsPosted + 1)))
    case ReadCompletes(i, ok) =>
      if i < |s.workers| && s.workers[i].Dequeueing? && s.io.readOps > 0
      then Some(Dequeue(s.(io := s.io.(readOps := s.io.readOps - 1), readsDequeued := s.readsDequeued + 1), i, ok)) else None
    case SendCompletes(i, ok) =>
      if i < |s.workers| && s.workers[i].Dequeueing? && s.io.sendOps > 0
      then Some(Dequeue(s.(io := s.io.(sendOps := s.io.sendOps - 1), sendsDequeued := s.sendsDequeued + 1), i, ok)) else None
    case Step(i) => if i < |s.workers| then StepOf(s, i) else None
  }

  // ----- Conservation

  /** Reads a worker is still going to post. */
  function Owes(w: Worker): nat {
    match w
    case Got(_) => 1
    case Valid(_) => 1
    case Found(_) => 1
    case Removing => 1
    case InHandler => 2
    case InnerStore => 2
    case InnerPost => 2
    case Completing => 1
    case OuterStore => 1
    case OuterPost => 1
    case _ => 0
  }

  /** Reads still owed by workers, and by acceptConnection. */
  function Owed(s: State): nat {
    Sum(Owes, s.workers) + if s.acceptor.Accepted? then 0 else 1
  }

  /** Holds a completion that is neither dispatched nor lost. */
  function Undispatched(w: Worker): nat {
    if w.Got? || w.Valid? || w.Found? || w.Removing? then 1 else 0
  }

  /** A worker that has seen nothing but good completions. */
  predicate Healthy(w: Worker) {
    !w.Removing? && !w.Crashed? && (w.Got? ==> w.ok) && (w.Valid? ==> w.ok) && (w.Found? ==> w.ok)
  }

  predicate Balanced(s: State) {
    && s.io.readOps + Owed(s) + s.lost == 1 + s.sendsDequeued + s.readDispatches
    && s.readsDequeued + s.sendsDequeued
       == s.readDispatches + s.sendDispatches + s.lost + Sum(Undispatched, s.workers)
    && s.sendsPosted == s.io.sendOps + s.sendsDequeued
    && s.otherDispatches == 0
  }

  /** Without a failure nothing is lost, and when something is, the client is out of the map. */
  predicate Sound(s: State) {
    && (s.lost > 0 ==> !s.inMap)
    && (s.failures == 0 ==> s.lost == 0 && s.inMap && forall i :: 0 <= i < |s.workers| ==> Healthy(s.workers[i]))
  }

  ghost predicate Inv(s: State) {
    Balanced(s) && Started(s) && Sound(s)
  }

  /** mState is READ or SEND from the moment the first operation is posted. */
  ghost predicate Started(s: State) {
    IoSet(s.io)
    || (&& s.io.readOps == 0 && s.io.sendOps == 0 && s.acceptor.AcceptStore? && !s.sender.SendPost?
        && forall i :: 0 <= i < |s.workers| ==> s.workers[i].Dequeueing?)
  }

  lemma WorkerUpdate(s: State, i: nat, w: Worker)
    requires i < |s.workers|
    ensures Sum(Owes, s.workers[i := w]) + Owes(s.workers[i]) == Sum(Owes, s.workers) + Owes(w)
    ensures Sum(Undispatched, s.workers[i := w]) + Undispatched(s.workers[i]) == Sum(Undispatched, s.workers) + Undispatched(w)
  {
    SumUpdate(Owes, s.workers, i, w);
    SumUpdate(Undispatched, s.workers, i, w);
  }

  predicate IoSet(io: Io) {
    io.mState == READ || io.mState == SEND
  }

  /** What a worker's step touches. */
  lemma WorkerTouches(s: State, i: nat)
    requires i < |s.workers| && StepOf(s, i).Some? && IoSet(s.io)
    ensures var s' := StepOf(s, i).value;
            && s'.workers == s.workers[i := s'.workers[i]]
            && s' == s.(io := s'.io, workers := s'.workers, inMap := s'.inMap, lost := s'.lost,
                        readDispatches := s'.readDispatches, sendDispatches := s'.sendDispatches)
            && s'.io.sendOps == s.io.sendOps && IoSet(s'.io)
  {
  }

  /** What it owes changes with what is posted. */
  lemma WorkerOwes(s: State, i: nat)
    requires i < |s.workers| && StepOf(s, i).Some? && IoSet(s.io)
    ensures var s' := StepOf(s, i).value;
            s'.io.readOps + Owes(s'.workers[i]) + s'.lost - s'.readDispatches
            == s.io.readOps + Owes(s.workers[i]) + s.lost - s.readDispatches
  {
  }

  /** What it holds changes with what is dispatched and lost. */
  lemma WorkerDispatches(s: State, i: nat)
    requires i < |s.workers| && StepOf(s, i).Some? && IoSet(s.io)
    ensures var s' := StepOf(s, i).value;
            s'.readDispatches + s'.sendDispatches + s'.lost + Undispatched(s'.workers[i])
            == s.readDispatches + s.sendDispatches + s.lost + Undispatched(s.workers[i])
  {
  }

  /** It loses nothing as long as it is healthy, and no client that stays in the map. */
  lemma WorkerLoses(s: State, i: nat)
    requires i < |s.workers| && StepOf(s, i).Some?
    ensures var s' := StepOf(s, i).value;
            var v, w := s.workers[i], s'.workers[i];
            && (Healthy(v) && s.inMap ==> Healthy(w) && s'.inMap && s'.lost == s.lost)
            && (s'.inMap ==> s'.lost == s.lost && s.inMap)
  {
  }

  lemma WorkerKeepsInv(s: State, i: nat)
    requires Inv(s) && i < |s.workers| && StepOf(s, i).Some?
    ensures Inv(StepOf(s, i).value)
  {
    var s' := StepOf(s, i).value;
    WorkerTouches(s, i);
    WorkerOwes(s, i);
    WorkerDispatches(s, i);
    WorkerLoses(s, i);
    WorkerUpdate(s, i, s'.workers[i]);
    assert s.failures == 0 ==> Healthy(s.workers[i]);
  }

  lemma DequeueKeepsInv(s: State, e: Event)
    requires Inv(s) && Next(s, e).Some? && (e.ReadCompletes? || e.SendCompletes?)
    ensures Inv(Next(s, e).value)
  {
    WorkerUpdate(s, e.i, Got(e.ok));
  }

  lemma StepKeepsInv(s: State, e: Event)
    requires Inv(s) && Next(s, e).Some?
    ensures Inv(Next(s, e).value)
  {
    match e
    case Step(i) => WorkerKeepsInv(s, i);
    case ReadCompletes(_, _) => DequeueKeepsInv(s, e);
    case SendCompletes(_, _) => DequeueKeepsInv(s, e);
    case _ =>
  }

  lemma {:induction false} NobodyOwes(workers: seq<Worker>)
    requires forall i :: 0 <= i < |workers| ==> workers[i].Dequeueing?
    ensures Sum(Owes, workers) == 0 && Sum(Undispatched, workers) == 0
  {
    if workers != [] {
      NobodyOwes(workers[..|workers| - 1]);
    }
  }

  lemma {:induction false} Reachable(workers: nat, es: seq<Event>)
    requires Exec(Next, Init(workers), es).Some?
    ensures Inv(Exec(Next, Init(workers), es).value)
  {
    forall m: State, e: Event | Inv(m) && Next(m, e).Some?
      ensures Inv(Next(m, e).value)
    {
      StepKeepsInv(m, e);
    }
    NobodyOwes(Init(workers).workers);
    Invariance(Next, m => Inv(m), Init(workers), es);
  }

  /** For every number of workers and every schedule: the reads posted, those still owed, and the completions lost
      make up one for the accept, one for each send completion dequeued and one for each dispatch in state READ. */
  lemma ReadsConserved(workers: nat, es: seq<Event>)
    requires Exec(Next, Init(workers), es).Some?
    ensures var s := Exec(Next, Init(workers), es).value;
            s.io.readOps + Owed(s) + s.lost == 1 + s.sendsDequeued + s.readDispatches
  {
    Reachable(workers, es);
  }

  /** Every completion dequeued is dispatched as a read, dispatched as a send, lost, or still in the hands of a worker;
      no dispatch finds mState unset; and every send posted is dequeued or still posted. */
  lemma {:induction false} CompletionsConserved(workers: nat, es: seq<Event>)
    requires Exec(Next, Init(workers), es).Some?
    ensures var s := Exec(Next, Init(workers), es).value;
            && s.readsDequeued + s.sendsDequeued == s.readDispatches + s.sendDispatches + s.lost + Sum(Undispatched, s.workers)
            && s.otherDispatches == 0
            && s.sendsPosted == s.io.sendOps + s.sendsDequeued
  {
    Reachable(workers, es);
  }

  /** A client without a failed or zero-byte completion stays in the map, loses nothing, and is never left without a
      read posted or owed; when nobody is busy with it, the posted reads are one more than the send completions and
      the dispatches in state READ together. */
  lemma {:induction false} NeverDeaf(workers: nat, es: seq<Event>)
    requires Exec(Next, Init(workers), es).Some? && Exec(Next, Init(workers), es).value.failures == 0
    ensures var s := Exec(Next, Init(workers), es).value;
            && s.inMap && s.lost == 0 && 1 <= s.io.readOps + Owed(s)
            && (s.acceptor.Accepted? && (forall i :: 0 <= i < |s.workers| ==> s.workers[i].Dequeueing?) ==>
                  s.io.readOps == 1 + s.sendsDequeued + s.readDispatches)
  {
    Reachable(workers, es);
    var s := Exec(Next, Init(workers), es).value;
    if forall i :: 0 <= i < |s.workers| ==> s.workers[i].Dequeueing? {
      NobodyOwes(s.workers);
    }
  }

  function Dispatching(w: Worker): nat { if w.Found? then 1 else 0 }

  /** Dispatches made, and those that may still be made for a removed client. */
  function DispatchesLeft(s: State): nat {
    s.readDispatches + s.sendDispatches + s.otherDispatches + Sum(Dispatching, s.workers)
  }

  lemma RemovedWorkerStep(s: State, i: nat)
    requires !s.inMap && i < |s.workers| && StepOf(s, i).Some?
    ensures !StepOf(s, i).value.inMap && DispatchesLeft(StepOf(s, i).value) <= DispatchesLeft(s)
  {
    SumUpdate(Dispatching, s.workers, i, StepOf(s, i).value.workers[i]);
  }

  lemma RemovedStep(s: State, e: Event)
    requires !s.inMap && Next(s, e).Some?
    ensures !Next(s, e).value.inMap && DispatchesLeft(Next(s, e).value) <= DispatchesLeft(s)
  {
    if e.Step? {
      RemovedWorkerStep(s, e.i);
    } else if e.ReadCompletes? || e.SendCompletes? {
      SumUpdate(Dispatching, s.workers, e.i, Got(e.ok));
    }
  }

  /** Once a completion of a client is lost the client is out of the map for good, and from then on only completions
      that workers had already looked up are dispatched. */
  lemma {:induction false} RemovedForGood(workers: nat, es: seq<Event>, more: seq<Event>)
    requires Exec(Next, Init(workers), es).Some? && Exec(Next, Init(workers), es).value.lost > 0
    requires Exec(Next, Exec(Next, Init(workers), es).value, more).Some?
    ensures var s := Exec(Next, Init(workers), es).value;
            var later := Exec(Next, s, more).value;
            !s.inMap && !later.inMap && DispatchesLeft(later) <= DispatchesLeft(s)
  {
    Reachable(workers, es);
    var s := Exec(Next, Init(workers), es).value;
    var left := DispatchesLeft(s);
    forall m: State, e: Event | !m.inMap && DispatchesLeft(m) <= left && Next(m, e).Some?
      ensures !Next(m, e).value.inMap && DispatchesLeft(Next(m, e).value) <= left
    {
      RemovedStep(m, e);
    }
    Invariance(Next, (m: State) => !m.inMap && DispatchesLeft(m) <= left, s, more);
  }

  // ----- One worker undisturbed

  function Steps(i: nat, n: nat): seq<Event> {
    seq(n, k => Step(i))
  }

  lemma GotoTwice(s: State, i: nat, v: Worker, w: Worker)
    requires i < |s.workers|
    ensures Goto(Goto(s, i, v), i, w) == Goto(s, i, w)
  {
  }

  lemma GoOn(s: State, i: nat, a: nat, m: State, b: nat)
    requires Exec(Next, s, Steps(i, a)) == Some(m)
    ensures Exec(Next, s, Steps(i, a + b)) == Exec(Next, m, Steps(i, b))
  {
    assert Steps(i, a + b) == Steps(i, a) + Steps(i, b);
    ExecConcat(Next, s, Steps(i, a), Steps(i, b));
  }

  lemma OneStep(s: State, i: nat, m: State)
    requires Next(s, Step(i)) == Some(m)
    ensures Exec(Next, s, Steps(i, 1)) == Some(m)
  {
    TraceExec(Next, [s, m], Steps(i, 1));
  }

  /** The read of workerThread. */
  lemma OuterRead(s: State, i: nat)
    requires i < |s.workers|
    ensures Exec(Next, Goto(s, i, OuterStore), Steps(i, 3)) == Some(Goto(s.(io := PostRead(Store(s.io, READ))), i, Dequeueing))
  {
    var stored := s.(io := Store(s.io, READ));
    var posted := s.(io := PostRead(Store(s.io, READ)));
    GotoTwice(stored, i, OuterStore, OuterPost);
    GotoTwice(posted, i, OuterPost, Notifying);
    GotoTwice(posted, i, Notifying, Dequeueing);
    TraceExec(Next, [Goto(s, i, OuterStore), Goto(stored, i, OuterPost), Goto(posted, i, Notifying), Goto(posted, i, Dequeueing)],
              Steps(i, 3));
  }

  /** The read of BeginIOEvent. */
  lemma InnerRead(s: State, i: nat)
    requires i < |s.workers|
    ensures Exec(Next, Goto(s, i, InHandler), Steps(i, 3)) == Some(Goto(s.(io := PostRead(Store(s.io, READ))), i, OuterStore))
  {
    var stored := s.(io := Store(s.io, READ));
    var posted := s.(io := PostRead(Store(s.io, READ)));
    GotoTwice(s, i, InHandler, InnerStore);
    GotoTwice(stored, i, InnerStore, InnerPost);
    GotoTwice(posted, i, InnerPost, OuterStore);
    TraceExec(Next, [Goto(s, i, InHandler), Goto(s, i, InnerStore), Goto(stored, i, InnerPost), Goto(posted, i, OuterStore)],
              Steps(i, 3));
  }

  lemma LookedUp(s: State, i: nat, ok: bool)
    requires i < |s.workers| && s.workers[i] == Got(ok) && s.inMap
    ensures Exec(Next, s, Steps(i, 2)) == Some(Goto(s, i, Found(ok)))
  {
    GotoTwice(s, i, Valid(ok), Found(ok));
    TraceExec(Next, [s, Goto(s, i, Valid(ok)), Goto(s, i, Found(ok))], Steps(i, 2));
  }

  /** What the dispatch of a good completion leaves of mState and the posted operations, whatever mState was. */
  function DispatchIo(io: Io): Io {
    if io.mState == READ then PostRead(PostRead(io)) else PostRead(Store(io, READ))
  }

  /** The effect of a round of workerThread on the client, from the moment the completion is dequeued. */
  function RoundEffect(s: State, i: nat, ok: bool): State
    requires i < |s.workers|
  {
    if !s.inMap then Lose(s, i, Dequeueing)
    else if !ok then Lose(s.(inMap := false), i, Dequeueing)
    else if s.io.mState == READ then
      Goto(s.(io := DispatchIo(s.io), readDispatches := s.readDispatches + 1), i, Dequeueing)
    else Goto(s.(io := DispatchIo(s.io), sendDispatches := s.sendDispatches + 1), i, Dequeueing)
  }

  /** How many steps the round takes. */
  function RoundLength(s: State, ok: bool): nat {
    if !s.inMap then 1 else if !ok then 4 else if s.io.mState == READ then 9 else 7
  }

  lemma GoodRead(s: State, i: nat)
    requires i < |s.workers| && s.io.mState == READ
    ensures Exec(Next, Goto(s, i, Found(true)), Steps(i, 7))
            == Some(Goto(s.(io := PostRead(PostRead(s.io)), readDispatches := s.readDispatches + 1), i, Dequeueing))
  {
    var counted := s.(readDispatches := s.readDispatches + 1);
    var once := counted.(io := PostRead(s.io));
    GotoTwice(counted, i, Found(true), InHandler);
    OneStep(Goto(s, i, Found(true)), i, Goto(counted, i, InHandler));
    GoOn(Goto(s, i, Found(true)), i, 1, Goto(counted, i, InHandler), 6);
    InnerRead(counted, i);
    GoOn(Goto(counted, i, InHandler), i, 3, Goto(once, i, OuterStore), 3);
    OuterRead(once, i);
  }

  lemma GoodSend(s: State, i: nat)
    requires i < |s.workers| && s.io.mState == SEND
    ensures Exec(Next, Goto(s, i, Found(true)), Steps(i, 5))
            == Some(Goto(s.(io := PostRead(Store(s.io, READ)), sendDispatches := s.sendDispatches + 1), i, Dequeueing))
  {
    var counted := s.(sendDispatches := s.sendDispatches + 1);
    GotoTwice(counted, i, Found(true), Completing);
    OneStep(Goto(s, i, Found(true)), i, Goto(counted, i, Completing));
    GoOn(Goto(s, i, Found(true)), i, 1, Goto(counted, i, Completing), 4);
    GotoTwice(counted, i, Completing, OuterStore);
    OneStep(Goto(counted, i, Completing), i, Goto(counted, i, OuterStore));
    GoOn(Goto(counted, i, Completing), i, 1, Goto(counted, i, OuterStore), 3);
    OuterRead(counted, i);
  }

  lemma BadCompletion(s: State, i: nat)
    requires i < |s.workers|
    ensures Exec(Next, Goto(s, i, Found(false)), Steps(i, 2)) == Some(Lose(s.(inMap := false), i, Dequeueing))
  {
    var lost := s.(inMap := false, lost := s.lost + 1);
    GotoTwice(s, i, Found(false), Removing);
    GotoTwice(lost, i, Removing, Dequeueing);
    TraceExec(Next, [Goto(s, i, Found(false)), Goto(s, i, Removing), Goto(lost, i, Dequeueing)], Steps(i, 2));
  }

  /** A worker that nobody disturbs does to the client what a round of workerThread does to the class: with mState READ
      it posts two reads, with mState SEND one; a bad completion removes the client; for an unknown client nothing is
      done. */
  lemma {:induction false} UndisturbedRound(s: State, i: nat, ok: bool)
    requires i < |s.workers| && s.workers[i] == Got(ok) && IoSet(s.io)
    ensures Exec(Next, s, Steps(i, RoundLength(s, ok))) == Some(RoundEffect(s, i, ok))
  {
    if !s.inMap {
      OneStep(s, i, Lose(s, i, Dequeueing));
    } else {
      KnownRound(s, i, ok, RoundLength(s, ok) - 2);
    }
  }

  lemma KnownRound(s: State, i: nat, ok: bool, rest: nat)
    requires i < |s.workers| && s.workers[i] == Got(ok) && IoSet(s.io) && s.inMap && rest == RoundLength(s, ok) - 2
    ensures Exec(Next, s, Steps(i, 2 + rest)) == Some(RoundEffect(s, i, ok))
  {
    LookedUp(s, i, ok);
    GoOn(s, i, 2, Goto(s, i, Found(ok)), rest);
    FoundRound(s, i, ok, rest);
  }

  lemma FoundRound(s: State, i: nat, ok: bool, rest: nat)
    requires i < |s.workers| && IoSet(s.io) && s.inMap && rest == RoundLength(s, ok) - 2
    ensures Exec(Next, Goto(s, i, Found(ok)), Steps(i, rest)) == Some(RoundEffect(s, i, ok))
  {
    if !ok {
      BadCompletion(s, i);
    } else if s.io.mState == READ {
      GoodRead(s, i);
    } else {
      GoodSend(s, i);
    }
  }

  // ----- What the operations leave in mState, and what the next completion is taken for

  /** BeginSend at the grain of its actions: mState is SEND and one more send is posted. */
  lemma {:induction false} SendLeavesSend(s: State)
    requires s.sender.SendIdle?
    ensures Exec(Next, s, [StartSend, GoOnSend, GoOnSend])
            == Some(s.(io := Io(SEND, s.io.readOps, s.io.sendOps + 1), sendsPosted := s.sendsPosted + 1))
  {
    var storing := s.(sender := SendStore);
    var posting := storing.(sender := SendPost, io := Io(SEND, s.io.readOps, s.io.sendOps));
    ThreeEvents(Next, s, StartSend, storing, GoOnSend, posting, GoOnSend,
                s.(io := Io(SEND, s.io.readOps, s.io.sendOps + 1), sendsPosted := s.sendsPosted + 1));
  }

  /** And the BeginRead of acceptConnection: mState is READ and one more read is posted. */
  lemma {:induction false} AcceptLeavesRead(s: State)
    requires s.acceptor.AcceptStore?
    ensures Exec(Next, s, [Accept, Accept])
            == Some(s.(io := Io(READ, s.io.readOps + 1, s.io.sendOps), acceptor := Accepted))
  {
    TwoEvents(Next, s, Accept, s.(acceptor := AcceptPost, io := Io(READ, s.io.readOps, s.io.sendOps)),
              Accept, s.(io := Io(READ, s.io.readOps + 1, s.io.sendOps), acceptor := Accepted));
  }

  /** After a BeginSend the next good completion, though it be that of a read, is taken for that of a send: the sent
      handler is called, not the receive handler, and one read is posted. */
  lemma {:induction false} SendThenCompletion(s: State, i: nat, e: Event)
    requires s.sender.SendIdle? && s.inMap && i < |s.workers| && s.workers[i].Dequeueing?
    requires e in {ReadCompletes(i, true), SendCompletes(i, true)} && (e.ReadCompletes? ==> s.io.readOps > 0)
    ensures var q := Exec(Next, s, [StartSend, GoOnSend, GoOnSend] + ([e] + Steps(i, 7)));
            && q.Some? && q.value.workers == s.workers && q.value.inMap
            && q.value.sendDispatches == s.sendDispatches + 1 && q.value.readDispatches == s.readDispatches
            && q.value.io == if e.ReadCompletes? then Io(READ, s.io.readOps, s.io.sendOps + 1)
                             else Io(READ, s.io.readOps + 1, s.io.sendOps)
  {
    SendLeavesSend(s);
    var sent := s.(io := Io(SEND, s.io.readOps, s.io.sendOps + 1), sendsPosted := s.sendsPosted + 1);
    ExecConcat(Next, s, [StartSend, GoOnSend, GoOnSend], [e] + Steps(i, 7));
    CompletionAfterSend(sent, i, e);
  }

  lemma CompletionAfterSend(s: State, i: nat, e: Event)
    requires s.io.mState == SEND && s.inMap && i < |s.workers| && s.workers[i].Dequeueing? && s.io.sendOps > 0
    requires e in {ReadCompletes(i, true), SendCompletes(i, true)} && (e.ReadCompletes? ==> s.io.readOps > 0)
    ensures var q := Exec(Next, s, [e] + Steps(i, 7));
            && q.Some? && q.value.workers == s.workers && q.value.inMap
            && q.value.sendDispatches == s.sendDispatches + 1 && q.value.readDispatches == s.readDispatches
            && q.value.io == if e.ReadCompletes? then Io(READ, s.io.readOps, s.io.sendOps)
                             else Io(READ, s.io.readOps + 1, s.io.sendOps - 1)
  {
    var got := Next(s, e).value;
    TraceExec(Next, [s, got], [e]);
    ExecConcat(Next, s, [e], Steps(i, 7));
    UndisturbedRound(got, i, true);
    assert s.workers[i := Got(true)][i := Dequeueing] == s.workers;
  }
}
