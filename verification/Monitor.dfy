/** The hand-written monitor queue: a mutex, a condition variable, and notify_all after the mutex is released.
    Any number of threads push, pop and ask for the size; each event below is one atomic action of one of them. */
module Monitor {
  import opened Seqs
  import opened Runs

  /** Where a thread is inside the queue's member functions. */
  datatype Pc<T> =
    | Idle
    | PushLock(item: T)    // about to take the mutex
    | PushInsert(item: T)  // holds the mutex, about to insert
    | PushUnlock           // holds the mutex, has inserted
    | PushNotify           // has released the mutex, about to call notify_all
    | PopLock              // about to take the mutex
    | PopTest              // holds the mutex, about to test for emptiness
    | PopWait              // holds the mutex, saw an empty queue
    | Sleeping             // inside wait, mutex released
    | Woken                // inside wait, must take the mutex again before wait returns
    | PopFront             // holds the mutex, saw a non-empty queue
    | PopRemove(front: T)  // holds the mutex, has copied the front
    | PopUnlock(result: T) // holds the mutex, has removed the front
    | SizeLock             // about to take the mutex
    | SizeRead             // holds the mutex, about to read the size
    | SizeUnlock(size: nat) // holds the mutex, has read the size
    | Fault                // read the front of an empty queue

  /** queue and owner are the shared memory; pushed, returned and sizes only record what happened. */
  datatype State<T> = State(
    queue: seq<T>,
    owner: Option<nat>,
    pc: seq<Pc<T>>,
    pushed: seq<T>,             // items in the order of their insertion
    returned: seq<(nat, T)>)    // results of pop, with the thread that got each, in the order of their return

  datatype Op<T> = Push(item: T) | Pop | Size

  datatype Event<T> =
    | Call(t: nat, op: Op<T>)   // an idle thread calls a member function
    | Run(t: nat)               // a thread performs its next action
    | Spurious(t: nat)          // a sleeping thread wakes without a notification

  function Init<T>(n: nat): State<T> {
    State([], None, seq(n, i => Idle), [], [])
  }

  /** Holds the mutex. */
  predicate Critical<T>(c: Pc<T>) {
    c.PushInsert? || c.PushUnlock? || c.PopTest? || c.PopWait? || c.PopFront? || c.PopRemove? || c.PopUnlock?
    || c.SizeRead? || c.SizeUnlock?
  }

  /** Is about to take the mutex. */
  predicate Acquiring<T>(c: Pc<T>) {
    c.PushLock? || c.PopLock? || c.Woken? || c.SizeLock?
  }

  /** The effect of notify_all on one thread. */
  function Wake<T>(c: Pc<T>): Pc<T> {
    if c.Sleeping? then Woken else c
  }

  function WakeAll<T>(pc: seq<Pc<T>>): (r: seq<Pc<T>>)
    ensures |r| == |pc|
  {
    seq(|pc|, i requires 0 <= i < |pc| => Wake(pc[i]))
  }

  function Goto<T>(s: State<T>, t: nat, c: Pc<T>): State<T>
    requires t < |s.pc|
  {
    s.(pc := s.pc[t := c])
  }

  function Acquire<T>(s: State<T>, t: nat, c: Pc<T>): Option<State<T>>
    requires t < |s.pc|
  {
    if s.owner.None? then Some(Goto(s.(owner := Some(t)), t, c)) else None
  }

  /** The next action of thread t; None when it has none or must wait. */
  function Advance<T>(s: State<T>, t: nat): Option<State<T>>
    requires t < |s.pc|
  {
    match s.pc[t]
    case Idle => None
    case Sleeping => None
    case Fault => None
    case PushLock(x) => Acquire(s, t, PushInsert(x))
    case PushInsert(x) => Some(Goto(s.(queue := s.queue + [x], pushed := s.pushed + [x]), t, PushUnlock))
    case PushUnlock => Some(Goto(s.(owner := None), t, PushNotify))
    case PushNotify => Some(s.(pc := WakeAll(s.pc[t := Idle])))
    case PopLock => Acquire(s, t, PopTest)
    case PopTest => Some(Goto(s, t, if s.queue == [] then PopWait else PopFront))
    case PopWait => Some(Goto(s.(owner := None), t, Sleeping))
    case Woken => Acquire(s, t, PopTest)
    case PopFront => Some(Goto(s, t, if s.queue == [] then Fault else PopRemove(s.queue[0])))
    case PopRemove(x) =>
      Some(if s.queue == [] then Goto(s, t, Fault) else Goto(s.(queue := s.queue[1..]), t, PopUnlock(x)))
    case PopUnlock(x) => Some(Goto(s.(owner := None, returned := s.returned + [(t, x)]), t, Idle))
    case SizeLock => Acquire(s, t, SizeRead)
    case SizeRead => Some(Goto(s, t, SizeUnlock(|s.queue|)))
    case SizeUnlock(_) => Some(Goto(s.(owner := None), t, Idle))
  }

  function Entry<T>(op: Op<T>): Pc<T> {
    match op
    case Push(x) => PushLock(x)
    case Pop => PopLock
    case Size => SizeLock
  }

  function Next<T>(s: State<T>, e: Event<T>): Option<State<T>> {
    if |s.pc| <= e.t then None
    else
      match e
      case Run(t) => Advance(s, t)
      case Call(t, op) => if s.pc[t].Idle? then Some(Goto(s, t, Entry(op))) else None
      case Spurious(t) => if s.pc[t].Sleeping? then Some(Goto(s, t, Woken)) else None
  }

  // ----- Safety

  /** The item that has left the queue and is not yet returned: only the mutex owner can hold one. */
  function InHand<T>(s: State<T>): seq<T> {
    if s.owner.Some? && s.owner.value < |s.pc| && s.pc[s.owner.value].PopUnlock?
    then [s.pc[s.owner.value].result] else []
  }

  function Second<T>(r: (nat, T)): T { r.1 }

  /** The results of pop, in the order of their return. */
  function Results<T>(s: State<T>): seq<T> {
    Map(Second, s.returned)
  }

  ghost predicate MutexInv<T>(s: State<T>) {
    forall t :: 0 <= t < |s.pc| ==> (Critical(s.pc[t]) <==> s.owner == Some(t))
  }

  /** What a thread that holds the mutex knows about the queue. */
  ghost predicate Local<T>(queue: seq<T>, c: Pc<T>) {
    match c
    case PopWait => queue == []
    case PopFront => queue != []
    case PopRemove(x) => queue != [] && queue[0] == x
    case PushUnlock => queue != []
    case SizeUnlock(n) => n == |queue|
    case Fault => false
    case _ => true
  }

  /** A pusher has inserted and has not yet notified. */
  predicate Owing<T>(c: Pc<T>) {
    c.PushUnlock? || c.PushNotify?
  }

  ghost predicate NoLostWakeup<T>(s: State<T>) {
    s.queue != [] && (exists t :: 0 <= t < |s.pc| && s.pc[t].Sleeping?) ==>
      exists p :: 0 <= p < |s.pc| && Owing(s.pc[p])
  }

  ghost predicate Inv<T>(s: State<T>) {
    && (s.owner.Some? ==> s.owner.value < |s.pc|)
    && MutexInv(s)
    && (forall t :: 0 <= t < |s.pc| ==> Local(s.queue, s.pc[t]))
    && s.pushed == Results(s) + InHand(s) + s.queue
    && NoLostWakeup(s)
  }

  lemma ResultsSnoc<T>(s: State<T>, r: (nat, T))
    ensures Map(Second, s.returned + [r]) == Results(s) + [r.1]
  {
    assert (s.returned + [r])[..|s.returned|] == s.returned;
  }

  lemma NotifyKeepsInv<T>(s: State<T>, t: nat)
    requires Inv(s) && t < |s.pc| && s.pc[t].PushNotify?
    ensures Inv(Advance(s, t).value)
  {
    var s' := Advance(s, t).value;
    assert forall u :: 0 <= u < |s.pc| ==> !s'.pc[u].Sleeping?;
  }

  /** An action of the mutex owner t that leaves the other threads alone keeps everything but the history, provided
      it leaves t's own knowledge right and does not make a non-empty queue that nobody will announce. */
  lemma OwnerStep<T>(s: State<T>, s': State<T>, t: nat)
    requires Inv(s) && t < |s.pc| && s.owner == Some(t)
    requires |s'.pc| == |s.pc| && s'.pc == s.pc[t := s'.pc[t]]
    requires s'.owner == if Critical(s'.pc[t]) then Some(t) else None
    requires Local(s'.queue, s'.pc[t])
    requires s'.pushed == Results(s') + InHand(s') + s'.queue
    requires s'.queue == [] || Owing(s'.pc[t]) || (s.queue != [] && !Owing(s.pc[t]) && !s'.pc[t].Sleeping?)
    ensures Inv(s')
  {
    assert forall u :: 0 <= u < |s.pc| && u != t ==> s'.pc[u] == s.pc[u] && !Critical(s.pc[u]);
    if s'.queue != [] && !Owing(s'.pc[t]) && (exists u :: 0 <= u < |s.pc| && s'.pc[u].Sleeping?) {
      var u :| 0 <= u < |s.pc| && s'.pc[u].Sleeping?;
      assert s.pc[u].Sleeping?;
      var p :| 0 <= p < |s.pc| && Owing(s.pc[p]);
      assert Owing(s'.pc[p]);
    }
  }

  /** Critical actions: the acting thread owns the mutex, so every other thread is outside its critical section. */
  lemma {:induction false} CriticalKeepsInv<T>(s: State<T>, t: nat)
    requires Inv(s) && t < |s.pc| && Critical(s.pc[t])
    ensures Inv(Advance(s, t).value)
  {
    var s' := Advance(s, t).value;
    if s.pc[t].PopUnlock? {
      ResultsSnoc(s, (t, s.pc[t].result));
    }
    OwnerStep(s, s', t);
  }

  /** A thread outside its critical section leaves the queue alone; at most it takes the free mutex. */
  lemma OutsiderStep<T>(s: State<T>, s': State<T>, t: nat)
    requires Inv(s) && t < |s.pc| && !Critical(s.pc[t]) && !Owing(s.pc[t])
    requires |s'.pc| == |s.pc| && s' == s.(pc := s.pc[t := s'.pc[t]], owner := s'.owner)
    requires if Critical(s'.pc[t]) then s.owner.None? && s'.owner == Some(t) else s'.owner == s.owner
    requires Local(s.queue, s'.pc[t]) && !s'.pc[t].Sleeping? && !s'.pc[t].PopUnlock?
    ensures Inv(s')
  {
    assert forall u :: 0 <= u < |s.pc| && u != t ==> s'.pc[u] == s.pc[u];
    assert InHand(s') == InHand(s);
    if s'.queue != [] && (exists u :: 0 <= u < |s.pc| && s'.pc[u].Sleeping?) {
      var u :| 0 <= u < |s.pc| && s'.pc[u].Sleeping?;
      assert s.pc[u].Sleeping?;
      var p :| 0 <= p < |s.pc| && Owing(s.pc[p]);
      assert Owing(s'.pc[p]);
    }
  }

  lemma OutsideKeepsInv<T>(s: State<T>, e: Event<T>)
    requires Inv(s) && Next(s, e).Some?
    requires e.Run? ==> Acquiring(s.pc[e.t])
    ensures Inv(Next(s, e).value)
  {
    OutsiderStep(s, Next(s, e).value, e.t);
  }

  lemma {:induction false} StepKeepsInv<T>(s: State<T>, e: Event<T>)
    requires Inv(s) && Next(s, e).Some?
    ensures Inv(Next(s, e).value)
  {
    if e.Run? && Critical(s.pc[e.t]) {
      CriticalKeepsInv(s, e.t);
    } else if e.Run? && s.pc[e.t].PushNotify? {
      NotifyKeepsInv(s, e.t);
    } else {
      OutsideKeepsInv(s, e);
    }
  }

  lemma InitInv<T>(n: nat)
    ensures Inv(Init<T>(n))
  {
  }

  /** Every state that n threads can reach under any schedule satisfies the invariant. */
  lemma {:induction false} Reachable<T(!new)>(n: nat, es: seq<Event<T>>)
    requires Exec(Next, Init(n), es).Some?
    ensures Inv(Exec(Next, Init(n), es).value)
  {
    forall m: State<T>, e: Event<T> | Inv(m) && Next(m, e).Some?
      ensures Inv(Next(m, e).value)
    {
      StepKeepsInv(m, e);
    }
    InitInv<T>(n);
    Invariance(Next, m => Inv(m), Init(n), es);
  }

  /** Linearizability: pop returns the pushed items in the order of their insertion, each once; what is pushed and
      not returned is in the queue, but for at most one item in the hands of the mutex owner. */
  lemma Linearizable<T(!new)>(n: nat, es: seq<Event<T>>)
    requires Exec(Next, Init(n), es).Some?
    ensures var s := Exec(Next, Init(n), es).value;
            s.pushed == Results(s) + InHand(s) + s.queue && |InHand(s)| <= 1
    ensures var s := Exec(Next, Init(n), es).value;
            |s.returned| <= |s.pushed| && forall k :: 0 <= k < |s.returned| ==> s.returned[k].1 == s.pushed[k]
  {
    Reachable(n, es);
  }

  /** At most one thread is in a critical section, and the front of an empty queue is never read. */
  lemma MutualExclusion<T(!new)>(n: nat, es: seq<Event<T>>)
    requires Exec(Next, Init(n), es).Some?
    ensures var s := Exec(Next, Init(n), es).value;
            forall t, u :: 0 <= t < |s.pc| && 0 <= u < |s.pc| && Critical(s.pc[t]) && Critical(s.pc[u]) ==> t == u
    ensures var s := Exec(Next, Init(n), es).value;
            forall t :: 0 <= t < |s.pc| ==> !s.pc[t].Fault?
  {
    Reachable(n, es);
    var s := Exec(Next, Init(n), es).value;
    forall t | 0 <= t < |s.pc|
      ensures !s.pc[t].Fault?
    {
      assert Local(s.queue, s.pc[t]);
    }
  }

  /** size reports the length the queue has while the caller holds the mutex. */
  lemma SizeExact<T(!new)>(n: nat, es: seq<Event<T>>, t: nat)
    requires Exec(Next, Init(n), es).Some?
    requires var s := Exec(Next, Init(n), es).value; t < |s.pc| && s.pc[t].SizeUnlock?
    ensures var s := Exec(Next, Init(n), es).value; s.pc[t].size == |s.queue|
  {
    Reachable(n, es);
  }

  /** No lost wakeup, although notify_all comes after the unlock. */
  lemma WakeupNotLost<T(!new)>(n: nat, es: seq<Event<T>>)
    requires Exec(Next, Init(n), es).Some?
    ensures NoLostWakeup(Exec(Next, Init(n), es).value)
  {
    Reachable(n, es);
  }

  // ----- What users of the queue need to know of an action

  predicate InPop<T>(c: Pc<T>) {
    c.PopLock? || c.PopTest? || c.PopWait? || c.Sleeping? || c.Woken? || c.PopFront? || c.PopRemove? || c.PopUnlock?
  }

  predicate InPush<T>(c: Pc<T>) {
    c.PushLock? || c.PushInsert? || c.PushUnlock? || c.PushNotify?
  }

  /** The item a thread has called push with and not yet inserted. */
  function Offered<T>(c: Pc<T>): seq<T> {
    match c
    case PushLock(x) => [x]
    case PushInsert(x) => [x]
    case _ => []
  }

  /** Thread t has acted: another thread at most wakes; an item enters the history as it leaves the pusher's hands,
      and a result as its popper becomes idle. */
  ghost predicate Effect<T>(s: State<T>, s': State<T>, t: nat) {
    && t < |s.pc| == |s'.pc|
    && (forall u :: 0 <= u < |s.pc| && u != t ==> s'.pc[u] == s.pc[u] || s'.pc[u] == Wake(s.pc[u]))
    && !s.pc[t].Idle?
    && s'.pushed == s.pushed + (if s.pc[t].PushInsert? then Offered(s.pc[t]) else [])
    && Offered(s'.pc[t]) == (if s.pc[t].PushInsert? then [] else Offered(s.pc[t]))
    && s'.returned == s.returned + (if s.pc[t].PopUnlock? then [(t, s.pc[t].result)] else [])
    && (InPush(s.pc[t]) ==> if s.pc[t].PushNotify? then s'.pc[t].Idle? else InPush(s'.pc[t]))
    && (InPop(s.pc[t]) ==> if s.pc[t].PopUnlock? then s'.pc[t].Idle? else InPop(s'.pc[t]))
  }

  /** An idle thread has called op. */
  ghost predicate Called<T>(s: State<T>, s': State<T>, t: nat, op: Op<T>) {
    && t < |s.pc| && s.pc[t].Idle? && s'.pc == s.pc[t := Entry(op)]
    && s'.pushed == s.pushed && s'.returned == s.returned
  }

  /** The queue changes only where a thread inserts or removes. */
  lemma QueueEffect<T>(s: State<T>, t: nat)
    requires Inv(s) && t < |s.pc| && Advance(s, t).Some?
    ensures Advance(s, t).value.queue == if s.pc[t].PushInsert? then s.queue + [s.pc[t].item]
                                         else if s.pc[t].PopRemove? then s.queue[1..] else s.queue
  {
    assert Local(s.queue, s.pc[t]);
  }

  lemma ActEffect<T>(s: State<T>, t: nat)
    requires Inv(s) && t < |s.pc| && Advance(s, t).Some?
    ensures Effect(s, Advance(s, t).value, t)
  {
    assert Local(s.queue, s.pc[t]);
  }

  // ----- Progress

  /** In pop, and not yet in possession of an item. */
  predicate WaitingToPop<T>(c: Pc<T>) {
    c.PopLock? || c.PopTest? || c.PopWait? || c.Sleeping? || c.Woken?
  }

  /** With nothing left to do, every thread is idle or asleep, and nobody sleeps beside a non-empty queue. */
  lemma QuietMeansServed<T>(s: State<T>)
    requires Inv(s)
    requires forall t :: 0 <= t < |s.pc| ==> Advance(s, t).None?
    ensures s.owner.None?
    ensures forall t :: 0 <= t < |s.pc| ==> s.pc[t].Idle? || s.pc[t].Sleeping?
    ensures s.queue != [] ==> forall t :: 0 <= t < |s.pc| ==> s.pc[t].Idle?
  {
    forall t | 0 <= t < |s.pc|
      ensures !Critical(s.pc[t]) && !Owing(s.pc[t])
    {
      assert Advance(s, t).None?;
    }
    forall t | 0 <= t < |s.pc|
      ensures s.pc[t].Idle? || s.pc[t].Sleeping?
    {
      assert !Critical(s.pc[t]) && Local(s.queue, s.pc[t]) && Advance(s, t).None?;
    }
  }

  /** A non-empty queue with a thread waiting to pop is never deadlocked: some thread can act, unaided by a
      spurious wakeup or a new call. */
  lemma NotDeadlocked<T(!new)>(n: nat, es: seq<Event<T>>, popper: nat)
    requires Exec(Next, Init(n), es).Some?
    requires var s := Exec(Next, Init(n), es).value;
             s.queue != [] && popper < |s.pc| && WaitingToPop(s.pc[popper])
    ensures var s := Exec(Next, Init(n), es).value;
            exists t :: 0 <= t < |s.pc| && Advance(s, t).Some?
  {
    Reachable(n, es);
    var s := Exec(Next, Init(n), es).value;
    if forall t :: 0 <= t < |s.pc| ==> Advance(s, t).None? {
      QuietMeansServed(s);
    }
  }

  function OfferedCount<T>(c: Pc<T>): nat {
    |Offered(c)|
  }

  /** Actions a thread can still perform before it is idle or asleep. */
  function Weight<T>(c: Pc<T>): nat {
    match c
    case PushLock(_) => 4
    case PushInsert(_) => 3
    case PushUnlock => 2
    case PushNotify => 1
    case PopLock => 5
    case Woken => 5
    case PopTest => 4
    case PopFront => 3
    case PopRemove(_) => 2
    case PopUnlock(_) => 1
    case PopWait => 1
    case SizeLock => 3
    case SizeRead => 2
    case SizeUnlock(_) => 1
    case _ => 0
  }

  const HEAVIEST := 5

  /** One for a thread that will still notify. */
  function Pending<T>(c: Pc<T>): nat {
    if c.PushLock? || c.PushInsert? || c.PushUnlock? || c.PushNotify? then 1 else 0
  }

  /** A notification may wake every thread, so each pending one outweighs all of them. */
  function Measure<T>(s: State<T>): nat {
    Sum(Pending, s.pc) * (HEAVIEST * |s.pc| + 1) + Sum(Weight, s.pc)
  }

  /** Waking does not change a total that takes no account of sleeping. */
  lemma {:induction false} WakeKeeps<T>(w: Pc<T> -> nat, pc: seq<Pc<T>>)
    requires w(Sleeping) == w(Woken)
    ensures Sum(w, WakeAll(pc)) == Sum(w, pc)
  {
    if pc != [] {
      var n := |pc| - 1;
      assert WakeAll(pc)[..n] == WakeAll(pc[..n]);
      WakeKeeps(w, pc[..n]);
    }
  }

  lemma NotifyEffect<T>(s: State<T>, t: nat)
    requires t < |s.pc| && s.pc[t].PushNotify?
    ensures var s' := Advance(s, t).value;
            && |s'.pc| == |s.pc|
            && Sum(Pending, s.pc) == Sum(Pending, s'.pc) + 1
            && Sum(Weight, s'.pc) <= HEAVIEST * |s.pc|
  {
    SumUpdate(Pending, s.pc, t, Idle);
    WakeKeeps(Pending, s.pc[t := Idle]);
    SumBound(Weight, Advance(s, t).value.pc, HEAVIEST);
  }

  lemma NotifyLowersMeasure<T>(s: State<T>, t: nat)
    requires t < |s.pc| && s.pc[t].PushNotify?
    ensures Measure(Advance(s, t).value) < Measure(s)
  {
    NotifyEffect(s, t);
    Times(HEAVIEST * |s.pc| + 1, Sum(Pending, Advance(s, t).value.pc));
  }

  /** Any other action leaves the pending notifications alone and brings its thread one step on. */
  lemma OtherActions<T>(s: State<T>, t: nat)
    requires t < |s.pc| && !s.pc[t].PushNotify? && Advance(s, t).Some?
    ensures var s' := Advance(s, t).value;
            s'.pc == s.pc[t := s'.pc[t]] && Pending(s'.pc[t]) == Pending(s.pc[t]) && Weight(s'.pc[t]) < Weight(s.pc[t])
  {
  }

  /** An item is offered, then in the queue, then returned. */
  lemma ActKeepsItems<T>(s: State<T>, t: nat)
    requires Inv(s) && t < |s.pc| && Advance(s, t).Some?
    ensures var s' := Advance(s, t).value;
            && |s'.pushed| + Sum(OfferedCount, s'.pc) == |s.pushed| + Sum(OfferedCount, s.pc)
            && |s'.returned| == |s.returned| + if s.pc[t].PopUnlock? then 1 else 0
  {
    var s' := Advance(s, t).value;
    ActEffect(s, t);
    OfferedSum(s, s', t);
  }

  lemma OfferedSum<T>(s: State<T>, s': State<T>, t: nat)
    requires t < |s.pc| && Advance(s, t) == Some(s')
    ensures |s'.pc| == |s.pc|
            && Sum(OfferedCount, s'.pc) + OfferedCount(s.pc[t]) == Sum(OfferedCount, s.pc) + OfferedCount(s'.pc[t])
  {
    if s.pc[t].PushNotify? {
      SumUpdate(OfferedCount, s.pc, t, Idle);
      WakeKeeps(OfferedCount, s.pc[t := Idle]);
    } else {
      OtherActions(s, t);
      SumUpdate(OfferedCount, s.pc, t, s'.pc[t]);
    }
  }

  lemma RunLowersMeasure<T>(s: State<T>, t: nat)
    requires t < |s.pc| && Advance(s, t).Some?
    ensures Measure(Advance(s, t).value) < Measure(s)
  {
    if s.pc[t].PushNotify? {
      NotifyLowersMeasure(s, t);
    } else {
      var s' := Advance(s, t).value;
      OtherActions(s, t);
      SumUpdate(Pending, s.pc, t, s'.pc[t]);
      SumUpdate(Weight, s.pc, t, s'.pc[t]);
    }
  }

  predicate IsRun<T>(e: Event<T>) { e.Run? }

  predicate IsSpurious<T>(e: Event<T>) { e.Spurious? }

  predicate NoCall<T>(e: Event<T>) { !e.Call? }

  /** No action but a spurious wakeup raises the measure. */
  lemma StepLowersMeasure<T>(s: State<T>, e: Event<T>)
    requires NoCall(e) && Next(s, e).Some?
    ensures Measure(Next(s, e).value) + (if IsRun(e) then 1 else 0) <= Measure(s) + if IsSpurious(e) then HEAVIEST else 0
  {
    if e.Run? {
      RunLowersMeasure(s, e.t);
    } else {
      SumUpdate(Pending, s.pc, e.t, Woken);
      SumUpdate(Weight, s.pc, e.t, Woken);
    }
  }

  /** From any reachable state, however the threads are scheduled, they fall quiet when no new call is made: within
      Measure actions, and five more for each spurious wakeup; and then no pop is left waiting beside a non-empty
      queue. */
  lemma {:induction false} FallsQuiet<T(!new)>(n: nat, es: seq<Event<T>>, more: seq<Event<T>>)
    requires Exec(Next, Init(n), es).Some?
    requires forall e :: e in more ==> NoCall(e)
    requires Exec(Next, Exec(Next, Init(n), es).value, more).Some?
    ensures |Filter(IsRun, more)| <= Measure(Exec(Next, Init(n), es).value) + HEAVIEST * |Filter(IsSpurious, more)|
    ensures var q := Exec(Next, Exec(Next, Init(n), es).value, more).value;
            (forall t :: 0 <= t < |q.pc| ==> Advance(q, t).None?) ==>
              q.queue == [] || forall t :: 0 <= t < |q.pc| ==> !WaitingToPop(q.pc[t])
  {
    Reachable(n, es);
    var s := Exec(Next, Init(n), es).value;
    forall m: State<T>, e: Event<T> | Inv(m) && NoCall(e) && Next(m, e).Some?
      ensures Inv(Next(m, e).value)
              && Measure(Next(m, e).value) + (if IsRun(e) then 1 else 0) <= Measure(m) + if IsSpurious(e) then HEAVIEST else 0
    {
      StepKeepsInv(m, e);
      StepLowersMeasure(m, e);
    }
    BoundedBy(Next, m => Inv(m), NoCall, IsRun, IsSpurious, HEAVIEST, m => Measure(m), s, more);
    var q := Exec(Next, s, more).value;
    if forall t :: 0 <= t < |q.pc| ==> Advance(q, t).None? {
      QuietMeansServed(q);
    }
  }
}
