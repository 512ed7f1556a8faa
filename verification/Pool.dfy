/** The thread pool on top of the monitor queue: DoTask, nextTask, EnqueueTask and JoinAll, action by action. */
module Pool {
  import opened Seqs
  import opened Runs
  import Monitor

  type Task = nat

  /** Where a worker is in DoTask. A ticket is the position of a task in the order in which tasks left the queue. */
  datatype Worker =
    | LoopTest                                 // about to test isFinished in DoTask
    | NextTest                                 // about to test isFinished in nextTask
    | Popping                                  // inside mTasks.pop()
    | Have(task: Option<Task>, ticket: nat)    // nextTask has returned; None is the empty function
    | Running(work: Task, ticket: nat)         // inside its task
    | Decrement(ticket: nat)                   // its task has returned
    | Exited
    | Fault                                    // has called the empty function

  datatype Joiner = Outside | Check | Joining(next: nat) | Done

  /** Monitor threads below |workers| are the workers, the others call EnqueueTask. started and ended record what
      happened. */
  datatype State = State(
    mon: Monitor.State<Task>,
    workers: seq<Worker>,
    joiners: seq<Joiner>,
    finished: bool,
    jobs: int,
    initialJobs: int,
    started: seq<nat>,    // tickets, in the order in which their tasks were started
    ended: seq<nat>)      // tickets, in the order in which their tasks returned

  datatype Event =
    | Act(t: nat)                  // a thread performs its next action inside the queue
    | WakeSpuriously(t: nat)
    | Enqueue(t: nat, task: Task)
    | Step(i: nat)                 // a worker performs its next action in DoTask or nextTask
    | Return(i: nat)               // a worker has its task return
    | CallJoin(j: nat)
    | Join(j: nat)                 // a caller of JoinAll performs its next action

  function Init(workers: nat, enqueuers: nat, joiners: nat, jobs: int): State {
    State(Monitor.Init(workers + enqueuers), seq(workers, i => LoopTest), seq(joiners, i => Outside),
          false, jobs, jobs, [], [])
  }

  function Goto(s: State, i: nat, w: Worker): State
    requires i < |s.workers|
  {
    s.(workers := s.workers[i := w])
  }

  function StepOf(s: State, i: nat): Option<State>
    requires i < |s.workers|
  {
    match s.workers[i]
    case LoopTest => Some(Goto(s, i, if s.finished then Exited else NextTest))
    case NextTest =>
      if s.finished then Some(Goto(s, i, Have(None, 0)))
      else
        (match Monitor.Next(s.mon, Monitor.Call(i, Monitor.Pop))
         case None => None
         case Some(m) => Some(Goto(s.(mon := m), i, Popping)))
    case Have(task, k) =>
      Some(if task.None? then Goto(s, i, Fault) else Goto(s.(started := s.started + [k]), i, Running(task.value, k)))
    case Decrement(_) => Some(Goto(s.(jobs := s.jobs - 1), i, LoopTest))
    case _ => None
  }

  function JoinOf(s: State, j: nat): Option<State>
    requires j < |s.joiners|
  {
    match s.joiners[j]
    case Check => Some(s.(joiners := s.joiners[j := if s.finished then Done else Joining(0)]))
    case Joining(i) =>
      if i >= |s.workers| then Some(s.(joiners := s.joiners[j := Done], finished := true))
      else if s.workers[i].Exited? then Some(s.(joiners := s.joiners[j := Joining(i + 1)]))
      else None
    case _ => None
  }

  function Next(s: State, e: Event): Option<State> {
    match e
    case Act(t) =>
      (match Monitor.Next(s.mon, Monitor.Run(t))
       case None => None
       case Some(m) =>
         Some(if t < |s.workers| && s.mon.pc[t].PopUnlock?
              then Goto(s.(mon := m), t, Have(Some(s.mon.pc[t].result), |s.mon.returned|))
              else s.(mon := m)))
    case WakeSpuriously(t) =>
      (match Monitor.Next(s.mon, Monitor.Spurious(t))
       case None => None
       case Some(m) => Some(s.(mon := m)))
    case Enqueue(t, task) =>
      if t < |s.workers| then None
      else
        (match Monitor.Next(s.mon, Monitor.Call(t, Monitor.Push(task)))
         case None => None
         case Some(m) => Some(s.(mon := m)))
    case Step(i) => if i < |s.workers| then StepOf(s, i) else None
    case Return(i) =>
      if i < |s.workers| && s.workers[i].Running?
      then Some(Goto(s.(ended := s.ended + [s.workers[i].ticket]), i, Decrement(s.workers[i].ticket))) else None
    case CallJoin(j) =>
      if j < |s.joiners| && s.joiners[j].Outside? then Some(s.(joiners := s.joiners[j := Check])) else None
    case Join(j) => if j < |s.joiners| then JoinOf(s, j) else None
  }

  // ----- Invariant

  function IsHave(w: Worker): nat { if w.Have? then 1 else 0 }

  function IsRunning(w: Worker): nat { if w.Running? then 1 else 0 }

  function IsDecrement(w: Worker): nat { if w.Decrement? then 1 else 0 }

  /** A worker is inside the queue exactly while it pops; the other threads only push. */
  ghost predicate Roles(s: State) {
    && |s.workers| <= |s.mon.pc|
    && (forall i :: 0 <= i < |s.workers| ==>
          if s.workers[i].Popping? then Monitor.InPop(s.mon.pc[i]) else s.mon.pc[i].Idle?)
    && (forall t :: |s.workers| <= t < |s.mon.pc| ==> s.mon.pc[t].Idle? || Monitor.InPush(s.mon.pc[t]))
  }

  /** mFinished and the end of workers wait for each other. */
  ghost predicate Finishing(workers: seq<Worker>, joiners: seq<Joiner>, finished: bool) {
    && (finished ==> forall i :: 0 <= i < |workers| ==> workers[i].Exited?)
    && (workers != [] ==> !finished)
    && (forall i :: 0 <= i < |workers| ==> Sane(workers[i], finished))
    && (forall j :: 0 <= j < |joiners| && joiners[j].Joining? ==>
          forall i :: 0 <= i < joiners[j].next && i < |workers| ==> workers[i].Exited?)
  }

  /** A worker that has not called an empty function, and not ended before mFinished. */
  predicate Sane(w: Worker, finished: bool) {
    (w.Exited? ==> finished) && !w.Fault? && (w.Have? ==> w.task.Some?)
  }

  /** The ticket of a task that has left the queue and has not returned. */
  function TicketOf(w: Worker): Option<nat> {
    match w
    case Have(Some(_), k) => Some(k)
    case Running(_, k) => Some(k)
    case _ => None
  }

  /** Worker i holds only what the queue returned to it. */
  predicate HoldsOwn(returned: seq<(nat, Task)>, started: seq<nat>, ended: seq<nat>, i: nat, w: Worker) {
    match w
    case Have(Some(x), k) => k < |returned| && returned[k] == (i, x) && k !in started
    case Running(x, k) => k < |returned| && returned[k] == (i, x) && k in started && k !in ended
    case _ => true
  }

  /** The task with ticket k has returned, or is in the hands of the worker that popped it. */
  predicate Accounted(returned: seq<(nat, Task)>, workers: seq<Worker>, ended: seq<nat>, k: nat)
    requires k < |returned|
  {
    k in ended || (returned[k].0 < |workers| && TicketOf(workers[returned[k].0]) == Some(k))
  }

  /** Each task is started once, by the worker it was returned to. */
  ghost predicate Tickets(returned: seq<(nat, Task)>, workers: seq<Worker>, started: seq<nat>, ended: seq<nat>) {
    && (forall i :: 0 <= i < |workers| ==> HoldsOwn(returned, started, ended, i, workers[i]))
    && (forall k :: 0 <= k < |returned| ==> Accounted(returned, workers, ended, k))
    && (forall k :: k in started ==> k < |returned|)
    && (forall k :: k in ended ==> k in started)
    && (forall k, l :: 0 <= k < l < |started| ==> started[k] != started[l])
  }

  ghost predicate Counts(s: State) {
    && |s.mon.returned| == |s.started| + Sum(IsHave, s.workers)
    && |s.started| == |s.ended| + Sum(IsRunning, s.workers)
    && s.jobs == s.initialJobs - |s.ended| + Sum(IsDecrement, s.workers)
  }

  ghost predicate Inv(s: State) {
    Monitor.Inv(s.mon) && Roles(s) && Finishing(s.workers, s.joiners, s.finished) && Tickets(s.mon.returned, s.workers, s.started, s.ended) && Counts(s)
  }

  // ----- Preservation

  /** Replacing the program counter of one worker changes the counts by what it was and what it becomes. */
  lemma CountsUpdate(s: State, i: nat, w: Worker)
    requires i < |s.workers|
    ensures var v := s.workers[i := w];
            && Sum(IsHave, v) + IsHave(s.workers[i]) == Sum(IsHave, s.workers) + IsHave(w)
            && Sum(IsRunning, v) + IsRunning(s.workers[i]) == Sum(IsRunning, s.workers) + IsRunning(w)
            && Sum(IsDecrement, v) + IsDecrement(s.workers[i]) == Sum(IsDecrement, s.workers) + IsDecrement(w)
  {
    SumUpdate(IsHave, s.workers, i, w);
    SumUpdate(IsRunning, s.workers, i, w);
    SumUpdate(IsDecrement, s.workers, i, w);
  }

  /** Inside the queue, nothing changes for the workers but for the one whose pop returns. */
  lemma ActKeepsInv(s: State, s': State, t: nat)
    requires Inv(s) && Monitor.Inv(s'.mon) && Monitor.Effect(s.mon, s'.mon, t)
    requires !(t < |s.workers| && s.mon.pc[t].PopUnlock?) && s' == s.(mon := s'.mon)
    ensures Inv(s')
  {
    assert !s.mon.pc[t].PopUnlock?;
    assert s'.mon.returned == s.mon.returned;
  }

  /** A new ticket is larger than all before. */
  lemma TicketPopped(returned: seq<(nat, Task)>, workers: seq<Worker>, started: seq<nat>, ended: seq<nat>, i: nat, x: Task)
    requires Tickets(returned, workers, started, ended) && i < |workers| && TicketOf(workers[i]).None?
    ensures Tickets(returned + [(i, x)], workers[i := Have(Some(x), |returned|)], started, ended)
  {
    var returned', workers' := returned + [(i, x)], workers[i := Have(Some(x), |returned|)];
    forall k | 0 <= k < |returned'|
      ensures Accounted(returned', workers', ended, k)
    {
      assert k < |returned| ==> Accounted(returned, workers, ended, k);
    }
    forall j | 0 <= j < |workers|
      ensures HoldsOwn(returned', started, ended, j, workers'[j])
    {
      assert HoldsOwn(returned, started, ended, j, workers[j]);
    }
  }

  lemma TicketStarted(returned: seq<(nat, Task)>, workers: seq<Worker>, started: seq<nat>, ended: seq<nat>, i: nat,
                      x: Task, k: nat)
    requires Tickets(returned, workers, started, ended) && i < |workers| && workers[i] == Have(Some(x), k)
    ensures Tickets(returned, workers[i := Running(x, k)], started + [k], ended)
  {
    var workers' := workers[i := Running(x, k)];
    assert HoldsOwn(returned, started, ended, i, workers[i]);
    forall j | 0 <= j < |workers|
      ensures HoldsOwn(returned, started + [k], ended, j, workers'[j])
    {
      assert HoldsOwn(returned, started, ended, j, workers[j]);
    }
    forall l | 0 <= l < |returned|
      ensures Accounted(returned, workers', ended, l)
    {
      assert Accounted(returned, workers, ended, l);
    }
  }

  lemma TicketEnded(returned: seq<(nat, Task)>, workers: seq<Worker>, started: seq<nat>, ended: seq<nat>, i: nat,
                    x: Task, k: nat)
    requires Tickets(returned, workers, started, ended) && i < |workers| && workers[i] == Running(x, k)
    ensures Tickets(returned, workers[i := Decrement(k)], started, ended + [k])
  {
    var workers' := workers[i := Decrement(k)];
    assert HoldsOwn(returned, started, ended, i, workers[i]);
    forall j | 0 <= j < |workers|
      ensures HoldsOwn(returned, started, ended + [k], j, workers'[j])
    {
      assert HoldsOwn(returned, started, ended, j, workers[j]);
    }
    forall l | 0 <= l < |returned|
      ensures Accounted(returned, workers', ended + [k], l)
    {
      assert Accounted(returned, workers, ended, l);
    }
  }

  /** A worker without a ticket goes on without one. */
  lemma NoTicket(returned: seq<(nat, Task)>, workers: seq<Worker>, started: seq<nat>, ended: seq<nat>, i: nat, w: Worker)
    requires Tickets(returned, workers, started, ended) && i < |workers|
    requires TicketOf(workers[i]).None? && TicketOf(w).None?
    ensures Tickets(returned, workers[i := w], started, ended)
  {
    var workers' := workers[i := w];
    forall j | 0 <= j < |workers|
      ensures HoldsOwn(returned, started, ended, j, workers'[j])
    {
      assert HoldsOwn(returned, started, ended, j, workers[j]);
    }
    forall k | 0 <= k < |returned|
      ensures Accounted(returned, workers', ended, k)
    {
      assert Accounted(returned, workers, ended, k);
    }
  }

  lemma PopReturnsKeepsInv(s: State, s': State, t: nat)
    requires Inv(s) && Monitor.Inv(s'.mon) && Monitor.Effect(s.mon, s'.mon, t)
    requires t < |s.workers| && s.mon.pc[t].PopUnlock?
    requires s' == Goto(s.(mon := s'.mon), t, Have(Some(s.mon.pc[t].result), |s.mon.returned|))
    ensures Inv(s')
  {
    CountsUpdate(s, t, Have(Some(s.mon.pc[t].result), |s.mon.returned|));
    TicketPopped(s.mon.returned, s.workers, s.started, s.ended, t, s.mon.pc[t].result);
    FinishingStays(s.workers, s.joiners, s.finished, t, s'.workers[t]);
  }

  /** A worker that goes on, neither at its end nor at fault, does not bear on mFinished. */
  lemma FinishingStays(workers: seq<Worker>, joiners: seq<Joiner>, finished: bool, i: nat, w: Worker)
    requires Finishing(workers, joiners, finished) && i < |workers| && !workers[i].Exited?
    requires !w.Exited? && Sane(w, finished)
    ensures Finishing(workers[i := w], joiners, finished)
  {
  }

  lemma {:induction false} CallKeepsInv(s: State, s': State, t: nat, op: Monitor.Op<Task>)
    requires Inv(s) && Monitor.Inv(s'.mon) && Monitor.Called(s.mon, s'.mon, t, op)
    requires if t < |s.workers| then op.Pop? && s.workers[t].NextTest? && s' == Goto(s.(mon := s'.mon), t, Popping)
             else op.Push? && s' == s.(mon := s'.mon)
    ensures Inv(s')
  {
    if t < |s.workers| {
      CountsUpdate(s, t, Popping);
      NoTicket(s.mon.returned, s.workers, s.started, s.ended, t, Popping);
      FinishingStays(s.workers, s.joiners, s.finished, t, s'.workers[t]);
    }
  }

  lemma WakeKeepsInv(s: State, s': State, t: nat)
    requires Inv(s) && Monitor.Inv(s'.mon) && t < |s.mon.pc| && s.mon.pc[t].Sleeping?
    requires s' == s.(mon := Monitor.Goto(s.mon, t, Monitor.Woken))
    ensures Inv(s')
  {
  }

  lemma LoopKeepsInv(s: State, s': State, i: nat)
    requires Inv(s) && i < |s.workers| && s.workers[i].LoopTest?
    requires s' == Goto(s, i, if s.finished then Exited else NextTest)
    ensures Inv(s')
  {
    CountsUpdate(s, i, s'.workers[i]);
    NoTicket(s.mon.returned, s.workers, s.started, s.ended, i, s'.workers[i]);
    assert !s.finished;
    FinishingStays(s.workers, s.joiners, s.finished, i, s'.workers[i]);
  }

  lemma StartKeepsInv(s: State, s': State, i: nat, x: Task, k: nat)
    requires Inv(s) && i < |s.workers| && s.workers[i] == Have(Some(x), k)
    requires s' == Goto(s.(started := s.started + [k]), i, Running(x, k))
    ensures Inv(s')
  {
    CountsUpdate(s, i, Running(x, k));
    TicketStarted(s.mon.returned, s.workers, s.started, s.ended, i, x, k);
    FinishingStays(s.workers, s.joiners, s.finished, i, s'.workers[i]);
  }

  lemma DecrementKeepsInv(s: State, s': State, i: nat)
    requires Inv(s) && i < |s.workers| && s.workers[i].Decrement?
    requires s' == Goto(s.(jobs := s.jobs - 1), i, LoopTest)
    ensures Inv(s')
  {
    CountsUpdate(s, i, LoopTest);
    NoTicket(s.mon.returned, s.workers, s.started, s.ended, i, LoopTest);
    FinishingStays(s.workers, s.joiners, s.finished, i, s'.workers[i]);
  }

  lemma ReturnKeepsInv(s: State, s': State, i: nat)
    requires Inv(s) && i < |s.workers| && s.workers[i].Running?
    requires s' == Goto(s.(ended := s.ended + [s.workers[i].ticket]), i, Decrement(s.workers[i].ticket))
    ensures Inv(s')
  {
    var k := s.workers[i].ticket;
    CountsUpdate(s, i, Decrement(k));
    TicketEnded(s.mon.returned, s.workers, s.started, s.ended, i, s.workers[i].work, k);
    FinishingStays(s.workers, s.joiners, s.finished, i, s'.workers[i]);
  }

  /** The store in JoinAll comes after all joins, and a joined worker has seen mFinished. */
  lemma JoinKeepsFinishing(s: State, j: nat)
    requires Finishing(s.workers, s.joiners, s.finished) && j < |s.joiners| && JoinOf(s, j).Some?
    ensures var s' := JoinOf(s, j).value; Finishing(s'.workers, s'.joiners, s'.finished)
  {
    if s.workers != [] {
      assert Sane(s.workers[0], s.finished);
    }
  }

  lemma CallJoinKeepsFinishing(s: State, j: nat)
    requires Finishing(s.workers, s.joiners, s.finished) && j < |s.joiners|
    ensures Finishing(s.workers, s.joiners[j := Check], s.finished)
  {
  }

  lemma JoinTouches(s: State, e: Event)
    requires Next(s, e).Some? && (e.Join? || e.CallJoin?)
    ensures var s' := Next(s, e).value; s' == s.(joiners := s'.joiners, finished := s'.finished)
  {
  }

  lemma JoinKeepsInv(s: State, e: Event)
    requires Inv(s) && Next(s, e).Some? && (e.Join? || e.CallJoin?)
    ensures Inv(Next(s, e).value)
  {
    JoinTouches(s, e);
    if e.Join? {
      JoinKeepsFinishing(s, e.j);
    } else {
      CallJoinKeepsFinishing(s, e.j);
    }
  }

  lemma {:induction false} InsideKeepsInv(s: State, e: Event)
    requires Inv(s) && Next(s, e).Some? && (e.Act? || e.WakeSpuriously? || e.Enqueue?)
    ensures Inv(Next(s, e).value)
  {
    var s' := Next(s, e).value;
    match e
    case Act(t) =>
      Monitor.StepKeepsInv(s.mon, Monitor.Run(t));
      Monitor.ActEffect(s.mon, t);
      if t < |s.workers| && s.mon.pc[t].PopUnlock? {
        PopReturnsKeepsInv(s, s', t);
      } else {
        ActKeepsInv(s, s', t);
      }
    case WakeSpuriously(t) =>
      Monitor.StepKeepsInv(s.mon, Monitor.Spurious(t));
      WakeKeepsInv(s, s', t);
    case Enqueue(t, task) =>
      Monitor.StepKeepsInv(s.mon, Monitor.Call(t, Monitor.Push(task)));
      CallKeepsInv(s, s', t, Monitor.Push(task));
  }

  lemma {:induction false} WorkerKeepsInv(s: State, i: nat)
    requires Inv(s) && i < |s.workers| && StepOf(s, i).Some?
    ensures Inv(StepOf(s, i).value)
  {
    var s' := StepOf(s, i).value;
    match s.workers[i]
    case LoopTest => LoopKeepsInv(s, s', i);
    case NextTest =>
      Monitor.StepKeepsInv(s.mon, Monitor.Call(i, Monitor.Pop));
      CallKeepsInv(s, s', i, Monitor.Pop);
    case Have(task, k) => StartKeepsInv(s, s', i, task.value, k);
    case Decrement(_) => DecrementKeepsInv(s, s', i);
  }

  lemma {:induction false} StepKeepsInv(s: State, e: Event)
    requires Inv(s) && Next(s, e).Some?
    ensures Inv(Next(s, e).value)
  {
    match e
    case Act(_) => InsideKeepsInv(s, e);
    case WakeSpuriously(_) => InsideKeepsInv(s, e);
    case Enqueue(_, _) => InsideKeepsInv(s, e);
    case Step(i) => WorkerKeepsInv(s, i);
    case Return(i) => ReturnKeepsInv(s, Next(s, e).value, i);
    case _ => JoinKeepsInv(s, e);
  }

  lemma {:induction false} SumZero(w: Worker -> nat, workers: seq<Worker>)
    requires forall i :: 0 <= i < |workers| ==> w(workers[i]) == 0
    ensures Sum(w, workers) == 0
  {
    if workers != [] {
      SumZero(w, workers[..|workers| - 1]);
    }
  }

  lemma InitInv(workers: nat, enqueuers: nat, joiners: nat, jobs: int)
    ensures Inv(Init(workers, enqueuers, joiners, jobs))
  {
    var s := Init(workers, enqueuers, joiners, jobs);
    SumZero(IsHave, s.workers);
    SumZero(IsRunning, s.workers);
    SumZero(IsDecrement, s.workers);
    Monitor.InitInv<Task>(workers + enqueuers);
  }

  lemma SizesStay(s: State, e: Event)
    requires Next(s, e).Some?
    ensures |Next(s, e).value.workers| == |s.workers| && |Next(s, e).value.mon.pc| == |s.mon.pc|
    ensures Next(s, e).value.initialJobs == s.initialJobs
  {
  }

  /** Every schedule keeps the invariant. */
  lemma {:induction false} Reachable(workers: nat, enqueuers: nat, joiners: nat, jobs: int, es: seq<Event>)
    requires Exec(Next, Init(workers, enqueuers, joiners, jobs), es).Some?
    ensures var s := Exec(Next, Init(workers, enqueuers, joiners, jobs), es).value;
            Inv(s) && |s.workers| == workers && s.initialJobs == jobs
  {
    forall m: State, e: Event | Inv(m) && |m.workers| == workers && m.initialJobs == jobs && Next(m, e).Some?
      ensures Inv(Next(m, e).value) && |Next(m, e).value.workers| == workers && Next(m, e).value.initialJobs == jobs
    {
      StepKeepsInv(m, e);
      SizesStay(m, e);
    }
    InitInv(workers, enqueuers, joiners, jobs);
    Invariance(Next, m => Inv(m) && |m.workers| == workers && m.initialJobs == jobs,
               Init(workers, enqueuers, joiners, jobs), es);
  }

  // ----- Safety over all runs

  /** The task that worker i runs is the one its ticket stands for, the queue returned it to this very worker, and it
      has been started and has not returned. */
  predicate RunsItsTask(s: State, i: nat)
    requires i < |s.workers| && s.workers[i].Running?
  {
    var Running(x, k) := s.workers[i];
    k < |s.mon.returned| && s.mon.returned[k] == (i, x) && k < |s.mon.pushed| && s.mon.pushed[k] == x
    && k in s.started && k !in s.ended
  }

  lemma RunningIsOwn(s: State, i: nat)
    requires Inv(s) && i < |s.workers| && s.workers[i].Running?
    ensures RunsItsTask(s, i)
  {
    assert HoldsOwn(s.mon.returned, s.started, s.ended, i, s.workers[i]);
    ReturnedIsPushed(s.mon, s.workers[i].ticket);
  }

  lemma ReturnedIsPushed(mon: Monitor.State<Task>, k: nat)
    requires Monitor.Inv(mon) && k < |mon.returned|
    ensures k < |mon.pushed| && mon.returned[k].1 == mon.pushed[k]
  {
    assert Monitor.Results(mon)[k] == mon.returned[k].1;
  }

  /** Tasks leave the queue in the order in which they were enqueued. What has left has returned, or is in the hands of
      the worker that popped it, which runs it or is about to; each is started at most once; at most as many tasks run
      as there are workers. */
  lemma TasksConserved(workers: nat, enqueuers: nat, joiners: nat, jobs: int, es: seq<Event>)
    requires Exec(Next, Init(workers, enqueuers, joiners, jobs), es).Some?
    ensures var s := Exec(Next, Init(workers, enqueuers, joiners, jobs), es).value;
            && s.mon.pushed == Monitor.Results(s.mon) + Monitor.InHand(s.mon) + s.mon.queue
            && (forall i :: 0 <= i < |s.workers| && s.workers[i].Running? ==> RunsItsTask(s, i))
            && (forall k :: 0 <= k < |s.mon.returned| ==> Accounted(s.mon.returned, s.workers, s.ended, k))
            && (forall k, l :: 0 <= k < l < |s.started| ==> s.started[k] != s.started[l])
            && |s.mon.returned| == |s.started| + Sum(IsHave, s.workers)
            && |s.started| - |s.ended| == Sum(IsRunning, s.workers) <= workers
  {
    Reachable(workers, enqueuers, joiners, jobs, es);
    var s := Exec(Next, Init(workers, enqueuers, joiners, jobs), es).value;
    SumBound(IsRunning, s.workers, 1);
    forall i | 0 <= i < |s.workers| && s.workers[i].Running?
      ensures RunsItsTask(s, i)
    {
      RunningIsOwn(s, i);
    }
  }

  /** mJobsRemaining is its initial value less completed tasks, a task counting as completed once its worker has
      done the decrement. */
  lemma JobsCounted(workers: nat, enqueuers: nat, joiners: nat, jobs: int, es: seq<Event>)
    requires Exec(Next, Init(workers, enqueuers, joiners, jobs), es).Some?
    ensures var s := Exec(Next, Init(workers, enqueuers, joiners, jobs), es).value;
            s.jobs == jobs - (|s.ended| - Sum(IsDecrement, s.workers))
  {
    Reachable(workers, enqueuers, joiners, jobs, es);
  }

  /** mFinished means that no worker lives. So a pool that has a worker never finishes: JoinAll waits for the workers,
      and the workers wait for mFinished. And no worker calls the empty function nextTask may return. */
  lemma {:induction false} NeverFinishes(workers: nat, enqueuers: nat, joiners: nat, jobs: int, es: seq<Event>)
    requires Exec(Next, Init(workers, enqueuers, joiners, jobs), es).Some?
    ensures var s := Exec(Next, Init(workers, enqueuers, joiners, jobs), es).value;
            && |s.workers| == workers
            && (s.finished ==> forall i :: 0 <= i < workers ==> s.workers[i].Exited?)
            && (workers > 0 ==> !s.finished && forall i :: 0 <= i < workers ==> !s.workers[i].Exited?)
            && (forall i :: 0 <= i < workers ==> !s.workers[i].Fault? && (s.workers[i].Have? ==> s.workers[i].task.Some?))
            && (workers > 0 ==> forall j :: 0 <= j < |s.joiners| && s.joiners[j].Joining? ==> s.joiners[j].next == 0)
  {
    Reachable(workers, enqueuers, joiners, jobs, es);
    var s := Exec(Next, Init(workers, enqueuers, joiners, jobs), es).value;
    NobodyExits(s.workers, s.joiners, s.finished);
  }

  /** JoinAll with nobody to join. */
  function JoinNobody(): seq<Event> {
    [CallJoin(0), Join(0), Join(0)]
  }

  lemma FinishesWithoutWorkers(enqueuers: nat, joiners: nat, jobs: int)
    requires joiners > 0
    ensures Exec(Next, Init(0, enqueuers, joiners, jobs), JoinNobody()).Some?
    ensures Exec(Next, Init(0, enqueuers, joiners, jobs), JoinNobody()).value.finished
  {
    var s := Init(0, enqueuers, joiners, jobs);
    var called := s.(joiners := s.joiners[0 := Check]);
    var joining := called.(joiners := called.joiners[0 := Joining(0)]);
    var done := joining.(joiners := joining.joiners[0 := Done], finished := true);
    ThreeEvents(Next, s, CallJoin(0), called, Join(0), joining, Join(0), done);
  }

  /** Without JoinAll nobody sets mFinished. */
  lemma FinishesByJoinAll(workers: nat, enqueuers: nat, jobs: int, es: seq<Event>)
    ensures !CanFinish(workers, enqueuers, 0, jobs, es)
  {
    Invariance(Next, (m: State) => m.joiners == [] && !m.finished, Init(workers, enqueuers, 0, jobs), es);
  }

  /** Exactly when a pool can finish: when it has no worker, and somebody to call JoinAll. */
  lemma {:induction false} FinishesIff(workers: nat, enqueuers: nat, joiners: nat, jobs: int)
    ensures (exists es :: CanFinish(workers, enqueuers, joiners, jobs, es)) <==> workers == 0 && joiners > 0
  {
    if joiners == 0 {
      forall es
        ensures !CanFinish(workers, enqueuers, joiners, jobs, es)
      {
        FinishesByJoinAll(workers, enqueuers, jobs, es);
      }
    } else if workers == 0 {
      FinishesWithoutWorkers(enqueuers, joiners, jobs);
      assert CanFinish(workers, enqueuers, joiners, jobs, JoinNobody());
    } else {
      forall es | Exec(Next, Init(workers, enqueuers, joiners, jobs), es).Some?
        ensures !CanFinish(workers, enqueuers, joiners, jobs, es)
      {
        NeverFinishes(workers, enqueuers, joiners, jobs, es);
      }
    }
  }

  /** The schedule ends with mFinished set. */
  predicate CanFinish(workers: nat, enqueuers: nat, joiners: nat, jobs: int, es: seq<Event>) {
    Exec(Next, Init(workers, enqueuers, joiners, jobs), es).Some?
    && Exec(Next, Init(workers, enqueuers, joiners, jobs), es).value.finished
  }

  lemma NobodyExits(workers: seq<Worker>, joiners: seq<Joiner>, finished: bool)
    requires Finishing(workers, joiners, finished)
    ensures forall i :: 0 <= i < |workers| ==>
              !workers[i].Exited? && !workers[i].Fault? && (workers[i].Have? ==> workers[i].task.Some?)
    ensures workers != [] ==> !finished && forall j :: 0 <= j < |joiners| && joiners[j].Joining? ==> joiners[j].next == 0
  {
    forall i | 0 <= i < |workers|
      ensures !workers[i].Exited? && !workers[i].Fault? && (workers[i].Have? ==> workers[i].task.Some?)
    {
      assert Sane(workers[i], finished);
    }
    if workers != [] {
      assert !workers[0].Exited?;
    }
  }

  // ----- No starvation

  /** Neither running a task nor about to. */
  predicate Free(w: Worker) {
    w.LoopTest? || w.NextTest? || w.Popping?
  }

  function IsBusy(w: Worker): nat { if w.Have? || w.Running? then 1 else 0 }

  lemma {:induction false} BusySum(workers: seq<Worker>)
    ensures Sum(IsBusy, workers) == Sum(IsHave, workers) + Sum(IsRunning, workers)
  {
    if workers != [] {
      BusySum(workers[..|workers| - 1]);
    }
  }

  /** While tasks never return and no more were enqueued than there are workers, a queued task finds a free worker. */
  lemma SomeWorkerFree(s: State)
    requires Inv(s) && s.ended == [] && |s.mon.pushed| <= |s.workers| && s.mon.queue != []
    requires forall i :: 0 <= i < |s.workers| ==> !s.workers[i].Decrement?
    ensures exists i :: 0 <= i < |s.workers| && Free(s.workers[i])
  {
    assert |s.mon.pushed| >= |s.mon.returned| + |s.mon.queue|;
    if forall i :: 0 <= i < |s.workers| ==> !Free(s.workers[i]) {
      forall w | w in s.workers
        ensures 1 <= IsBusy(w)
      {
        assert !w.Exited?;
      }
      SumAtLeast(IsBusy, s.workers);
      BusySum(s.workers);
    }
  }

  /** The actions of the pool's own threads; a task that returns, a new task, JoinAll and spurious wakeups are not
      among them. */
  predicate Own(e: Event) {
    e.Act? || e.Step?
  }

  function Weight(w: Worker): nat {
    match w
    case Decrement(_) => 10
    case LoopTest => 9
    case NextTest => 8
    case Popping => 2
    case Have(_, _) => 1
    case _ => 0
  }

  function Measure(s: State): nat {
    Monitor.Measure(s.mon) + Sum(Weight, s.workers)
  }

  lemma CallRaisesMeasure(s: State, t: nat)
    requires t < |s.mon.pc| && s.mon.pc[t].Idle?
    ensures Monitor.Measure(Monitor.Goto(s.mon, t, Monitor.PopLock)) == Monitor.Measure(s.mon) + 5
  {
    SumUpdate(Monitor.Pending, s.mon.pc, t, Monitor.PopLock);
    SumUpdate(Monitor.Weight, s.mon.pc, t, Monitor.PopLock);
  }

  lemma ActLowersMeasure(s: State, t: nat)
    requires Next(s, Act(t)).Some? && Roles(s)
    ensures Measure(Next(s, Act(t)).value) < Measure(s)
  {
    var s' := Next(s, Act(t)).value;
    Monitor.RunLowersMeasure(s.mon, t);
    if t < |s.workers| && s.mon.pc[t].PopUnlock? {
      SumUpdate(Weight, s.workers, t, s'.workers[t]);
    }
  }

  lemma StepLowersMeasure(s: State, i: nat)
    requires Next(s, Step(i)).Some?
    ensures Measure(Next(s, Step(i)).value) < Measure(s)
  {
    var s' := Next(s, Step(i)).value;
    SumUpdate(Weight, s.workers, i, s'.workers[i]);
    if s.workers[i].NextTest? && !s.finished {
      CallRaisesMeasure(s, i);
    }
  }

  lemma OwnLowersMeasure(s: State, e: Event)
    requires Inv(s) && Own(e) && Next(s, e).Some?
    ensures Measure(Next(s, e).value) < Measure(s)
  {
    match e
    case Act(t) => ActLowersMeasure(s, t);
    case Step(i) => StepLowersMeasure(s, i);
  }

  /** The pool's own threads have nothing left to do. */
  ghost predicate Quiet(s: State) {
    forall e :: Own(e) ==> Next(s, e).None?
  }

  lemma QuietThreads(s: State)
    requires Inv(s) && Quiet(s)
    ensures forall t :: 0 <= t < |s.mon.pc| ==> Monitor.Advance(s.mon, t).None?
    ensures s.workers != [] ==> forall i :: 0 <= i < |s.workers| ==> s.workers[i].Popping? || s.workers[i].Running?
  {
    forall t | 0 <= t < |s.mon.pc|
      ensures Monitor.Advance(s.mon, t).None?
    {
      assert Own(Act(t)) && Next(s, Act(t)).None?;
    }
    if s.workers != [] {
      forall i | 0 <= i < |s.workers|
        ensures s.workers[i].Popping? || s.workers[i].Running?
      {
        assert Own(Step(i)) && Next(s, Step(i)).None?;
      }
    }
  }

  /** Then every enqueued task has been started, if tasks never return and there are enough workers. */
  lemma QuietMeansStarted(s: State)
    requires Inv(s) && Quiet(s) && s.workers != []
    requires s.ended == [] && |s.mon.pushed| <= |s.workers|
    ensures s.mon.queue == [] && |s.started| == |s.mon.pushed| == |s.mon.returned|
  {
    QuietThreads(s);
    Monitor.QuietMeansServed(s.mon);
    if s.mon.queue != [] {
      SomeWorkerFree(s);
    }
    SumZero(IsHave, s.workers);
    assert s.mon.pushed == Monitor.Results(s.mon) + [] + [];
  }

  /** Some worker runs the k-th task enqueued. */
  ghost predicate IsRun(s: State, k: nat)
    requires k < |s.mon.pushed|
  {
    exists i :: 0 <= i < |s.workers| && s.workers[i] == Running(s.mon.pushed[k], k)
  }

  /** Then each of them is running. */
  lemma QuietMeansRunning(s: State, k: nat)
    requires Inv(s) && Quiet(s) && s.workers != [] && k < |s.mon.pushed|
    requires s.ended == [] && |s.mon.pushed| <= |s.workers|
    ensures IsRun(s, k)
  {
    QuietMeansStarted(s);
    QuietThreads(s);
    assert Accounted(s.mon.returned, s.workers, s.ended, k);
    var i := s.mon.returned[k].0;
    RunningIsOwn(s, i);
    assert s.workers[i] == Running(s.mon.pushed[k], k);
  }

  /** Endless tasks are not starved: from any reachable state in which at most as many tasks were enqueued as there
      are workers, the pool's threads, however scheduled, do at most Measure actions before they fall quiet, and when
      they do every enqueued task is running. */
  lemma {:induction false} EveryTaskStarts(workers: nat, enqueuers: nat, joiners: nat, jobs: int, es: seq<Event>, own: seq<Event>)
    requires workers > 0 && Exec(Next, Init(workers, enqueuers, joiners, jobs), es).Some?
    requires forall e :: e in own ==> Own(e)
    requires Exec(Next, Exec(Next, Init(workers, enqueuers, joiners, jobs), es).value, own).Some?
    ensures |own| <= Measure(Exec(Next, Init(workers, enqueuers, joiners, jobs), es).value)
    ensures var q := Exec(Next, Exec(Next, Init(workers, enqueuers, joiners, jobs), es).value, own).value;
            Quiet(q) && q.ended == [] && |q.mon.pushed| <= workers ==>
              q.mon.queue == [] && Sum(IsRunning, q.workers) == |q.mon.pushed|
              && forall k :: 0 <= k < |q.mon.pushed| ==> IsRun(q, k)
  {
    Reachable(workers, enqueuers, joiners, jobs, es);
    var s := Exec(Next, Init(workers, enqueuers, joiners, jobs), es).value;
    var inv := (m: State) => Inv(m) && |m.workers| == workers;
    forall m: State, e: Event | inv(m) && Own(e) && Next(m, e).Some?
      ensures inv(Next(m, e).value) && Measure(Next(m, e).value) < Measure(m)
    {
      StepKeepsInv(m, e);
      SizesStay(m, e);
      OwnLowersMeasure(m, e);
    }
    Bounded(Next, inv, Own, Own, Measure, s, own);
    FilterAll(Own, own);
    var q := Exec(Next, s, own).value;
    if Quiet(q) && q.ended == [] && |q.mon.pushed| <= workers {
      QuietMeansStarted(q);
      forall k | 0 <= k < |q.mon.pushed|
        ensures IsRun(q, k)
      {
        QuietMeansRunning(q, k);
      }
      SumZeroHave(q);
    }
  }

  /** In a quiet pool no worker is about to start a task. */
  lemma SumZeroHave(s: State)
    requires Inv(s) && Quiet(s) && s.workers != []
    ensures Sum(IsHave, s.workers) == 0
  {
    QuietThreads(s);
    SumZero(IsHave, s.workers);
  }
}
