/** The ServerManager: what it enqueues, and what each of its threads does when no other thread interferes. */
module Server {
  import opened Seqs
  import opened Runs
  import opened Bytes
  import opened Packets
  import opened ConcurrentQueue
  import opened Clients
  import Monitor
  import Pipeline
  import Pool

  datatype ServerTask = GetConnections | SendTask | WorkerThread

  const UINT_MODULUS := 0x1_0000_0000

  /** The bound of the loop in listen, in unsigned arithmetic. */
  function Limit(h: uint32): uint32 {
    (2 * h as int - 2) % UINT_MODULUS
  }

  function WorkerTasks(h: uint32): nat {
    if Limit(h) > 2 then Limit(h) - 2 else 0
  }

  function Repeat(t: ServerTask, n: nat): seq<ServerTask> {
    seq(n, i => t)
  }

  /** What listen enqueues. */
  function ListenTasks(h: uint32): seq<ServerTask> {
    [GetConnections, SendTask] + Repeat(WorkerThread, WorkerTasks(h))
  }

  class ServerManager {
    var mSockets: map<nat, Client>
    const mSendQueue: Queue<ClientPacket>
    const tasks: Queue<ServerTask>        // the queue of the thread pool
    var notifications: nat                // calls of mSendCondition.notify_all

    constructor (sendQueue: Queue<ClientPacket>, tasks: Queue<ServerTask>)
      ensures mSendQueue == sendQueue && this.tasks == tasks && mSockets == map[] && notifications == 0
    {
      mSendQueue, this.tasks, mSockets, notifications := sendQueue, tasks, map[], 0;
    }

    /** The part of listen that enqueues tasks, h being the hardware concurrency. */
    method Listen(h: uint32)
      modifies tasks
      ensures tasks.mQueue == old(tasks.mQueue) + ListenTasks(h)
      ensures var n, more := |old(tasks.mQueue)|, if h > 2 then 2 * h as int - 4 else 0;
              1 <= h < 0x4000_0000 ==>
                && |tasks.mQueue| == n + 2 + more && tasks.mQueue[..n] == old(tasks.mQueue)
                && tasks.mQueue[n] == GetConnections && tasks.mQueue[n + 1] == SendTask
                && forall k :: n + 2 <= k < n + 2 + more ==> tasks.mQueue[k] == WorkerThread
    {
      tasks.Push(GetConnections);
      tasks.Push(SendTask);
      ghost var before := tasks.mQueue;
      var i: nat := 2;
      while i < Limit(h)
        invariant 2 <= i && (i == 2 || i <= Limit(h))
        invariant tasks.mQueue == before + Repeat(WorkerThread, i - 2)
      {
        tasks.Push(WorkerThread);
        i := i + 1;
      }
    }

    /** acceptConnection; handle says whether the socket could be associated with the completion port. The key is the
        address of the new client, so it is not in the map yet. */
    method AcceptConnection(key: nat, client: Client, handle: bool)
      requires key !in mSockets
      modifies this, client
      ensures mSockets == (if handle then old(mSockets)[key := client] else old(mSockets))
      ensures notifications == old(notifications)
      ensures client.State() == if handle then PostRead(Store(old(client.State()), READ)) else old(client.State())
      ensures handle ==> client.mState == READ && client.postedReads == old(client.postedReads) + 1
    {
      if handle {
        mSockets := mSockets[key := client];
        client.BeginRead();
      }
    }

    method RemoveConnection(key: nat)
      modifies this
      ensures mSockets == old(mSockets) - {key} && notifications == old(notifications)
    {
      if key in mSockets {
        mSockets := map k | k in mSockets && k != key :: mSockets[k];
      }
    }

    /** One round of workerThread with the completion it dequeues. A good completion of a client in the map is
        dispatched, which posts one read, and one more if mState was READ; any other posts none. */
    method WorkerRound(key: nat, status: bool, bytesTransferred: nat)
      modifies this, if key in mSockets then {mSockets[key]} else {}
      ensures key !in old(mSockets) ==> mSockets == old(mSockets) && notifications == old(notifications)
      ensures key in old(mSockets) && (!status || bytesTransferred == 0) ==>
                mSockets == old(mSockets) - {key} && notifications == old(notifications)
                && unchanged(old(mSockets)[key])
      ensures key in old(mSockets) && status && bytesTransferred > 0 ==>
                var client, was := old(mSockets)[key], old(mSockets[key].mState);
                && mSockets == old(mSockets) && notifications == old(notifications) + 1
                && client.State() == DispatchIo(old(mSockets[key].State()))
                && client.mState == READ
                && client.postedReads == old(mSockets[key].postedReads) + (if was == READ then 2 else 1)
                && client.received == old(mSockets[key].received) + (if was == READ then [bytesTransferred] else [])
                && client.completedSends == old(mSockets[key].completedSends) + (if was == SEND then 1 else 0)
    {
      if key in mSockets {
        var client := mSockets[key];
        if !status || bytesTransferred == 0 {
          RemoveConnection(key);
        } else {
          client.BeginIOEvent(bytesTransferred);
          client.BeginRead();
          notifications := notifications + 1;
        }
      }
    }

    /** One round of sendTask up to the wait; clientPtr is the result of client.lock(). What BeginSend is given is what
        the machine of the send pipeline puts on the wire. */
    method SendRound(clientPtr: Client?) returns (sent: bool)
      requires mSendQueue.mQueue != [] && mSendQueue.mQueue[0].packet.Valid()
      requires clientPtr as object? != mSendQueue
      modifies mSendQueue, clientPtr
      ensures old(mSendQueue.mQueue) == [old(mSendQueue.mQueue[0])] + mSendQueue.mQueue
      ensures sent == (old(mSendQueue.mQueue[0]).packet.kind != 0 && clientPtr != null)
      ensures sent ==> clientPtr.posted == old(clientPtr.posted) + [Pipeline.Buffer(old(mSendQueue.mQueue[0]).packet)]
                       && clientPtr.State() == PostSend(Store(old(clientPtr.State()), SEND)) && clientPtr.mState == SEND
      ensures !sent && clientPtr != null ==> unchanged(clientPtr)
    {
      sent := false;
      var clientPacket := mSendQueue.Pop();
      var item := clientPacket.packet;
      if item.kind != INVALID {
        var data := Serialize(item);
        if clientPtr != null {
          assert data[..data.Length] == data[..] == Pipeline.Buffer(item);
          clientPtr.BeginSend(data, data.Length);
          sent := true;
        }
      }
    }
  }

  /** The class and the machine of all threads agree on a round: from equal mState and operations, with the client in
      the map, an undisturbed worker of the machine leaves what WorkerRound leaves, and removes the client when it
      does; mState alone decides which handler is called. */
  lemma {:induction false} RoundsAgree(s: Clients.State, i: nat, status: bool, bytesTransferred: nat)
    requires i < |s.workers| && s.workers[i] == Clients.Got(status && bytesTransferred > 0) && s.inMap && IoSet(s.io)
    ensures var good := status && bytesTransferred > 0;
            var q := Exec(Clients.Next, s, Clients.Steps(i, Clients.RoundLength(s, good)));
            && q.Some? && q.value.workers == s.workers[i := Clients.Dequeueing]
            && (good ==> && q.value.io == DispatchIo(s.io) && q.value.inMap
                         && q.value.readDispatches == s.readDispatches + (if s.io.mState == READ then 1 else 0)
                         && q.value.sendDispatches == s.sendDispatches + (if s.io.mState == SEND then 1 else 0))
            && (!good ==> q.value.io == s.io && !q.value.inMap)
  {
    Clients.UndisturbedRound(s, i, status && bytesTransferred > 0);
  }

  /** For h >= 1 listen enqueues 2 + max(0, 2h - 4) tasks, no more than the 2h threads of the pool. For h = 0, which
      the standard allows, the bound wraps: a pool without threads is given 2^32 - 2 tasks. */
  lemma {:induction false} TaskCount(h: uint32)
    requires h < 0x4000_0000
    ensures h >= 1 ==> WorkerTasks(h) == (if h > 2 then 2 * h as int - 4 else 0) && 2 + WorkerTasks(h) <= 2 * h as int
    ensures h == 0 ==> 2 + WorkerTasks(h) == UINT_MODULUS - 2
  {
  }

  // ----- listen and the pool

  /** A task as the pool knows it. */
  function Code(t: ServerTask): Pool.Task {
    match t
    case GetConnections => 0
    case SendTask => 1
    case WorkerThread => 2
  }

  /** Thread t calls EnqueueTask and pushes the task. */
  function EnqueueRound(t: nat, x: Pool.Task): seq<Pool.Event> {
    [Pool.Enqueue(t, x)] + seq(4, i => Pool.Act(t))
  }

  /** The pool with more tasks in its queue. */
  function WithTasks(s: Pool.State, xs: seq<Pool.Task>): Pool.State {
    s.(mon := s.mon.(queue := s.mon.queue + xs, pushed := s.mon.pushed + xs))
  }

  predicate AllIdle(mon: Monitor.State<Pool.Task>) {
    mon.owner.None? && forall t :: 0 <= t < |mon.pc| ==> mon.pc[t].Idle?
  }

  lemma EnqueueNow(s: Pool.State, t: nat, x: Pool.Task)
    requires AllIdle(s.mon) && |s.workers| <= t < |s.mon.pc|
    ensures Exec(Pool.Next, s, EnqueueRound(t, x)) == Some(WithTasks(s, [x]))
  {
    var ms := PushTrace(s.mon, t, x);
    var ps := seq(6, i requires 0 <= i < 6 => s.(mon := ms[i]));
    forall i | 0 <= i < 5
      ensures Pool.Next(ps[i], EnqueueRound(t, x)[i]) == Some(ps[i + 1])
    {
      assert Monitor.Next(ms[i], Undisturbed(t, Monitor.Push(x), 4)[i]) == Some(ms[i + 1]);
    }
    TraceExec(Pool.Next, ps, EnqueueRound(t, x));
    assert Monitor.WakeAll(s.mon.pc) == s.mon.pc;
  }

  /** The events by which thread t enqueues tasks one after the other. */
  function EnqueueAll(t: nat, xs: seq<Pool.Task>): seq<Pool.Event> {
    if xs == [] then [] else EnqueueAll(t, xs[..|xs| - 1]) + EnqueueRound(t, xs[|xs| - 1])
  }

  /** Undisturbed, the thread of listen gives the pool exactly the tasks of ListenTasks, in this order. */
  lemma {:induction false} Enqueues(s: Pool.State, t: nat, xs: seq<Pool.Task>)
    requires AllIdle(s.mon) && |s.workers| <= t < |s.mon.pc|
    ensures Exec(Pool.Next, s, EnqueueAll(t, xs)) == Some(WithTasks(s, xs))
  {
    if xs == [] {
      assert s.mon.queue + [] == s.mon.queue && s.mon.pushed + [] == s.mon.pushed;
    } else {
      var n := |xs| - 1;
      Enqueues(s, t, xs[..n]);
      EnqueueNow(WithTasks(s, xs[..n]), t, xs[n]);
      ExecConcat(Pool.Next, s, EnqueueAll(t, xs[..n]), EnqueueRound(t, xs[n]));
      assert xs == xs[..n] + [xs[n]];
      assert (s.mon.queue + xs[..n]) + [xs[n]] == s.mon.queue + xs && (s.mon.pushed + xs[..n]) + [xs[n]] == s.mon.pushed + xs;
    }
  }

  /** The state of the pool once listen has enqueued its tasks, before any of its threads has acted. */
  lemma {:induction false} ListenGivesItsTasks(h: uint32, enqueuers: nat, joiners: nat, jobs: int)
    requires 1 <= h < 0x4000_0000 && enqueuers > 0
    ensures var q := Exec(Pool.Next, Pool.Init(2 * h as int, enqueuers, joiners, jobs),
                          EnqueueAll(2 * h as int, Map(Code, ListenTasks(h))));
            q.Some? && q.value.mon.pushed == q.value.mon.queue == Map(Code, ListenTasks(h))
  {
    Enqueues(Pool.Init(2 * h as int, enqueuers, joiners, jobs), 2 * h as int, Map(Code, ListenTasks(h)));
  }

  /** Some worker of the pool is inside the task. */
  ghost predicate SomeoneRuns(q: Pool.State, t: ServerTask) {
    exists i :: 0 <= i < |q.workers| && q.workers[i].Running? && q.workers[i].work == Code(t)
  }

  /** No two kinds of task look alike to the pool. */
  lemma {:induction false} CodeInjective(a: ServerTask, b: ServerTask)
    ensures Code(a) == Code(b) ==> a == b
  {
  }

  /** A worker runs the task as the k-th that was enqueued. */
  ghost predicate RunsAs(q: Pool.State, t: ServerTask, k: nat) {
    exists i :: 0 <= i < |q.workers| && q.workers[i] == Pool.Running(Code(t), k)
  }

  lemma RunsAsSomeone(q: Pool.State, t: ServerTask, k: nat)
    requires RunsAs(q, t, k)
    ensures SomeoneRuns(q, t)
  {
    var i :| 0 <= i < |q.workers| && q.workers[i] == Pool.Running(Code(t), k);
    assert q.workers[i].Running? && q.workers[i].work == Code(t);
  }

  lemma RunsByPosition(q: Pool.State, h: uint32)
    requires 1 <= h < 0x4000_0000
    requires forall k :: 0 <= k < |ListenTasks(h)| ==> RunsAs(q, ListenTasks(h)[k], k)
    ensures SomeoneRuns(q, GetConnections) && SomeoneRuns(q, SendTask) && (h > 2 ==> SomeoneRuns(q, WorkerThread))
  {
    TaskCount(h);
    var tasks := ListenTasks(h);
    assert tasks[0] == GetConnections && tasks[1] == SendTask;
    RunsAsSomeone(q, tasks[0], 0);
    RunsAsSomeone(q, tasks[1], 1);
    if h > 2 {
      assert tasks[2] == WorkerThread;
      RunsAsSomeone(q, tasks[2], 2);
    }
  }

  /** The server's endless tasks are all started: in every schedule in which the tasks of listen are what is enqueued,
      once the pool's threads fall quiet each of them is being run, by a worker of its own. */
  lemma {:induction false} ServerTasksStart(h: uint32, enqueuers: nat, joiners: nat, jobs: int, es: seq<Pool.Event>, own: seq<Pool.Event>)
    requires 1 <= h < 0x4000_0000
    requires Exec(Pool.Next, Pool.Init(2 * h as int, enqueuers, joiners, jobs), es).Some?
    requires forall e :: e in own ==> Pool.Own(e)
    requires Exec(Pool.Next, Exec(Pool.Next, Pool.Init(2 * h as int, enqueuers, joiners, jobs), es).value, own).Some?
    ensures var q := Exec(Pool.Next, Exec(Pool.Next, Pool.Init(2 * h as int, enqueuers, joiners, jobs), es).value, own).value;
            Pool.Quiet(q) && q.ended == [] && q.mon.pushed == Map(Code, ListenTasks(h)) ==>
              && Sum(Pool.IsRunning, q.workers) == |ListenTasks(h)|
              && SomeoneRuns(q, GetConnections) && SomeoneRuns(q, SendTask) && (h > 2 ==> SomeoneRuns(q, WorkerThread))
              && forall k :: 0 <= k < |ListenTasks(h)| ==> RunsAs(q, ListenTasks(h)[k], k)
  {
    TaskCount(h);
    Pool.EveryTaskStarts(2 * h as int, enqueuers, joiners, jobs, es, own);
    var q := Exec(Pool.Next, Exec(Pool.Next, Pool.Init(2 * h as int, enqueuers, joiners, jobs), es).value, own).value;
    if Pool.Quiet(q) && q.ended == [] && q.mon.pushed == Map(Code, ListenTasks(h)) {
      forall k | 0 <= k < |ListenTasks(h)|
        ensures RunsAs(q, ListenTasks(h)[k], k)
      {
        assert Pool.IsRun(q, k);
      }
      RunsByPosition(q, h);
    }
  }
}
