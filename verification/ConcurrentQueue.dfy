/** The queue as the code that pushes to it sees it, and why that view is right. */
module ConcurrentQueue {
  import opened Seqs
  import opened Runs
  import Monitor

  /** The member functions as one undisturbed thread performs them. */
  class Queue<T> {
    var mQueue: seq<T>

    constructor ()
      ensures mQueue == []
    {
      mQueue := [];
    }

    method Push(item: T)
      modifies this
      ensures mQueue == old(mQueue) + [item]
    {
      mQueue := mQueue + [item];
    }

    /** Undisturbed, a thread would wait forever for an item to pop from an empty queue. */
    method Pop() returns (res: T)
      requires mQueue != []
      modifies this
      ensures old(mQueue) == [res] + mQueue
    {
      res := mQueue[0];
      mQueue := mQueue[1..];
    }

    method Size() returns (res: nat)
      ensures res == |mQueue|
    {
      res := |mQueue|;
    }
  }

  // ----- An undisturbed thread at the grain of locks and notifications

  /** Thread t calls op and performs n actions. */
  function Undisturbed<T>(t: nat, op: Monitor.Op<T>, n: nat): seq<Monitor.Event<T>> {
    [Monitor.Call(t, op)] + seq(n, i => Monitor.Run(t))
  }

  lemma GotoTwice<T>(s: Monitor.State<T>, t: nat, c: Monitor.Pc<T>, d: Monitor.Pc<T>)
    requires t < |s.pc|
    ensures Monitor.Goto(Monitor.Goto(s, t, c), t, d) == Monitor.Goto(s, t, d)
  {
  }

  /** An idle thread's program counter put back. */
  lemma GotoIdle<T>(s: Monitor.State<T>, t: nat, c: Monitor.Pc<T>)
    requires t < |s.pc| && s.pc[t].Idle?
    ensures Monitor.Goto(Monitor.Goto(s, t, c), t, Monitor.Idle) == s
  {
  }

  /** The state after the insertion and the notification. */
  function Inserted<T>(s: Monitor.State<T>, x: T): Monitor.State<T> {
    s.(queue := s.queue + [x], pushed := s.pushed + [x], pc := Monitor.WakeAll(s.pc))
  }

  lemma PushTrace<T>(s: Monitor.State<T>, t: nat, x: T) returns (ms: seq<Monitor.State<T>>)
    requires s.owner.None? && t < |s.pc| && s.pc[t].Idle?
    ensures Trace(Monitor.Next, ms, Undisturbed(t, Monitor.Push(x), 4))
    ensures ms[0] == s && ms[1] == Monitor.Goto(s, t, Monitor.PushLock(x)) && ms[5] == Inserted(s, x)
    ensures forall i :: 1 <= i < 5 ==> |ms[i].pc| == |s.pc| && Monitor.InPush(ms[i].pc[t])
  {
    var held := s.(owner := Some(t));
    var put := s.(queue := s.queue + [x], pushed := s.pushed + [x]);
    ms := [s, Monitor.Goto(s, t, Monitor.PushLock(x)), Monitor.Goto(held, t, Monitor.PushInsert(x)),
           Monitor.Goto(put.(owner := Some(t)), t, Monitor.PushUnlock), Monitor.Goto(put, t, Monitor.PushNotify),
           Inserted(s, x)];
    GotoTwice(held, t, Monitor.PushLock(x), Monitor.PushInsert(x));
    GotoTwice(put.(owner := Some(t)), t, Monitor.PushInsert(x), Monitor.PushUnlock);
    GotoTwice(put, t, Monitor.PushUnlock, Monitor.PushNotify);
    GotoIdle(put, t, Monitor.PushNotify);
  }

  /** An undisturbed push does to the queue what the method does, wakes whoever sleeps, and leaves everything else
      alone. */
  lemma {:induction false} UndisturbedPush<T>(s: Monitor.State<T>, t: nat, x: T)
    requires s.owner.None? && t < |s.pc| && s.pc[t].Idle?
    ensures Exec(Monitor.Next, s, Undisturbed(t, Monitor.Push(x), 4)) == Some(Inserted(s, x))
  {
    var ms := PushTrace(s, t, x);
    TraceExec(Monitor.Next, ms, Undisturbed(t, Monitor.Push(x), 4));
  }

  /** The state after the removal of the front by thread t. */
  function Removed<T>(s: Monitor.State<T>, t: nat): Monitor.State<T>
    requires s.queue != []
  {
    s.(queue := s.queue[1..], returned := s.returned + [(t, s.queue[0])])
  }

  /** The states of an undisturbed pop. */
  function Popping<T>(s: Monitor.State<T>, t: nat): (ms: seq<Monitor.State<T>>)
    requires t < |s.pc| && s.queue != []
    ensures |ms| == 7 && ms[0] == s && ms[6] == Removed(s, t)
  {
    var held := s.(owner := Some(t));
    [s, Monitor.Goto(s, t, Monitor.PopLock), Monitor.Goto(held, t, Monitor.PopTest), Monitor.Goto(held, t, Monitor.PopFront),
     Monitor.Goto(held, t, Monitor.PopRemove(s.queue[0])),
     Monitor.Goto(held.(queue := s.queue[1..]), t, Monitor.PopUnlock(s.queue[0])), Removed(s, t)]
  }

  lemma PopBegins<T>(s: Monitor.State<T>, t: nat, ms: seq<Monitor.State<T>>)
    requires s.owner.None? && t < |s.pc| && s.pc[t].Idle? && s.queue != [] && ms == Popping(s, t)
    ensures Monitor.Next(ms[0], Monitor.Call(t, Monitor.Pop)) == Some(ms[1])
    ensures Monitor.Advance(ms[1], t) == Some(ms[2]) && Monitor.Advance(ms[2], t) == Some(ms[3])
  {
    var held := s.(owner := Some(t));
    GotoTwice(held, t, Monitor.PopLock, Monitor.PopTest);
    GotoTwice(held, t, Monitor.PopTest, Monitor.PopFront);
  }

  lemma PopEnds<T>(s: Monitor.State<T>, t: nat, ms: seq<Monitor.State<T>>)
    requires s.owner.None? && t < |s.pc| && s.pc[t].Idle? && s.queue != [] && ms == Popping(s, t)
    ensures Monitor.Advance(ms[3], t) == Some(ms[4]) && Monitor.Advance(ms[4], t) == Some(ms[5])
    ensures Monitor.Advance(ms[5], t) == Some(ms[6])
  {
    var x := s.queue[0];
    var held := s.(owner := Some(t));
    GotoTwice(held, t, Monitor.PopFront, Monitor.PopRemove(x));
    GotoTwice(held.(queue := s.queue[1..]), t, Monitor.PopRemove(x), Monitor.PopUnlock(x));
    GotoIdle(Removed(s, t), t, Monitor.PopUnlock(x));
  }

  lemma PopTrace<T>(s: Monitor.State<T>, t: nat) returns (ms: seq<Monitor.State<T>>)
    requires s.owner.None? && t < |s.pc| && s.pc[t].Idle? && s.queue != []
    ensures Trace(Monitor.Next, ms, Undisturbed(t, Monitor.Pop, 5))
    ensures ms[0] == s && ms[1] == Monitor.Goto(s, t, Monitor.PopLock) && ms[6] == Removed(s, t)
    ensures forall i :: 1 <= i < 6 ==> |ms[i].pc| == |s.pc| && (ms[i].pc[t].PopUnlock? <==> i == 5)
    ensures ms[5].pc[t] == Monitor.PopUnlock(s.queue[0])
  {
    ms := Popping(s, t);
    PopBegins(s, t, ms);
    PopEnds(s, t, ms);
  }

  /** An undisturbed pop of a non-empty queue does to the queue what the method does, and leaves everything else
      alone. */
  lemma {:induction false} UndisturbedPop<T>(s: Monitor.State<T>, t: nat)
    requires s.owner.None? && t < |s.pc| && s.pc[t].Idle? && s.queue != []
    ensures Exec(Monitor.Next, s, Undisturbed(t, Monitor.Pop, 5)) == Some(Removed(s, t))
  {
    var ms := PopTrace(s, t);
    TraceExec(Monitor.Next, ms, Undisturbed(t, Monitor.Pop, 5));
  }

  /** On an empty queue it goes to sleep, and changes nothing else. */
  lemma {:induction false} UndisturbedWait<T>(s: Monitor.State<T>, t: nat)
    requires s.owner.None? && t < |s.pc| && s.pc[t].Idle? && s.queue == []
    ensures Exec(Monitor.Next, s, Undisturbed(t, Monitor.Pop, 3)) == Some(Monitor.Goto(s, t, Monitor.Sleeping))
  {
    var held := s.(owner := Some(t));
    var ms := [s, Monitor.Goto(s, t, Monitor.PopLock), Monitor.Goto(held, t, Monitor.PopTest),
               Monitor.Goto(held, t, Monitor.PopWait), Monitor.Goto(s, t, Monitor.Sleeping)];
    GotoTwice(held, t, Monitor.PopLock, Monitor.PopTest);
    GotoTwice(held, t, Monitor.PopTest, Monitor.PopWait);
    GotoTwice(s, t, Monitor.PopWait, Monitor.Sleeping);
    TraceExec(Monitor.Next, ms, Undisturbed(t, Monitor.Pop, 3));
  }

  /** Thread t holds the mutex and has read the size. */
  function Sized<T>(s: Monitor.State<T>, t: nat): Monitor.State<T>
    requires t < |s.pc|
  {
    Monitor.Goto(s.(owner := Some(t)), t, Monitor.SizeUnlock(|s.queue|))
  }

  lemma SizeRead<T>(s: Monitor.State<T>, t: nat)
    requires s.owner.None? && t < |s.pc| && s.pc[t].Idle?
    ensures Exec(Monitor.Next, s, Undisturbed(t, Monitor.Size, 2)) == Some(Sized(s, t))
  {
    var held := s.(owner := Some(t));
    var ms := [s, Monitor.Goto(s, t, Monitor.SizeLock), Monitor.Goto(held, t, Monitor.SizeRead), Sized(s, t)];
    GotoTwice(held, t, Monitor.SizeLock, Monitor.SizeRead);
    GotoTwice(held, t, Monitor.SizeRead, Monitor.SizeUnlock(|s.queue|));
    TraceExec(Monitor.Next, ms, Undisturbed(t, Monitor.Size, 2));
  }

  /** An undisturbed size reports the length of the queue when it unlocks, and has then changed nothing. */
  lemma {:induction false} UndisturbedSize<T>(s: Monitor.State<T>, t: nat)
    requires s.owner.None? && t < |s.pc| && s.pc[t].Idle?
    ensures Exec(Monitor.Next, s, Undisturbed(t, Monitor.Size, 2)) == Some(Sized(s, t))
    ensures Sized(s, t).pc[t] == Monitor.SizeUnlock(|s.queue|) && Monitor.Next(Sized(s, t), Monitor.Run(t)) == Some(s)
  {
    SizeRead(s, t);
    GotoIdle(s, t, Monitor.SizeUnlock(|s.queue|));
  }
}
