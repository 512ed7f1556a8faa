/** The wait of sendTask on mSendCondition, which has no predicate: what ends it too early, and what never ends it. */
module Waits {
  import opened Seqs
  import opened Runs
  import opened Bytes
  import opened Packets
  import opened Pipeline
  import opened Delivery
  import Monitor
  import ConcurrentQueue

  // ----- More than one send in flight

  /** No two sends are outstanding: their completions not dequeued. */
  ghost predicate AtMostOne(s: State) {
    forall j, k :: 0 <= j < k < |s.sent| ==> j in s.done || k in s.done
  }

  /** At no moment of the run are two sends in flight. */
  ghost predicate OneInFlight(prog: seq<seq<ClientPacket>>, keys: seq<Key>, es: seq<Event>)
    requires Exec(Next, Init(prog, keys), es).Some?
  {
    AtMostOne(Exec(Next, Init(prog, keys), es).value) && (es == [] || OneInFlight(prog, keys, es[..|es| - 1]))
  }

  /** The completion of the last send, if there is one, has been dequeued: the predicate that the wait does not have. */
  predicate LastIsDone(s: State) {
    s.sent == [] || |s.sent| - 1 in s.done
  }

  /** Whenever BeginSend is called in the run, the last send is complete. */
  predicate Guarded(prog: seq<seq<ClientPacket>>, keys: seq<Key>, es: seq<Event>)
    requires Exec(Next, Init(prog, keys), es).Some?
  {
    es == []
    || (Guarded(prog, keys, es[..|es| - 1])
        && (es[|es| - 1].Send? ==> LastIsDone(Exec(Next, Init(prog, keys), es[..|es| - 1]).value)))
  }

  /** Every send but the last is complete. */
  predicate OthersDone(s: State) {
    forall k :: 0 <= k < |s.sent| - 1 ==> k in s.done
  }

  lemma {:induction false} GuardedIsEnough(prog: seq<seq<ClientPacket>>, keys: seq<Key>, es: seq<Event>)
    requires Exec(Next, Init(prog, keys), es).Some? && Guarded(prog, keys, es)
    ensures OthersDone(Exec(Next, Init(prog, keys), es).value) && OneInFlight(prog, keys, es)
  {
    if es != [] {
      var n := |es| - 1;
      GuardedIsEnough(prog, keys, es[..n]);
      SendStep(Exec(Next, Init(prog, keys), es[..n]).value, es[n]);
    }
  }

  lemma SendStep(s: State, e: Event)
    requires Next(s, e).Some?
    ensures s.done <= Next(s, e).value.done
    ensures |Next(s, e).value.sent| == |s.sent| + if e.Send? then 1 else 0
    ensures e.Send? ==> Next(s, e).value.done == s.done
  {
  }

  /** A call of BeginSend while the last send is outstanding puts two in flight. */
  lemma UnguardedSend(s: State, e: Event)
    requires Waits(s) && e.Send? && Next(s, e).Some? && !LastIsDone(s)
    ensures !AtMostOne(Next(s, e).value)
  {
    SendStep(s, e);
    var s' := Next(s, e).value;
    assert |s.sent| - 1 !in s'.done && |s.sent| !in s'.done;
  }

  lemma {:induction false} GuardIsNeeded(prog: seq<seq<ClientPacket>>, keys: seq<Key>, es: seq<Event>)
    requires Configured(prog, keys) && Exec(Next, Init(prog, keys), es).Some? && OneInFlight(prog, keys, es)
    ensures Guarded(prog, keys, es)
  {
    if es != [] {
      var n := |es| - 1;
      GuardIsNeeded(prog, keys, es[..n]);
      var s := Exec(Next, Init(prog, keys), es[..n]).value;
      if es[n].Send? && !LastIsDone(s) {
        Reachable(prog, keys, es[..n]);
        UnguardedSend(s, es[n]);
      }
    }
  }

  /** Exactly when at most one send is in flight throughout a run: when at each call of BeginSend the completion of the
      send before has been dequeued. It suffices to look at the last send, and only then. */
  lemma {:induction false} OneInFlightIff(prog: seq<seq<ClientPacket>>, keys: seq<Key>, es: seq<Event>)
    requires Configured(prog, keys) && Exec(Next, Init(prog, keys), es).Some?
    ensures OneInFlight(prog, keys, es) <==> Guarded(prog, keys, es)
  {
    if Guarded(prog, keys, es) {
      GuardedIsEnough(prog, keys, es);
    } else if OneInFlight(prog, keys, es) {
      GuardIsNeeded(prog, keys, es);
    }
  }

  /** A send whose completion no worker has dequeued, among the first n. */
  ghost predicate SomeOutstanding(s: State, n: nat) {
    exists k: nat :: k < n && k !in s.done
  }

  /** The schedule more leads to the next call of BeginSend with a send made before still outstanding. */
  ghost predicate Overtakes(s: State, more: seq<Event>) {
    Exec(Next, s, more).Some?
    && var q := Exec(Next, s, more).value;
       |q.sent| == |s.sent| + 1 && SomeOutstanding(q, |s.sent|)
  }

  /** sendTask could go round its loop at once: nobody is inside the queue, and the next packet is due to a live client. */
  predicate CanSend(s: State) {
    && s.mon.pc != [] && s.mon.pc[0].Idle? && s.mon.owner.None? && s.mon.queue != []
    && s.mon.queue[0].packet.kind != INVALID && s.mon.queue[0].client !in s.expired
  }

  /** Exactly when the next send can overtake an earlier one: at the end of a wait, with a packet to be sent, some
      schedule leads to the next call of BeginSend with an earlier send outstanding, if and only if some send is
      outstanding now. A wait that the notification for its own send has ended leaves that send complete. */
  lemma {:induction false} OvertakenIff(prog: seq<seq<ClientPacket>>, keys: seq<Key>, es: seq<Event>)
    requires Configured(prog, keys) && Exec(Next, Init(prog, keys), es).Some?
    requires var s := Exec(Next, Init(prog, keys), es).value; s.sender.Ready? && CanSend(s)
    ensures var s := Exec(Next, Init(prog, keys), es).value;
            && |s.endings| == |s.sent| > 0
            && ((exists more :: Overtakes(s, more)) <==> SomeOutstanding(s, |s.sent|))
            && forall k :: 0 <= k < |s.sent| && s.endings[k].OwnCompletion? ==> k in s.done
  {
    Reachable(prog, keys, es);
    var s := Exec(Next, Init(prog, keys), es).value;
    ReadyHasSent(prog, keys, es);
    if SomeOutstanding(s, |s.sent|) {
      CanOvertake(s);
    } else {
      forall more
        ensures !Overtakes(s, more)
      {
        CannotOvertake(s, more);
      }
    }
  }

  /** A completion that has been dequeued stays so. */
  lemma CannotOvertake(s: State, more: seq<Event>)
    requires !SomeOutstanding(s, |s.sent|)
    ensures !Overtakes(s, more)
  {
    var done := s.done;
    forall m: State, e: Event | done <= m.done && Next(m, e).Some?
      ensures done <= Next(m, e).value.done
    {
      SendStep(m, e);
    }
    Invariance(Next, (m: State) => done <= m.done, s, more);
  }

  lemma CanOvertake(s: State)
    requires s.sender.Ready? && CanSend(s) && SomeOutstanding(s, |s.sent|)
    ensures Overtakes(s, [Resume] + SendRound())
  {
    var top := s.(sender := Top);
    SendNow(top);
    assert Trace(Next, [s, top], [Resume]);
    TraceExec(Next, [s, top], [Resume]);
    ExecConcat(Next, s, [Resume], SendRound());
  }

  predicate SentOne(s: State) {
    s.sender.Sent? || s.sender.Waiting? || s.sender.Ready? ==> s.sent != []
  }

  lemma ReadyHasSent(prog: seq<seq<ClientPacket>>, keys: seq<Key>, es: seq<Event>)
    requires Exec(Next, Init(prog, keys), es).Some?
    ensures SentOne(Exec(Next, Init(prog, keys), es).value)
  {
    Invariance(Next, SentOne, Init(prog, keys), es);
  }

  // ----- Undisturbed rounds

  /** sendTask pops, and sends what it popped. */
  function SendRound(): seq<Event> {
    PopRound() + [Decide, Send]
  }

  function PopRound(): seq<Event> {
    [StartPop] + seq(5, i => Act(0))
  }

  function PushRound(t: nat): seq<Event> {
    [StartPush(t)] + seq(4, i => Act(t))
  }

  lemma PushNow(s: State, t: nat)
    requires s.mon.owner.None? && 0 < t < |s.mon.pc| == |s.todo| && s.mon.pc[t].Idle? && s.todo[t] != []
    ensures Exec(Next, s, PushRound(t))
            == Some(s.(mon := ConcurrentQueue.Inserted(s.mon, s.todo[t][0]), todo := s.todo[t := s.todo[t][1..]]))
  {
    var ms := ConcurrentQueue.PushTrace(s.mon, t, s.todo[t][0]);
    var todo := s.todo[t := s.todo[t][1..]];
    var ps := seq(6, i requires 0 <= i < 6 => if i == 0 then s else s.(mon := ms[i], todo := todo));
    forall i | 0 <= i < 5
      ensures Next(ps[i], PushRound(t)[i]) == Some(ps[i + 1])
    {
      assert Monitor.Next(ms[i], ConcurrentQueue.Undisturbed(t, Monitor.Push(s.todo[t][0]), 4)[i]) == Some(ms[i + 1]);
    }
    TraceExec(Next, ps, PushRound(t));
  }

  lemma PopNow(s: State)
    requires s.sender.Top? && s.mon.pc != [] && s.mon.pc[0].Idle? && s.mon.owner.None? && s.mon.queue != []
    ensures Exec(Next, s, PopRound()) == Some(s.(mon := ConcurrentQueue.Removed(s.mon, 0), sender := Have(s.mon.queue[0])))
  {
    var ms := ConcurrentQueue.PopTrace(s.mon, 0);
    var ps := seq(7, i requires 0 <= i < 7 =>
      if i == 0 then s else s.(mon := ms[i], sender := if i < 6 then Popping else Have(s.mon.queue[0])));
    forall i | 0 <= i < 6
      ensures Next(ps[i], PopRound()[i]) == Some(ps[i + 1])
    {
      assert Monitor.Next(ms[i], ConcurrentQueue.Undisturbed(0, Monitor.Pop, 5)[i]) == Some(ms[i + 1]);
    }
    TraceExec(Next, ps, PopRound());
  }

  /** The state after sendTask has gone from the top of its loop to its wait. */
  function AfterSend(s: State): State
    requires s.mon.queue != []
  {
    var cp := s.mon.queue[0];
    s.(mon := ConcurrentQueue.Removed(s.mon, 0), sender := Sent(cp.client), decided := s.decided + [cp],
       sent := s.sent + [cp], wire := s.wire + [(cp.client, Buffer(cp.packet))])
  }

  lemma {:induction false} SendNow(s: State)
    requires s.sender.Top? && CanSend(s)
    ensures Exec(Next, s, SendRound()) == Some(AfterSend(s))
  {
    var cp := s.mon.queue[0];
    PopNow(s);
    var popped := s.(mon := ConcurrentQueue.Removed(s.mon, 0), sender := Have(cp));
    TwoEvents(Next, popped, Decide, popped.(sender := Holding(cp)), Send, AfterSend(s));
    ExecConcat(Next, s, PopRound(), [Decide, Send]);
  }

  /** The state after sendTask has dropped the next packet. */
  function AfterDrop(s: State): State
    requires s.mon.queue != []
  {
    s.(mon := ConcurrentQueue.Removed(s.mon, 0), decided := s.decided + [s.mon.queue[0]])
  }

  /** A packet of type 0, or for a client that is gone, is dropped, and sendTask is back at the top of its loop without a
      wait. */
  lemma {:induction false} DropNow(s: State)
    requires s.sender.Top? && s.mon.pc != [] && s.mon.pc[0].Idle? && s.mon.owner.None? && s.mon.queue != []
    requires s.mon.queue[0].packet.kind == 0 || s.mon.queue[0].client in s.expired
    ensures Exec(Next, s, PopRound() + [Decide]) == Some(AfterDrop(s))
  {
    PopNow(s);
    var popped := s.(mon := ConcurrentQueue.Removed(s.mon, 0), sender := Have(s.mon.queue[0]));
    TraceExec(Next, [popped, AfterDrop(s)], [Decide]);
    ExecConcat(Next, s, PopRound(), [Decide]);
  }

  /** A client that sendTask does not keep may go at any time, and then its next packet is dropped. */
  lemma {:induction false} GoneClientIsSkipped(s: State)
    requires s.sender.Top? && s.mon.pc != [] && s.mon.pc[0].Idle? && s.mon.owner.None? && s.mon.queue != []
    ensures var c := s.mon.queue[0].client;
            Exec(Next, s, [Expire(c)] + (PopRound() + [Decide])) == Some(AfterDrop(s.(expired := s.expired + {c})))
  {
    var c := s.mon.queue[0].client;
    var gone := s.(expired := s.expired + {c});
    TraceExec(Next, [s, gone], [Expire(c)]);
    DropNow(gone);
    ExecConcat(Next, s, [Expire(c)], PopRound() + [Decide]);
  }

  // ----- Two runs

  /** A request whose first two packets are to be sent. */
  ghost predicate SendsTwo(prog: seq<seq<ClientPacket>>, keys: seq<Key>, t: nat) {
    Configured(prog, keys) && 0 < t < |prog| && |prog[t]| >= 2 && keys[t].kind != INVALID
  }

  /** t pushes two packets, and sendTask sends the first. */
  function FirstSend(t: nat): seq<Event> {
    PushRound(t) + PushRound(t) + SendRound()
  }

  predicate AllIdle(mon: Monitor.State<ClientPacket>) {
    forall t :: 0 <= t < |mon.pc| ==> mon.pc[t].Idle?
  }

  /** The state after that. */
  ghost predicate AfterFirst(s: State, prog: seq<seq<ClientPacket>>, keys: seq<Key>, t: nat)
    requires SendsTwo(prog, keys, t)
  {
    && s.prog == prog && AllIdle(s.mon) && |s.mon.pc| == |prog| && s.mon.owner.None? && s.mon.queue == [prog[t][1]]
    && s.todo == prog[t := prog[t][2..]] && s.expired == {} && s.done == {} && s.endings == []
    && s.sent == [prog[t][0]] && s.sender == Sent(keys[t].client)
  }

  /** t has pushed its next packet, and nobody was asleep. */
  function Pushed(s: State, t: nat): State
    requires t < |s.todo| && s.todo[t] != []
  {
    var x := s.todo[t][0];
    s.(mon := s.mon.(queue := s.mon.queue + [x], pushed := s.mon.pushed + [x]), todo := s.todo[t := s.todo[t][1..]])
  }

  lemma PushAmongIdle(s: State, t: nat)
    requires AllIdle(s.mon) && s.mon.owner.None? && 0 < t < |s.mon.pc| == |s.todo| && s.todo[t] != []
    ensures Exec(Next, s, PushRound(t)) == Some(Pushed(s, t))
  {
    PushNow(s, t);
    assert Monitor.WakeAll(s.mon.pc) == s.mon.pc;
  }

  lemma TwoPushed(s: State, t: nat)
    requires AllIdle(s.mon) && s.mon.owner.None? && 0 < t < |s.mon.pc| == |s.todo| && |s.todo[t]| >= 2
    ensures Exec(Next, s, PushRound(t) + PushRound(t)) == Some(Pushed(Pushed(s, t), t))
  {
    PushAmongIdle(s, t);
    PushAmongIdle(Pushed(s, t), t);
    ExecConcat(Next, s, PushRound(t), PushRound(t));
  }

  /** What the two pushes have come to. */
  lemma TwoQueued(s: State, t: nat)
    requires t < |s.todo| && |s.todo[t]| >= 2 && s.mon.queue == []
    ensures var q := Pushed(Pushed(s, t), t);
            q.mon.queue == [s.todo[t][0], s.todo[t][1]] && q.todo == s.todo[t := s.todo[t][2..]]
  {
    assert s.todo[t][1..][1..] == s.todo[t][2..];
  }

  lemma FirstIsSent(prog: seq<seq<ClientPacket>>, keys: seq<Key>, t: nat)
    requires SendsTwo(prog, keys, t)
    ensures Exec(Next, Init(prog, keys), FirstSend(t)).Some?
    ensures AfterFirst(Exec(Next, Init(prog, keys), FirstSend(t)).value, prog, keys, t)
  {
    var s := Init(prog, keys);
    var two := Pushed(Pushed(s, t), t);
    TwoPushed(s, t);
    TwoQueued(s, t);
    assert prog[t][0] in prog[t] && KeyOf(prog[t][0]) == keys[t];
    SendNow(two);
    ExecConcat(Next, s, PushRound(t) + PushRound(t), SendRound());
  }

  /** The end of a wait that the completion of the send has nothing to do with. */
  lemma WokenEarly(s: State, wake: Event)
    requires s.sender.Sent? && wake in {Notify(None), WakeSender}
    ensures Exec(Next, s, [Wait, wake, Resume]).Some?
    ensures var q := Exec(Next, s, [Wait, wake, Resume]).value;
            && q == s.(sender := Top, endings := q.endings, notifies := q.notifies, spurious := q.spurious)
            && |q.endings| == |s.endings| + 1 && !q.endings[|s.endings|].OwnCompletion?
  {
    var waiting := Next(s, Wait).value;
    var ready := Next(waiting, wake).value;
    var top := ready.(sender := Top);
    ThreeEvents(Next, s, Wait, waiting, wake, ready, Resume, top);
  }

  /** BeginSend is called again before the first send has completed, if the wait is ended by another completion, or
      spuriously. */
  lemma {:induction false} SecondSendInFlight(prog: seq<seq<ClientPacket>>, keys: seq<Key>, t: nat, wake: Event)
    requires SendsTwo(prog, keys, t) && wake in {Notify(None), WakeSender}
    ensures var es := FirstSend(t) + [Wait, wake, Resume] + SendRound();
            Exec(Next, Init(prog, keys), es).Some?
            && var s := Exec(Next, Init(prog, keys), es).value;
               s.sent == [prog[t][0], prog[t][1]] && s.done == {}
  {
    var s := Init(prog, keys);
    FirstIsSent(prog, keys, t);
    var first := Exec(Next, s, FirstSend(t)).value;
    WokenEarly(first, wake);
    var top := Exec(Next, first, [Wait, wake, Resume]).value;
    ExecConcat(Next, s, FirstSend(t), [Wait, wake, Resume]);
    assert prog[t][1] in prog[t] && KeyOf(prog[t][1]) == keys[t];
    SendNow(top);
    ExecConcat(Next, s, FirstSend(t) + [Wait, wake, Resume], SendRound());
  }

  lemma StuckInWait(s: State)
    requires s.sender.Waiting? && AllIdle(s.mon) && |s.mon.pc| == |s.todo|
    requires forall t :: 0 < t < |s.todo| ==> s.todo[t] == []
    ensures Stuck(s)
  {
  }

  /** A notification is lost if it comes between BeginSend and the wait, be it for the completion of that very send:
      then everything sent is complete, a packet is queued, and sendTask waits while no thread of the pipeline can act. */
  lemma {:induction false} NotificationLost(prog: seq<seq<ClientPacket>>, keys: seq<Key>, t: nat)
    requires SendsTwo(prog, keys, t) && |prog[t]| == 2 && forall u :: 0 < u < |prog| && u != t ==> prog[u] == []
    ensures var es := FirstSend(t) + [Complete(0), Notify(Some(0)), Wait];
            Exec(Next, Init(prog, keys), es).Some?
            && var s := Exec(Next, Init(prog, keys), es).value;
               s.sender.Waiting? && s.done == {0} && |s.sent| == 1 && s.mon.queue == [prog[t][1]] && Stuck(s)
  {
    var s := Init(prog, keys);
    FirstIsSent(prog, keys, t);
    var first := Exec(Next, s, FirstSend(t)).value;
    NotifiedTooSoon(first);
    ExecConcat(Next, s, FirstSend(t), [Complete(0), Notify(Some(0)), Wait]);
    StuckInWait(first.(sender := Waiting(first.sender.client), done := {0}, notifies := first.notifies + 1));
  }

  lemma NotifiedTooSoon(s: State)
    requires s.sender.Sent? && |s.sent| == 1 && s.done == {}
    ensures Exec(Next, s, [Complete(0), Notify(Some(0)), Wait])
            == Some(s.(sender := Waiting(s.sender.client), done := {0}, notifies := s.notifies + 1))
  {
    assert s.done + {0} == {0};
    var complete := s.(done := {0});
    var notified := complete.(notifies := s.notifies + 1);
    var waiting := notified.(sender := Waiting(s.sender.client));
    ThreeEvents(Next, s, Complete(0), complete, Notify(Some(0)), notified, Wait, waiting);
  }

  // ----- When the pipeline drains

  /** The last wait has begun and nothing has ended it: no notification and no spurious wakeup since. */
  predicate Unanswered(es: seq<Event>) {
    es != [] && (es[|es| - 1].Wait? || (!es[|es| - 1].Notify? && !es[|es| - 1].WakeSender? && Unanswered(es[..|es| - 1])))
  }

  lemma {:induction false} WaitingIff(prog: seq<seq<ClientPacket>>, keys: seq<Key>, es: seq<Event>)
    requires Configured(prog, keys) && Exec(Next, Init(prog, keys), es).Some?
    ensures Exec(Next, Init(prog, keys), es).value.sender.Waiting? <==> Unanswered(es)
  {
    if es != [] {
      var n := |es| - 1;
      WaitingIff(prog, keys, es[..n]);
      Reachable(prog, keys, es[..n]);
      WaitingStep(Exec(Next, Init(prog, keys), es[..n]).value, es[n]);
    }
  }

  lemma WaitingStep(s: State, e: Event)
    requires Roles(s) && Next(s, e).Some?
    ensures Next(s, e).value.sender.Waiting? <==> e.Wait? || (s.sender.Waiting? && !e.Notify? && !e.WakeSender?)
  {
  }

  /** Exactly when a pipeline that has come to a stop is drained: when the last wait was answered after it had begun, or
      the queue is empty all the same. So notifying after every wait has begun is enough. */
  lemma {:induction false} DrainedIff(prog: seq<seq<ClientPacket>>, keys: seq<Key>, es: seq<Event>)
    requires Configured(prog, keys) && Exec(Next, Init(prog, keys), es).Some?
    requires Stuck(Exec(Next, Init(prog, keys), es).value)
    ensures var s := Exec(Next, Init(prog, keys), es).value;
            && |s.mon.pc| == |s.todo| == |s.prog|
            && (Drained(s) <==> !Unanswered(es) || s.mon.queue == [])
  {
    Reachable(prog, keys, es);
    WaitingIff(prog, keys, es);
    StuckIsDrainedIff(Exec(Next, Init(prog, keys), es).value);
  }
}
