/** The send pipeline does a bounded amount of work for its requests, however it is scheduled. */
module Progress {
  import opened Seqs
  import opened Runs
  import opened Packets
  import opened Pipeline
  import opened Delivery
  import Monitor

  function Length(cps: seq<ClientPacket>): nat { |cps| }

  /** Packets offered to or inside the queue. */
  function Outstanding(s: State): nat {
    var entered := |s.mon.pushed| + Sum(Monitor.OfferedCount, s.mon.pc);
    if |s.mon.returned| <= entered then entered - |s.mon.returned| else 0
  }

  function SenderLeft(sender: Sender): nat {
    match sender
    case Have(_) => 12
    case Holding(_) => 11
    case Sent(_) => 10
    case Waiting(_) => 9
    case Ready(_) => 8
    case Top => 7
    case Popping => 1
  }

  /** A packet still to be pushed costs the wakeups its notification may cause, its push, and its turn in sendTask. */
  function Cost(threads: nat): nat {
    Monitor.HEAVIEST * threads + 26
  }

  function Work(s: State): nat {
    Monitor.Measure(s.mon) + 20 * Outstanding(s) + Cost(|s.mon.pc|) * Sum(Length, s.todo) + SenderLeft(s.sender)
  }

  /** Actions of the server's own threads, and the end of a wait. */
  predicate Counts(e: Event) {
    Own(e) || e.WakeSender?
  }

  predicate Raises(e: Event) {
    e.WakeSpuriously?
  }

  /** An action inside the queue lowers the measure; if a pop returns, one packet fewer is outstanding and sendTask
      gets to work. */
  lemma LowersWork(s: State, s': State, gone: nat)
    requires s'.todo == s.todo && |s'.mon.pc| == |s.mon.pc| && Monitor.Measure(s'.mon) < Monitor.Measure(s.mon)
    requires |s.mon.returned| + gone <= |s.mon.pushed| + Sum(Monitor.OfferedCount, s.mon.pc)
    requires |s'.mon.pushed| + Sum(Monitor.OfferedCount, s'.mon.pc) == |s.mon.pushed| + Sum(Monitor.OfferedCount, s.mon.pc)
    requires |s'.mon.returned| == |s.mon.returned| + gone
    requires SenderLeft(s'.sender) <= SenderLeft(s.sender) + 20 * gone
    ensures Work(s') < Work(s)
  {
    assert Outstanding(s') + gone == Outstanding(s);
  }

  lemma {:induction false} ActLowersWork(s: State, t: nat)
    requires Monitor.Inv(s.mon) && Roles(s) && Next(s, Act(t)).Some?
    ensures Work(Next(s, Act(t)).value) < Work(s)
  {
    var s' := Next(s, Act(t)).value;
    Monitor.RunLowersMeasure(s.mon, t);
    Monitor.ActKeepsItems(s.mon, t);
    Monitor.ActEffect(s.mon, t);
    ReturnsArePushed(s.mon);
    LowersWork(s, s', if s.mon.pc[t].PopUnlock? then 1 else 0);
  }

  lemma ReturnsArePushed(mon: Monitor.State<ClientPacket>)
    requires Monitor.Inv(mon)
    ensures |mon.returned| + |Monitor.InHand(mon)| <= |mon.pushed|
    ensures forall t :: 0 <= t < |mon.pc| && mon.pc[t].PopUnlock? ==> |Monitor.InHand(mon)| == 1
  {
  }

  lemma PushCallMeasure(mon: Monitor.State<ClientPacket>, t: nat, x: ClientPacket)
    requires t < |mon.pc| && mon.pc[t].Idle?
    ensures var m := Monitor.Goto(mon, t, Monitor.PushLock(x));
            && Monitor.Measure(m) == Monitor.Measure(mon) + Monitor.HEAVIEST * |mon.pc| + 5
            && Sum(Monitor.OfferedCount, m.pc) == Sum(Monitor.OfferedCount, mon.pc) + 1
  {
    SumUpdate(Monitor.Pending, mon.pc, t, Monitor.PushLock(x));
    SumUpdate(Monitor.Weight, mon.pc, t, Monitor.PushLock(x));
    SumUpdate(Monitor.OfferedCount, mon.pc, t, Monitor.PushLock(x));
    Times(Monitor.HEAVIEST * |mon.pc| + 1, Sum(Monitor.Pending, mon.pc));
  }

  lemma StartPushLowersWork(s: State, s': State, t: nat)
    requires Monitor.Inv(s.mon) && |s.mon.pc| == |s.todo| && 0 < t < |s.todo| && s.todo[t] != [] && s.mon.pc[t].Idle?
    requires s' == s.(mon := Monitor.Goto(s.mon, t, Monitor.PushLock(s.todo[t][0])), todo := s.todo[t := s.todo[t][1..]])
    ensures Work(s') < Work(s)
  {
    PushCallMeasure(s.mon, t, s.todo[t][0]);
    SumUpdate(Length, s.todo, t, s.todo[t][1..]);
    ReturnsArePushed(s.mon);
    assert Outstanding(s') == Outstanding(s) + 1;
    LessWork(s, s', Sum(Length, s'.todo), Cost(|s.mon.pc|));
  }

  lemma {:induction false} LessWork(s: State, s': State, left: nat, cost: nat)
    requires left == Sum(Length, s'.todo) && Sum(Length, s.todo) == left + 1
    requires |s'.mon.pc| == |s.mon.pc| && cost == Cost(|s.mon.pc|)
    requires Monitor.Measure(s'.mon) + 20 * Outstanding(s') + SenderLeft(s'.sender)
             < Monitor.Measure(s.mon) + 20 * Outstanding(s) + SenderLeft(s.sender) + cost
    ensures Work(s') < Work(s)
  {
    Times(cost, left);
  }

  lemma StartPopLowersWork(s: State, s': State)
    requires Monitor.Inv(s.mon) && s.mon.pc != [] && s.mon.pc[0].Idle? && s.sender.Top?
    requires s' == s.(mon := Monitor.Goto(s.mon, 0, Monitor.PopLock), sender := Popping)
    ensures Work(s') < Work(s)
  {
    PopCallMeasure(s.mon);
    assert Outstanding(s') == Outstanding(s);
  }

  lemma PopCallMeasure(mon: Monitor.State<ClientPacket>)
    requires mon.pc != [] && mon.pc[0].Idle?
    ensures var m := Monitor.Goto(mon, 0, Monitor.PopLock);
            && Monitor.Measure(m) == Monitor.Measure(mon) + 5
            && Sum(Monitor.OfferedCount, m.pc) == Sum(Monitor.OfferedCount, mon.pc)
  {
    SumUpdate(Monitor.Pending, mon.pc, 0, Monitor.PopLock);
    SumUpdate(Monitor.Weight, mon.pc, 0, Monitor.PopLock);
    SumUpdate(Monitor.OfferedCount, mon.pc, 0, Monitor.PopLock);
  }

  lemma SenderLowersWork(s: State, e: Event)
    requires Next(s, e).Some? && !e.Act? && !e.WakeSpuriously? && !e.StartPush? && !e.StartPop?
    ensures Next(s, e).value.mon == s.mon && Next(s, e).value.todo == s.todo
    ensures SenderLeft(Next(s, e).value.sender) + (if Counts(e) then 1 else 0) <= SenderLeft(s.sender)
  {
  }

  lemma OthersLowerWork(s: State, e: Event)
    requires Next(s, e).Some? && !e.Act? && !e.WakeSpuriously? && !e.StartPush? && !e.StartPop?
    ensures Work(Next(s, e).value) + (if Counts(e) then 1 else 0) <= Work(s)
  {
    SenderLowersWork(s, e);
  }

  lemma WakeRaisesWork(s: State, s': State, t: nat)
    requires t < |s.mon.pc| && s.mon.pc[t].Sleeping? && s' == s.(mon := Monitor.Goto(s.mon, t, Monitor.Woken))
    ensures Work(s') == Work(s) + Monitor.HEAVIEST
  {
    SumUpdate(Monitor.Pending, s.mon.pc, t, Monitor.Woken);
    SumUpdate(Monitor.Weight, s.mon.pc, t, Monitor.Woken);
    SumUpdate(Monitor.OfferedCount, s.mon.pc, t, Monitor.Woken);
  }

  lemma {:induction false} StepLowersWork(s: State, e: Event)
    requires Monitor.Inv(s.mon) && Roles(s) && Next(s, e).Some?
    ensures Work(Next(s, e).value) + (if Counts(e) then 1 else 0) <= Work(s) + if Raises(e) then Monitor.HEAVIEST else 0
  {
    match e
    case WakeSpuriously(t) => WakeRaisesWork(s, Next(s, e).value, t);
    case Act(t) => ActLowersWork(s, t);
    case StartPush(t) => StartPushLowersWork(s, Next(s, e).value, t);
    case StartPop => StartPopLowersWork(s, Next(s, e).value);
    case _ => OthersLowerWork(s, e);
  }

  lemma {:induction false} NothingYet(pc: seq<Monitor.Pc<ClientPacket>>)
    requires forall t :: 0 <= t < |pc| ==> pc[t].Idle?
    ensures Sum(Monitor.Pending, pc) == 0 && Sum(Monitor.Weight, pc) == 0 && Sum(Monitor.OfferedCount, pc) == 0
  {
    if pc != [] {
      NothingYet(pc[..|pc| - 1]);
    }
  }

  /** In every run, whatever else happens in between, the server's own threads act at most Cost times for each packet
      its requests consist of, five times for each spurious wakeup inside the queue, and seven times more. */
  lemma {:induction false} WorkBounded(prog: seq<seq<ClientPacket>>, keys: seq<Key>, es: seq<Event>)
    requires Configured(prog, keys) && Exec(Next, Init(prog, keys), es).Some?
    ensures |Filter(Counts, es)| <= Cost(|prog|) * Sum(Length, prog) + Monitor.HEAVIEST * |Filter(Raises, es)| + 7
  {
    forall m: State, e: Event | Inv(m) && Next(m, e).Some?
      ensures Inv(Next(m, e).value)
              && Work(Next(m, e).value) + (if Counts(e) then 1 else 0) <= Work(m) + if Raises(e) then Monitor.HEAVIEST else 0
    {
      StepKeepsInv(m, e);
      StepLowersWork(m, e);
    }
    InitInv(prog, keys);
    NothingYet(Init(prog, keys).mon.pc);
    BoundedBy(Next, m => Inv(m), (e: Event) => true, Counts, Raises, Monitor.HEAVIEST, Work, Init(prog, keys), es);
  }
}
