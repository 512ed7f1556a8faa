/** Requests that share a client, a type and an id: exactly when the packets of one can still be told apart. */
module Sharing {
  import opened Seqs
  import opened Runs
  import opened Packets
  import opened Pipeline
  import opened Delivery
  import Monitor

  /** How many packets there are in the parts that belong to a key. */
  function Share(k: Key, keys: seq<Key>, parts: seq<seq<ClientPacket>>): nat
    requires |keys| == |parts|
  {
    if keys == [] then 0
    else
      var n := |keys| - 1;
      Share(k, keys[..n], parts[..n]) + if keys[n] == k then |parts[n]| else 0
  }

  lemma {:induction false} ShareUpdate(k: Key, keys: seq<Key>, parts: seq<seq<ClientPacket>>, t: nat, part: seq<ClientPacket>)
    requires t < |keys| == |parts|
    ensures Share(k, keys, parts[t := part]) + (if keys[t] == k then |parts[t]| else 0)
            == Share(k, keys, parts) + if keys[t] == k then |part| else 0
  {
    var n := |keys| - 1;
    if t == n {
      assert parts[t := part][..n] == parts[..n];
    } else {
      assert parts[t := part][..n] == parts[..n][t := part];
      ShareUpdate(k, keys[..n], parts[..n], t, part);
    }
  }

  lemma {:induction false} NothingToShare(k: Key, keys: seq<Key>, parts: seq<seq<ClientPacket>>)
    requires |keys| == |parts| && forall t :: 0 <= t < |parts| ==> parts[t] == []
    ensures Share(k, keys, parts) == 0
  {
    if keys != [] {
      NothingToShare(k, keys[..|keys| - 1], parts[..|keys| - 1]);
    }
  }

  /** What was inserted with a key, and what its requests hold, is what they were to push. */
  ghost predicate Conserved(pushed: seq<ClientPacket>, holds: seq<seq<ClientPacket>>, prog: seq<seq<ClientPacket>>,
                            keys: seq<Key>)
    requires |holds| == |prog| == |keys|
  {
    forall k: Key :: |WithKey(k, pushed)| + Share(k, keys, holds) == Share(k, keys, prog)
  }

  lemma InsertConserves(pushed: seq<ClientPacket>, holds: seq<seq<ClientPacket>>, prog: seq<seq<ClientPacket>>,
                        keys: seq<Key>, t: nat, x: ClientPacket, rest: seq<ClientPacket>)
    requires |holds| == |prog| == |keys| && t < |prog| && Conserved(pushed, holds, prog, keys)
    requires holds[t] == [x] + rest && KeyOf(x) == keys[t]
    ensures Conserved(pushed + [x], holds[t := rest], prog, keys)
  {
    forall k: Key
      ensures |WithKey(k, pushed + [x])| + Share(k, keys, holds[t := rest]) == Share(k, keys, prog)
    {
      FilterSnoc(HasKey(k), pushed, x);
      ShareUpdate(k, keys, holds, t, rest);
    }
  }

  ghost predicate Conserving(s: State) {
    Inv(s) && Conserved(s.mon.pushed, Holdings(s.mon, s.todo), s.prog, s.keys)
  }

  lemma ActConserves(s: State, t: nat)
    requires Conserving(s) && Next(s, Act(t)).Some?
    ensures var s' := Next(s, Act(t)).value;
            |s'.mon.pc| == |s.todo| && Conserved(s'.mon.pushed, Holdings(s'.mon, s.todo), s.prog, s.keys)
  {
    var s' := Next(s, Act(t)).value;
    Monitor.ActEffect(s.mon, t);
    HoldingsAfter(s.mon, s'.mon, s.todo, t);
    if s.mon.pc[t].PushInsert? {
      var x := s.mon.pc[t].item;
      assert x in Holdings(s.mon, s.todo)[t];
      InsertConserves(s.mon.pushed, Holdings(s.mon, s.todo), s.prog, s.keys, t, x, s.todo[t]);
    }
  }

  /** No other event inserts anything. */
  lemma OthersInsertNothing(s: State, e: Event)
    requires |s.mon.pc| == |s.todo| && s.todo != [] && Next(s, e).Some? && !e.Act?
    ensures var s' := Next(s, e).value;
            && s'.mon.pushed == s.mon.pushed && |s'.mon.pc| == |s'.todo|
            && Holdings(s'.mon, s'.todo) == Holdings(s.mon, s.todo)
  {
    match e
    case StartPush(t) =>
      assert [s.todo[t][0]] + s.todo[t][1..] == [] + s.todo[t];
      HandedOn(s.mon, s.todo, t, Monitor.PushLock(s.todo[t][0]), s.todo[t][1..]);
    case StartPop =>
      assert s.todo[0 := s.todo[0]] == s.todo;
      HandedOn(s.mon, s.todo, 0, Monitor.PopLock, s.todo[0]);
    case WakeSpuriously(t) =>
      assert s.todo[t := s.todo[t]] == s.todo;
      HandedOn(s.mon, s.todo, t, Monitor.Woken, s.todo[t]);
    case _ =>
  }

  lemma HandedOn(mon: Monitor.State<ClientPacket>, todo: seq<seq<ClientPacket>>, t: nat, c: Monitor.Pc<ClientPacket>,
                 rest: seq<ClientPacket>)
    requires |mon.pc| == |todo| && t < |todo| && Monitor.Offered(c) + rest == Held(mon, todo, t)
    ensures Holdings(Monitor.Goto(mon, t, c), todo[t := rest]) == Holdings(mon, todo)
  {
    forall u | 0 <= u < |todo|
      ensures Held(Monitor.Goto(mon, t, c), todo[t := rest], u) == Held(mon, todo, u)
    {
    }
  }

  lemma StepConserves(s: State, e: Event)
    requires Conserving(s) && Next(s, e).Some?
    ensures Conserving(Next(s, e).value)
  {
    StepKeepsInv(s, e);
    ConfigurationStays(s, e);
    if e.Act? {
      ActConserves(s, e.t);
    } else {
      OthersInsertNothing(s, e);
    }
  }

  lemma InitConserves(prog: seq<seq<ClientPacket>>, keys: seq<Key>)
    requires Configured(prog, keys)
    ensures Conserving(Init(prog, keys))
  {
    InitInv(prog, keys);
    AllHeld(prog);
    assert Conserved([], prog, prog, keys);
  }

  lemma {:induction false} SharesConserved(prog: seq<seq<ClientPacket>>, keys: seq<Key>, es: seq<Event>)
    requires Configured(prog, keys) && Exec(Next, Init(prog, keys), es).Some?
    ensures Conserving(Exec(Next, Init(prog, keys), es).value)
  {
    forall m: State, e: Event | Conserving(m) && Next(m, e).Some?
      ensures Conserving(Next(m, e).value)
    {
      StepConserves(m, e);
    }
    InitConserves(prog, keys);
    Invariance(Next, m => Conserving(m), Init(prog, keys), es);
  }

  /** A second request with the same key adds to the share. */
  lemma {:induction false} ShareOfTwo(k: Key, keys: seq<Key>, parts: seq<seq<ClientPacket>>, t: nat, u: nat)
    requires |keys| == |parts| && t < |keys| && u < |keys| && t != u && keys[t] == keys[u] == k
    ensures Share(k, keys, parts) >= |parts[t]| + |parts[u]|
  {
    var without := parts[t := []];
    ShareUpdate(k, keys, parts, t, []);
    ShareUpdate(k, keys, without, u, []);
  }

  /** Once the pipeline is drained, what a live client has received with the tag of a request is exactly the request's
      packets if and only if no other request pushes packets with the same client, type and id. */
  lemma {:induction false} ToldApartIff(prog: seq<seq<ClientPacket>>, keys: seq<Key>, es: seq<Event>, t: nat)
    requires Configured(prog, keys) && Exec(Next, Init(prog, keys), es).Some?
    requires 0 < t < |prog| && keys[t].kind != INVALID
    requires keys[t].client !in Exec(Next, Init(prog, keys), es).value.expired
    ensures var s := Exec(Next, Init(prog, keys), es).value;
            && |s.mon.pc| == |s.todo| == |s.prog|
            && (Drained(s) ==>
                  (Filter(Tagged(keys[t].kind, keys[t].id), Frames(s, keys[t].client)) == Views(prog[t])
                   <==> Alone(prog, keys, t)))
  {
    Reachable(prog, keys, es);
    SharesConserved(prog, keys, es);
    var s := Exec(Next, Init(prog, keys), es).value;
    if Drained(s) {
      ToldApart(s, t);
    }
  }

  lemma ToldApart(s: State, t: nat)
    requires Conserving(s) && Drained(s) && 0 < t < |s.prog|
    requires s.keys[t].kind != INVALID && s.keys[t].client !in s.expired
    ensures Filter(Tagged(s.keys[t].kind, s.keys[t].id), Frames(s, s.keys[t].client)) == Views(s.prog[t])
            <==> Alone(s.prog, s.keys, t)
  {
    if Alone(s.prog, s.keys, t) {
      DrainedIsSettled(s, t);
      ArrivedIff(s, t);
    } else {
      var u :| 0 < u < |s.keys| && u != t && s.keys[u] == s.keys[t] && s.prog[u] != [];
      AllInserted(s, s.keys[t]);
      DecidedFrames(s, s.keys[t]);
      ShareOfTwo(s.keys[t], s.keys, s.prog, t, u);
    }
  }

  lemma AllInserted(s: State, k: Key)
    requires Conserving(s) && Drained(s)
    ensures |WithKey(k, s.mon.pushed)| == Share(k, s.keys, s.prog)
  {
    NothingToShare(k, s.keys, Holdings(s.mon, s.todo));
  }
}
