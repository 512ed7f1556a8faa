/** Runs of a step machine: a schedule is a sequence of events, and an event that is not enabled ends the run. */
module Runs {
  import opened Seqs

  /** The state reached from s by the schedule es, or None when some event of es was not enabled. */
  function Exec<S, E>(next: (S, E) -> Option<S>, s: S, es: seq<E>): Option<S> {
    if es == [] then Some(s)
    else
      match Exec(next, s, es[..|es| - 1])
      case None => None
      case Some(m) => next(m, es[|es| - 1])
  }

  /** What holds at the start and is kept by every enabled event holds after every schedule. */
  lemma {:induction false} Invariance<S(!new), E(!new)>(next: (S, E) -> Option<S>, inv: S -> bool, s: S, es: seq<E>)
    requires inv(s)
    requires forall m, e :: inv(m) && next(m, e).Some? ==> inv(next(m, e).value)
    ensures Exec(next, s, es).Some? ==> inv(Exec(next, s, es).value)
  {
    if es != [] {
      Invariance(next, inv, s, es[..|es| - 1]);
    }
  }

  /** A schedule in two parts: the second goes on where the first ends. */
  lemma {:induction false} ExecConcat<S, E>(next: (S, E) -> Option<S>, s: S, a: seq<E>, b: seq<E>)
    requires Exec(next, s, a).Some?
    ensures Exec(next, s, a + b) == Exec(next, Exec(next, s, a).value, b)
  {
    if b == [] {
      assert a + b == a;
    } else {
      var n := |b| - 1;
      assert (a + b)[..|a + b| - 1] == a + b[..n];
      ExecConcat(next, s, a, b[..n]);
    }
  }

  /** The states of a run, one after the other. */
  ghost predicate Trace<S, E>(next: (S, E) -> Option<S>, ms: seq<S>, es: seq<E>) {
    |ms| == |es| + 1 && forall i :: 0 <= i < |es| ==> next(ms[i], es[i]) == Some(ms[i + 1])
  }

  lemma {:induction false} TraceExec<S, E>(next: (S, E) -> Option<S>, ms: seq<S>, es: seq<E>)
    requires Trace(next, ms, es)
    ensures Exec(next, ms[0], es) == Some(ms[|es|])
  {
    if es != [] {
      var n := |es| - 1;
      TraceExec(next, ms[..n + 1], es[..n]);
    }
  }

  lemma TwoEvents<S, E>(next: (S, E) -> Option<S>, s: S, e: E, m: S, f: E, q: S)
    requires next(s, e) == Some(m) && next(m, f) == Some(q)
    ensures Exec(next, s, [e, f]) == Some(q)
  {
    TraceExec(next, [s, m, q], [e, f]);
  }

  lemma ThreeEvents<S, E>(next: (S, E) -> Option<S>, s: S, e: E, m: S, f: E, n: S, g: E, q: S)
    requires next(s, e) == Some(m) && next(m, f) == Some(n) && next(n, g) == Some(q)
    ensures Exec(next, s, [e, f, g]) == Some(q)
  {
    TraceExec(next, [s, m, n, q], [e, f, g]);
  }

  /** In a run of allowed events, if each event that counts lowers a measure, and none raises it but those of one
      kind, by at most k each, then no more events count than the measure was, plus k for each event of that kind. */
  lemma {:induction false} BoundedBy<S(!new), E(!new)>(next: (S, E) -> Option<S>, inv: S -> bool, allowed: E -> bool,
                                                        counts: E -> bool, raises: E -> bool, k: nat,
                                                        measure: S -> nat, s: S, es: seq<E>)
    requires inv(s)
    requires forall m, e :: inv(m) && allowed(e) && next(m, e).Some? ==>
                              inv(next(m, e).value)
                              && measure(next(m, e).value) + (if counts(e) then 1 else 0)
                                 <= measure(m) + if raises(e) then k else 0
    requires forall e :: e in es ==> allowed(e)
    requires Exec(next, s, es).Some?
    ensures inv(Exec(next, s, es).value)
    ensures |Filter(counts, es)| + measure(Exec(next, s, es).value) <= measure(s) + k * |Filter(raises, es)|
  {
    if es != [] {
      var n := |es| - 1;
      BoundedBy(next, inv, allowed, counts, raises, k, measure, s, es[..n]);
      Times(k, |Filter(raises, es[..n])|);
    }
  }

  /** What holds at the start and is kept by every enabled event of a kind holds after every schedule of that kind. */
  lemma {:induction false} InvarianceUnder<S(!new), E(!new)>(next: (S, E) -> Option<S>, inv: S -> bool, allowed: E -> bool,
                                                              s: S, es: seq<E>)
    requires inv(s)
    requires forall m, e :: inv(m) && allowed(e) && next(m, e).Some? ==> inv(next(m, e).value)
    requires forall e :: e in es ==> allowed(e)
    ensures Exec(next, s, es).Some? ==> inv(Exec(next, s, es).value)
  {
    if es != [] {
      InvarianceUnder(next, inv, allowed, s, es[..|es| - 1]);
    }
  }

  /** If no event raises the measure, no more events count than the measure was. */
  lemma Bounded<S(!new), E(!new)>(next: (S, E) -> Option<S>, inv: S -> bool, allowed: E -> bool,
                                                      counts: E -> bool, measure: S -> nat, s: S, es: seq<E>)
    requires inv(s)
    requires forall m, e :: inv(m) && allowed(e) && next(m, e).Some? ==>
                              inv(next(m, e).value)
                              && measure(next(m, e).value) + (if counts(e) then 1 else 0) <= measure(m)
    requires forall e :: e in es ==> allowed(e)
    requires Exec(next, s, es).Some?
    ensures inv(Exec(next, s, es).value)
    ensures |Filter(counts, es)| + measure(Exec(next, s, es).value) <= measure(s)
  {
    BoundedBy(next, inv, allowed, counts, counts, 0, measure, s, es);
  }
}
