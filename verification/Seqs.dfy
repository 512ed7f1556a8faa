/** Sequences and options shared by the whole project. */
module Seqs {

  datatype Option<+T> = None | Some(value: T)

  /** The concatenation of a sequence of sequences. */
  function Flatten<T>(ss: seq<seq<T>>): seq<T> {
    if ss == [] then [] else ss[0] + Flatten(ss[1..])
  }

  lemma {:induction false} FlattenConcat<T>(a: seq<seq<T>>, b: seq<seq<T>>)
    ensures Flatten(a + b) == Flatten(a) + Flatten(b)
  {
    if a == [] {
      assert a + b == b;
    } else {
      assert (a + b)[1..] == a[1..] + b;
      FlattenConcat(a[1..], b);
    }
  }

  lemma FlattenSnoc<T>(a: seq<seq<T>>, x: seq<T>)
    ensures Flatten(a + [x]) == Flatten(a) + x
  {
    FlattenConcat(a, [x]);
    assert Flatten([x]) == x + Flatten<T>([]);
  }

  /** was, with the first n elements of src copied over it from position to on. */
  function Splice<T>(was: seq<T>, to: nat, src: seq<T>, n: nat): (r: seq<T>)
    requires n <= |src| && to + n <= |was|
    ensures |r| == |was|
  {
    was[..to] + src[..n] + was[to + n..]
  }

  lemma SpliceNext<T>(was: seq<T>, to: nat, src: seq<T>, n: nat)
    requires n < |src| && to + n < |was|
    ensures Splice(was, to, src, n)[to + n := src[n]] == Splice(was, to, src, n + 1)
  {
  }

  lemma SpliceStart<T>(was: seq<T>, to: nat, src: seq<T>)
    requires to <= |was|
    ensures Splice(was, to, src, 0) == was
  {
  }

  /** Copied to the beginning. */
  lemma SpliceAtStart<T>(was: seq<T>, src: seq<T>, n: nat)
    requires n <= |src| && n <= |was|
    ensures Splice(was, 0, src, n) == src[..n] + was[n..]
    ensures Splice(was, 0, src, n)[..n] == src[..n] && Splice(was, 0, src, n)[n..] == was[n..]
  {
  }

  /** What lies further on stays. */
  lemma SpliceTail<T>(was: seq<T>, src: seq<T>, n: nat, from: nat)
    requires n <= |src| && n <= from <= |was|
    ensures Splice(was, 0, src, n)[from..] == was[from..]
  {
  }

  /** A second copy to the beginning that is at least as long hides the first. */
  lemma CopiedOver<T>(was: seq<T>, first: seq<T>, n: nat, second: seq<T>)
    requires n <= |first| && n <= |second| <= |was|
    ensures Splice(Splice(was, 0, first, n), 0, second, |second|) == second + was[|second|..]
  {
    SpliceTail(was, first, n, |second|);
    SpliceAtStart(Splice(was, 0, first, n), second, |second|);
    assert second[..|second|] == second;
  }

  lemma AppendNothing<T>(a: seq<T>)
    ensures a + [] == a
  {
  }

  lemma DropOfConcat<T>(a: seq<T>, b: seq<T>, n: nat)
    requires n <= |a|
    ensures (a + b)[n..] == a[n..] + b
  {
  }

  lemma SliceOfTake<T>(s: seq<T>, n: nat, from: nat, upto: nat)
    requires from <= upto <= n <= |s|
    ensures s[..n][from..upto] == s[from..upto]
  {
  }

  /** Applies f to every element. */
  function Map<T, U>(f: T -> U, s: seq<T>): (r: seq<U>)
    ensures |r| == |s|
    ensures forall i :: 0 <= i < |s| ==> r[i] == f(s[i])
  {
    if s == [] then [] else Map(f, s[..|s| - 1]) + [f(s[|s| - 1])]
  }

  lemma MapConcat<T, U>(f: T -> U, a: seq<T>, b: seq<T>)
    ensures Map(f, a + b) == Map(f, a) + Map(f, b)
  {
  }

  lemma MapSnoc<T, U>(f: T -> U, s: seq<T>, x: T)
    ensures Map(f, s + [x]) == Map(f, s) + [f(x)]
  {
    assert (s + [x])[..|s|] == s;
  }

  /** Keeps, in order, the elements that satisfy p. */
  function Filter<T>(p: T -> bool, s: seq<T>): seq<T> {
    if s == [] then []
    else Filter(p, s[..|s| - 1]) + if p(s[|s| - 1]) then [s[|s| - 1]] else []
  }

  lemma {:induction false} FilterMember<T>(p: T -> bool, s: seq<T>, x: T)
    ensures x in Filter(p, s) <==> x in s && p(x)
  {
    if s != [] {
      var n := |s| - 1;
      FilterMember(p, s[..n], x);
      assert s == s[..n] + [s[n]];
    }
  }

  lemma FilterSnoc<T>(p: T -> bool, s: seq<T>, x: T)
    ensures Filter(p, s + [x]) == Filter(p, s) + if p(x) then [x] else []
  {
    assert (s + [x])[..|s|] == s;
  }

  lemma {:induction false} FilterConcat<T>(p: T -> bool, a: seq<T>, b: seq<T>)
    ensures Filter(p, a + b) == Filter(p, a) + Filter(p, b)
  {
    if b == [] {
      assert a + b == a;
    } else {
      var n := |b| - 1;
      assert (a + b)[..|a + b| - 1] == a + b[..n];
      FilterConcat(p, a, b[..n]);
    }
  }

  lemma {:induction false} FilterAll<T>(p: T -> bool, s: seq<T>)
    requires forall x :: x in s ==> p(x)
    ensures Filter(p, s) == s
  {
    if s != [] {
      var n := |s| - 1;
      FilterAll(p, s[..n]);
      assert s == s[..n] + [s[n]] && p(s[n]);
    }
  }

  /** Filtering keeps the prefix order. */
  lemma FilterPrefix<T>(p: T -> bool, a: seq<T>, b: seq<T>)
    requires a <= b
    ensures Filter(p, a) <= Filter(p, b)
  {
    assert b == a + b[|a|..];
    FilterConcat(p, a, b[|a|..]);
  }

  /** Mapping keeps the prefix order. */
  lemma MapPrefix<T, U>(f: T -> U, a: seq<T>, b: seq<T>)
    requires a <= b
    ensures Map(f, a) <= Map(f, b)
  {
  }

  /** Concatenating keeps the prefix order. */
  lemma FlattenPrefix<T>(a: seq<seq<T>>, b: seq<seq<T>>)
    requires a <= b
    ensures Flatten(a) <= Flatten(b)
  {
    assert b == a + b[|a|..];
    FlattenConcat(a, b[|a|..]);
  }

  lemma Times(k: nat, n: nat)
    ensures k * (n + 1) == k * n + k
    ensures (n + 1) * k == n * k + k
  {
  }

  /** The total weight of the elements of s. */
  function Sum<T>(w: T -> nat, s: seq<T>): nat {
    if s == [] then 0 else Sum(w, s[..|s| - 1]) + w(s[|s| - 1])
  }

  lemma {:induction false} SumUpdate<T>(w: T -> nat, s: seq<T>, i: nat, x: T)
    requires i < |s|
    ensures Sum(w, s[i := x]) + w(s[i]) == Sum(w, s) + w(x)
  {
    var n := |s| - 1;
    if i == n {
      assert s[i := x][..n] == s[..n];
    } else {
      assert s[i := x][..n] == s[..n][i := x];
      SumUpdate(w, s[..n], i, x);
    }
  }

  /** If every weight is at most k, the total is at most k times the length. */
  lemma {:induction false} SumBound<T>(w: T -> nat, s: seq<T>, k: nat)
    requires forall x :: x in s ==> w(x) <= k
    ensures Sum(w, s) <= k * |s|
  {
    if s != [] {
      SumBound(w, s[..|s| - 1], k);
      Times(k, |s| - 1);
    }
  }

  /** If every element weighs at least one, the total is at least the length. */
  lemma {:induction false} SumAtLeast<T>(w: T -> nat, s: seq<T>)
    requires forall x :: x in s ==> 1 <= w(x)
    ensures |s| <= Sum(w, s)
  {
    if s != [] {
      SumAtLeast(w, s[..|s| - 1]);
    }
  }
}
