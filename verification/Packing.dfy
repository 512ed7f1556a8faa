/** Packing fixed-size records into packets without splitting a record. */
module Packing {
  import opened Seqs
  import opened Bytes

  /** How many records of size s fit a packet of size cap. */
  function PerPacket(s: nat, cap: nat): nat
    requires 0 < s <= cap
  {
    cap / s
  }

  /** Packets needed for n records, per of them to a packet; an empty list still takes one. */
  function PacketsFor(n: nat, per: nat): nat
    requires per > 0
  {
    if n == 0 then 1 else (n - 1) / per + 1
  }

  /** The records of a list, packed greedily: every packet but the last is full, and the last is empty only when
      there is nothing to pack. */
  ghost predicate Greedy<T>(groups: seq<seq<T>>, records: seq<T>, per: nat) {
    && groups != [] && Flatten(groups) == records
    && (forall k :: 0 <= k < |groups| - 1 ==> |groups[k]| == per)
    && |groups[|groups| - 1]| <= per
    && (groups[|groups| - 1] == [] ==> records == [])
  }

  lemma {:induction false} FullGroups<T>(groups: seq<seq<T>>, per: nat)
    requires forall k :: 0 <= k < |groups| ==> |groups[k]| == per
    ensures |Flatten(groups)| == per * |groups|
  {
    if groups != [] {
      FullGroups(groups[1..], per);
      Times(per, |groups| - 1);
    }
  }

  lemma {:induction false} QuotientIs(n: nat, per: nat, q: nat)
    requires per > 0 && per * q <= n < per * q + per
    ensures n / per == q
  {
    var d := n / per;
    assert n == per * d + n % per;
    MulOrder(per, d + 1, q);
    MulOrder(per, q + 1, d);
  }

  lemma MulOrder(k: nat, a: nat, b: nat)
    ensures a <= b ==> k * a <= k * b
  {
  }

  /** Greedy packing uses max(1, ceil(n / per)) packets. */
  lemma GreedyCount<T>(groups: seq<seq<T>>, records: seq<T>, per: nat)
    requires per > 0 && Greedy(groups, records, per)
    ensures |groups| == PacketsFor(|records|, per)
  {
    var q := |groups| - 1;
    var last := groups[q];
    assert groups == groups[..q] + [last];
    FlattenSnoc(groups[..q], last);
    FullGroups(groups[..q], per);
    if records == [] {
      MulOrder(per, 1, q);
    } else {
      QuotientIs(|records| - 1, per, q);
    }
  }

  lemma {:induction false} GroupsBound<T>(groups: seq<seq<T>>, per: nat)
    requires forall g :: g in groups ==> |g| <= per
    ensures |Flatten(groups)| <= per * |groups|
  {
    if groups != [] {
      GroupsBound(groups[1..], per);
      Times(per, |groups| - 1);
    }
  }

  lemma {:induction false} PacketsForBound(n: nat, per: nat, m: nat)
    requires per > 0 && 0 < n <= per * m
    ensures PacketsFor(n, per) <= m
  {
    var q := (n - 1) / per;
    assert n - 1 == per * q + (n - 1) % per;
    MulOrder(per, m, q);
  }

  lemma GreedyMinimal<T>(greedy: seq<seq<T>>, groups: seq<seq<T>>, per: nat)
    requires per > 0 && Greedy(greedy, Flatten(groups), per)
    requires forall g :: g in groups ==> |g| <= per
    ensures Flatten(groups) != [] ==> |greedy| <= |groups|
  {
    GroupsBound(groups, per);
    GreedyCount(greedy, Flatten(groups), per);
    if Flatten(groups) != [] {
      PacketsForBound(|Flatten(groups)|, per, |groups|);
    }
  }

  /** A packet's worth of whole records. */
  ghost predicate Fits(g: seq<seq<byte>>, s: nat, cap: nat) {
    (forall r :: r in g ==> |r| == s) && |Flatten(g)| <= cap
  }

  lemma FittingGroup(g: seq<seq<byte>>, s: nat, cap: nat)
    requires 0 < s <= cap && Fits(g, s, cap)
    ensures |g| <= PerPacket(s, cap)
  {
    FlattenUniform(g, s);
    FitsIff(|g|, s, cap);
  }

  lemma PerPacketPositive(s: nat, cap: nat)
    requires 0 < s <= cap
    ensures PerPacket(s, cap) > 0
  {
    FitsIff(1, s, cap);
  }

  /** No packing that keeps records whole, of whatever size, needs fewer packets than the greedy one. */
  lemma {:induction false} PackingOptimal(greedy: seq<seq<seq<byte>>>, groups: seq<seq<seq<byte>>>, s: nat, cap: nat)
    requires 0 < s <= cap && Greedy(greedy, Flatten(groups), PerPacket(s, cap))
    requires forall g :: g in groups ==> Fits(g, s, cap)
    ensures Flatten(groups) != [] ==> |greedy| <= |groups|
  {
    var per := PerPacket(s, cap);
    PerPacketPositive(s, cap);
    forall g | g in groups
      ensures |g| <= per
    {
      FittingGroup(g, s, cap);
    }
    GreedyMinimal(greedy, groups, per);
  }

  /** The greedy packets fit. */
  lemma {:induction false} GreedyFits(greedy: seq<seq<seq<byte>>>, records: seq<seq<byte>>, s: nat, cap: nat, k: nat)
    requires 0 < s <= cap && Greedy(greedy, records, PerPacket(s, cap)) && k < |greedy|
    requires forall r :: r in records ==> |r| == s
    ensures |Flatten(greedy[k])| == s * |greedy[k]| <= cap
  {
    forall r | r in greedy[k]
      ensures |r| == s
    {
      InFlatten(greedy, r);
    }
    FlattenUniform(greedy[k], s);
    FitsIff(|greedy[k]|, s, cap);
  }

  lemma {:induction false} InFlatten<T>(groups: seq<seq<T>>, x: T)
    ensures x in Flatten(groups) <==> exists k :: 0 <= k < |groups| && x in groups[k]
  {
    if groups != [] {
      InFlatten(groups[1..], x);
      if k :| 0 <= k < |groups| && x in groups[k] {
        assert k == 0 || x in groups[1..][k - 1];
      }
    }
  }

  lemma {:induction false} FlattenUniform(g: seq<seq<byte>>, s: nat)
    requires forall r :: r in g ==> |r| == s
    ensures |Flatten(g)| == s * |g|
  {
    if g != [] {
      FlattenUniform(g[1..], s);
      Times(s, |g| - 1);
    }
  }

  /** n records fit a packet if and only if n is at most PerPacket. */
  lemma {:induction false} FitsIff(n: nat, s: nat, cap: nat)
    requires 0 < s <= cap
    ensures s * n <= cap <==> n <= PerPacket(s, cap)
  {
    var per := cap / s;
    assert cap == s * per + cap % s;
    MulOrder(s, n, per);
    MulOrder(s, per + 1, n);
    Times(s, per);
  }

  /** Cuts a payload into records of size s. */
  function Split(b: seq<byte>, s: nat): seq<seq<byte>>
    requires s > 0
  {
    if |b| < s then [] else [b[..s]] + Split(b[s..], s)
  }

  lemma {:induction false} SplitFlatten(g: seq<seq<byte>>, s: nat)
    requires s > 0 && forall r :: r in g ==> |r| == s
    ensures Split(Flatten(g), s) == g
  {
    if g != [] {
      var b := Flatten(g);
      assert b[..s] == g[0] && b[s..] == Flatten(g[1..]);
      SplitFlatten(g[1..], s);
    }
  }
}
