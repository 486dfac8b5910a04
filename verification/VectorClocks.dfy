/**
  Vector clocks (`VectorClock` in peerq/consensus.py): maps from peer to a
  positive counter, where an absent peer counts zero.
 */
module VectorClocks {

  type PeerId = string

  /** Normalised clocks: zero counters are never stored. */
  type Clock = map<PeerId, pos>

  type pos = x: int | 0 < x witness 1

  datatype Comparison = Before | After | Equal | Concurrent

  function Normalize(counters: map<PeerId, int>): (c: Clock)
    ensures forall p :: Get(c, p) == if p in counters && counters[p] > 0 then counters[p] else 0
  {
    map p | p in counters && counters[p] > 0 :: counters[p]
  }

  function Get(c: Clock, p: PeerId): nat {
    if p in c then c[p] else 0
  }

  function Max(x: int, y: int): int { if x >= y then x else y }

  function Increment(c: Clock, p: PeerId): (r: Clock)
    ensures Get(r, p) == Get(c, p) + 1
    ensures forall q :: q != p ==> Get(r, q) == Get(c, q)
    ensures r.Keys == c.Keys + {p}
    ensures Leq(c, r) && !Leq(r, c)
  {
    var r := c[p := Get(c, p) + 1];
    assert Get(r, p) > Get(c, p);
    r
  }

  function Merge(a: Clock, b: Clock): (r: Clock)
    ensures r.Keys == a.Keys + b.Keys
    ensures forall p :: Get(r, p) == Max(Get(a, p), Get(b, p))
  {
    map p | p in a.Keys + b.Keys :: Max(Get(a, p), Get(b, p))
  }

  /** The causal order: every counter of `a` is at most the one of `b`. */
  ghost predicate Leq(a: Clock, b: Clock) {
    forall p :: Get(a, p) <= Get(b, p)
  }

  predicate DominatedOn(keys: set<PeerId>, a: Clock, b: Clock) {
    forall p | p in keys :: Get(a, p) <= Get(b, p)
  }

  function Compare(a: Clock, b: Clock): (r: Comparison)
  {
    var keys := a.Keys + b.Keys;
    var ab := DominatedOn(keys, a, b);
    var ba := DominatedOn(keys, b, a);
    if ab && ba then Equal
    else if ab then Before
    else if ba then After
    else Concurrent
  }

  lemma LeqAntisymmetric(a: Clock, b: Clock)
    requires Leq(a, b) && Leq(b, a)
    ensures a == b
  {
    forall p | p in a.Keys + b.Keys ensures p in a && p in b && a[p] == b[p] {
      assert Get(a, p) == Get(b, p);
    }
    assert a.Keys == b.Keys;
  }

  /** `compare` decides the causal order, in all four outcomes. */
  lemma CompareDecidesOrder(a: Clock, b: Clock)
    ensures Compare(a, b) == Equal <==> a == b
    ensures Compare(a, b) == Before <==> Leq(a, b) && a != b
    ensures Compare(a, b) == After <==> Leq(b, a) && a != b
    ensures Compare(a, b) == Concurrent <==> !Leq(a, b) && !Leq(b, a)
  {
    assert DominatedOn(a.Keys + b.Keys, a, b) <==> Leq(a, b);
    assert DominatedOn(a.Keys + b.Keys, b, a) <==> Leq(b, a);
    if Leq(a, b) && Leq(b, a) { LeqAntisymmetric(a, b); }
  }

  /** `merge` is the least upper bound of the order that `compare` decides. */
  lemma MergeIsLeastUpperBound(a: Clock, b: Clock, c: Clock)
    ensures Leq(a, Merge(a, b)) && Leq(b, Merge(a, b))
    ensures Leq(Merge(a, b), c) <==> Leq(a, c) && Leq(b, c)
  {
    if Leq(Merge(a, b), c) {
      forall p ensures Get(a, p) <= Get(c, p) && Get(b, p) <= Get(c, p) {
        assert Get(Merge(a, b), p) <= Get(c, p);
      }
    }
  }

  /** A clock below another is absorbed by it. */
  lemma MergeAbsorbs(a: Clock, b: Clock)
    requires Leq(a, b)
    ensures Merge(a, b) == b && Merge(b, a) == b
  {
    LeqAntisymmetric(Merge(a, b), b);
    LeqAntisymmetric(Merge(b, a), b);
  }
}
