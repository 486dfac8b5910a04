/**
  The log-linear histogram (`LogLinearHistogram` in peerq/metrics.py) over real
  values: its bucket arithmetic, and the accuracy of every quantile it reports.
 */
module Histogram {
  import opened Orders

  // ---------- Powers of two ----------

  function Pow2(n: nat): (p: nat)
    ensures p >= 1
  {
    if n == 0 then 1 else 2 * Pow2(n - 1)
  }

  lemma {:induction false} Pow2Adds(a: nat, b: nat)
    ensures Pow2(a + b) == Pow2(a) * Pow2(b)
  {
    if a > 0 {
      Pow2Adds(a - 1, b);
      assert Pow2(a + b) == 2 * (Pow2(a - 1) * Pow2(b)) == Pow2(a) * Pow2(b);
    }
  }

  lemma {:induction false} Pow2Monotone(a: nat, b: nat)
    requires a <= b
    ensures Pow2(a) <= Pow2(b)
  {
    if a < b { Pow2Monotone(a, b - 1); }
  }

  lemma Pow2Cancel(a: nat, b: nat)
    requires Pow2(a) < Pow2(b)
    ensures a < b
  {
    hide Pow2;
    if b <= a { Pow2Monotone(b, a); }
  }

  /** `bit_length() - 1`: the exponent of the highest bit. */
  function Log2(n: nat): (e: nat)
    requires n >= 1
    ensures Pow2(e) <= n < Pow2(e + 1)
  {
    if n == 1 then 0 else 1 + Log2(n / 2)
  }

  lemma Log2Monotone(a: nat, b: nat)
    requires 1 <= a <= b
    ensures Log2(a) <= Log2(b)
  {
    hide Pow2, Log2;
    Pow2Cancel(Log2(a), Log2(b) + 1);
  }

  function Ceil(x: real): int { -((-x).Floor) }

  /** `ceil(log2(x))`: the least exponent whose power reaches x. */
  function CeilLog2(x: real): (m: nat)
    requires x > 1.0
    ensures x <= Pow2(m) as real
    ensures m > 0 && (Pow2(m - 1) as real) < x
  {
    1 + Log2(Ceil(x) - 1)
  }

  // ---------- Bucket arithmetic ----------

  /** `sub_bucket_bits` with the octave of the largest value the constructor provides for. */
  datatype Shape = Shape(bits: nat, maxOctave: nat) {
    function Linear(): nat { Pow2(bits) }
    function Buckets(): nat { Linear() + Max(1, maxOctave - bits + 1) * Linear() }
  }

  function Max(a: int, b: int): int { if a >= b then a else b }

  function ShapeFor(bits: nat, maxValue: real): (s: Shape)
    ensures s.bits == bits && s.maxOctave >= bits
  {
    if maxValue > Pow2(bits) as real then
      var m := CeilLog2(maxValue);
      assert m >= bits by { Pow2Cancel(bits, m + 1); }
      Shape(bits, m)
    else Shape(bits, bits)
  }

  /** The bucket of an integer part in the octaves, before clamping. */
  function OctaveIndex(bits: nat, n: nat): nat
    requires n >= Pow2(bits)
  {
    var octave := Log2(n);
    assert octave >= bits by { OctaveAtLeast(bits, n); }
    Pow2(bits) + (octave - bits) * Pow2(bits) + n / Pow2(octave - bits) % Pow2(bits)
  }

  lemma OctaveAtLeast(bits: nat, n: nat)
    requires n >= Pow2(bits)
    ensures Log2(n) >= bits
  {
    hide Pow2, Log2;
    Pow2Cancel(bits, Log2(n) + 1);
  }

  /** `_value_to_index` of a recorded (non-negative) value. */
  function Index(s: Shape, v: real): (i: nat)
    requires v >= 0.0
  {
    if v < s.Linear() as real then v.Floor
    else
      var i := OctaveIndex(s.bits, v.Floor);
      if i < s.Buckets() then i else s.Buckets() - 1
  }

  function Quotient(n: nat, w: nat): nat
    requires w > 0
  {
    n / w
  }

  /** `_index_to_approx_value`: the centre of a bucket. */
  function Approx(s: Shape, i: nat): real {
    if i < s.Linear() then i as real + 0.5
    else
      var offset := i - s.Linear();
      var octave := Quotient(offset, s.Linear()) + s.bits;
      var width := Pow2(octave - s.bits);
      (Pow2(octave) + offset % s.Linear() * width) as real + width as real / 2.0
  }

  lemma DivBounds(n: nat, w: nat)
    requires w > 0
    ensures n / w * w <= n < (n / w + 1) * w
  {}

  lemma MulCancel(a: int, b: int, w: nat)
    requires a * w < b * w
    ensures a < b
  {}

  lemma QuotientRange(n: nat, w: nat, lo: nat, hi: nat)
    requires w > 0 && lo * w <= n < hi * w
    ensures lo <= n / w < hi
  {
    DivBounds(n, w);
    MulCancel(lo, n / w + 1, w);
    MulCancel(n / w, hi, w);
  }

  /** Inside an octave the sub-bucket is the top `bits + 1` bits of the value, less the leading one. */
  lemma SubBucket(bits: nat, n: nat)
    requires n >= Pow2(bits)
    ensures Log2(n) >= bits
    ensures var q, l := n / Pow2(Log2(n) - bits), Pow2(bits);
            l <= q < 2 * l && q % l == q - l && OctaveIndex(bits, n) == (Log2(n) - bits) * l + q
  {
    OctaveAtLeast(bits, n);
    var w, l := Pow2(Log2(n) - bits), Pow2(bits);
    Pow2Adds(bits, Log2(n) - bits);
    Pow2Adds(bits + 1, Log2(n) - bits);
    assert Pow2(bits + 1) == 2 * l;
    QuotientRange(n, w, l, 2 * l);
    var q := n / w;
    ModOnce(q, l);
  }

  lemma ModOnce(q: nat, l: nat)
    requires l > 0 && l <= q < 2 * l
    ensures q % l == q - l
  {}

  lemma OctaveIndexMonotone(bits: nat, a: nat, b: nat)
    requires Pow2(bits) <= a <= b
    ensures OctaveIndex(bits, a) <= OctaveIndex(bits, b)
  {
    hide OctaveIndex, Pow2, Log2;
    SubBucket(bits, a);
    SubBucket(bits, b);
    Log2Monotone(a, b);
    var l, oa, ob := Pow2(bits), Log2(a) - bits, Log2(b) - bits;
    if oa == ob {
      DivMonotone(a, b, Pow2(oa));
    } else {
      LaterOctave(oa, a / Pow2(oa), ob, b / Pow2(ob), l);
    }
  }

  lemma LaterOctave(oa: nat, qa: nat, ob: nat, qb: nat, l: nat)
    requires oa < ob && qa < 2 * l && l <= qb
    ensures oa * l + qa < ob * l + qb
  {
    MulMonotone(oa + 1, ob, l);
  }

  lemma MulMonotone(a: int, b: int, l: nat)
    requires a <= b
    ensures a * l <= b * l
  {}

  lemma DivMonotone(a: nat, b: nat, w: nat)
    requires w > 0 && a <= b
    ensures a / w <= b / w
  {
    DivBounds(a, w);
    DivBounds(b, w);
    MulCancel(a / w, b / w + 1, w);
  }

  /** Larger values never land in smaller buckets. */
  lemma IndexMonotone(s: Shape, v: real, w: real)
    requires 0.0 <= v <= w
    ensures Index(s, v) <= Index(s, w)
  {
    hide OctaveIndex, Pow2, Shape.Buckets;
    BucketsAtLeast(s);
    if v >= s.Linear() as real {
      OctaveIndexMonotone(s.bits, v.Floor, w.Floor);
    } else if w >= s.Linear() as real {
      OctaveIndexAtLeast(s.bits, w.Floor);
    }
  }

  lemma OctaveIndexAtLeast(bits: nat, n: nat)
    requires n >= Pow2(bits)
    ensures OctaveIndex(bits, n) >= Pow2(bits)
  {
    hide OctaveIndex, Pow2, Log2;
    SubBucket(bits, n);
    MulMonotone(0, Log2(n) - bits, Pow2(bits));
  }

  lemma BucketsAtLeast(s: Shape)
    ensures s.Buckets() >= 2 * s.Linear()
  {
    hide Pow2;
    MulMonotone(1, Max(1, s.maxOctave - s.bits + 1), s.Linear());
  }

  lemma IndexInRange(s: Shape, v: real)
    requires v >= 0.0
    ensures Index(s, v) < s.Buckets()
  {
    hide OctaveIndex;
    BucketsAtLeast(s);
  }

  /** Values up to `max_value` are never clamped into the last bucket. */
  lemma CapacitySuffices(bits: nat, maxValue: real, v: real)
    requires Pow2(bits) as real <= v <= maxValue
    ensures OctaveIndex(bits, v.Floor) < ShapeFor(bits, maxValue).Buckets()
  {
    hide OctaveIndex, Pow2, Log2, CeilLog2;
    var s, n := ShapeFor(bits, maxValue), v.Floor;
    SubBucket(bits, n);
    OctaveAtMost(n, s.maxOctave);
    LaterOctave(Log2(n) - bits, n / Pow2(Log2(n) - bits), s.maxOctave - bits + 1, Pow2(bits), Pow2(bits));
    assert s.Buckets() == Pow2(bits) + (s.maxOctave - bits + 1) * Pow2(bits);
  }

  lemma OctaveAtMost(n: nat, m: nat)
    requires 1 <= n <= Pow2(m)
    ensures Log2(n) <= m
  {
    assert Pow2(m + 1) == 2 * Pow2(m);
    Pow2Cancel(Log2(n), m + 1);
  }

  // ---------- The error of one bucket ----------

  function Abs(x: real): real { if x < 0.0 then -x else x }

  lemma DivModUnique(a: nat, r: nat, l: nat)
    requires r < l
    ensures (a * l + r) / l == a && (a * l + r) % l == r
  {
    QuotientRange(a * l + r, l, a, a + 1);
    assert (a * l + r) % l == a * l + r - (a * l + r) / l * l;
  }

  /** The centre of a value's bucket, from the octave's width and the value's leading bits. */
  lemma CentreOf(s: Shape, n: nat)
    requires n >= s.Linear()
    ensures Log2(n) >= s.bits
    ensures var w := Pow2(Log2(n) - s.bits);
            Approx(s, OctaveIndex(s.bits, n)) == (n / w * w) as real + w as real / 2.0
  {
    hide OctaveIndex, Pow2, Log2;
    SubBucket(s.bits, n);
    var l, o := Pow2(s.bits), Log2(n) - s.bits;
    var w, q := Pow2(o), n / Pow2(o);
    var i := OctaveIndex(s.bits, n);
    OctaveIndexAtLeast(s.bits, n);
    DivModUnique(o, q - l, l);
    assert i - l == o * l + (q - l);
    Pow2Adds(s.bits, o);
    assert Pow2(s.bits + o) == l * w;
    Regroup(l, q, w);
  }

  lemma Regroup(l: nat, q: nat, w: nat)
    requires l <= q
    ensures l * w + (q - l) * w == q * w
  {}

  /** An error of at most 1/(2 * l) of the value. */
  predicate Within(e: real, l: nat, v: real) { e * (2 * l) as real <= v }

  predicate WidthFits(w: nat, l: nat, v: real) { (w * l) as real <= v }

  /** An octave value and the centre of its bucket differ by at most half a bucket. */
  lemma CentreError(s: Shape, v: real)
    requires v >= s.Linear() as real
    ensures Log2(v.Floor) >= s.bits
    ensures var w := Pow2(Log2(v.Floor) - s.bits);
            Abs(Approx(s, OctaveIndex(s.bits, v.Floor)) - v) <= w as real / 2.0 && WidthFits(w, s.Linear(), v)
  {
    hide OctaveIndex, Pow2, Log2, Approx;
    var n := v.Floor;
    CentreOf(s, n);
    var o := Log2(n) - s.bits;
    var w := Pow2(o);
    DivBounds(n, w);
    Pow2Adds(o, s.bits);
    assert Pow2(Log2(n)) <= n;
    assert (n / w + 1) * w == n / w * w + w;
  }

  lemma ScaleError(e: real, w: nat, l: nat, v: real)
    requires e <= w as real / 2.0 && WidthFits(w, l, v)
    ensures Within(e, l, v)
  {
    var k := (2 * l) as real;
    assert k >= 0.0;
    assert e * k <= w as real / 2.0 * k;
    assert w as real / 2.0 * k == w as real * l as real;
    assert w as real * l as real == (w * l) as real;
  }

  lemma OctaveError(bits: nat, maxValue: real, v: real)
    requires Pow2(bits) as real <= v <= maxValue
    ensures var s := ShapeFor(bits, maxValue); Within(Abs(Approx(s, Index(s, v)) - v), Pow2(bits), v)
  {
    hide OctaveIndex, Pow2, Log2, ShapeFor, Shape.Buckets, Approx, Abs, Within, WidthFits;
    var s := ShapeFor(bits, maxValue);
    CapacitySuffices(bits, maxValue, v);
    CentreError(s, v);
    assert Index(s, v) == OctaveIndex(bits, v.Floor);
    ScaleError(Abs(Approx(s, Index(s, v)) - v), Pow2(Log2(v.Floor) - bits), Pow2(bits), v);
  }

  lemma LinearError(s: Shape, v: real)
    requires 0.0 <= v < s.Linear() as real
    ensures Abs(Approx(s, Index(s, v)) - v) <= 0.5
  {
    hide Pow2;
    assert v.Floor < s.Linear();
  }

  /**
    A value up to `max_value` and the centre of its bucket: within 1/2^(bits+1)
    of the value from the linear range on, within 0.5 below.
   */
  lemma BucketError(bits: nat, maxValue: real, v: real)
    requires 0.0 <= v <= maxValue
    ensures var s := ShapeFor(bits, maxValue); var e := Abs(Approx(s, Index(s, v)) - v);
            if v >= Pow2(bits) as real then Within(e, Pow2(bits), v) else e <= 0.5
  {
    hide Pow2, ShapeFor, Approx, Index, Abs, Within;
    if v >= Pow2(bits) as real { OctaveError(bits, maxValue, v); } else { LinearError(ShapeFor(bits, maxValue), v); }
  }

  // ---------- Ranks ----------

  predicate Recordable(values: seq<real>) { forall i | 0 <= i < |values| :: values[i] >= 0.0 }

  function CountAt(s: Shape, values: seq<real>, i: nat): nat
    requires Recordable(values)
  {
    if values == [] then 0 else (if Index(s, values[0]) == i then 1 else 0) + CountAt(s, values[1..], i)
  }

  /** How many values lie in buckets 0 to i. */
  function CountUpTo(s: Shape, values: seq<real>, i: int): (c: nat)
    requires Recordable(values)
    ensures c <= |values|
  {
    if values == [] then 0 else (if Index(s, values[0]) <= i then 1 else 0) + CountUpTo(s, values[1..], i)
  }

  lemma {:induction false} CountStep(s: Shape, values: seq<real>, i: nat)
    requires Recordable(values)
    ensures CountUpTo(s, values, i) == CountUpTo(s, values, i - 1) + CountAt(s, values, i)
  {
    hide Index;
    if values != [] { CountStep(s, values[1..], i); }
  }

  lemma {:induction false} CountNone(s: Shape, values: seq<real>)
    requires Recordable(values)
    ensures CountUpTo(s, values, -1) == 0
  {
    if values != [] { CountNone(s, values[1..]); }
  }

  lemma {:induction false} CountAppend(s: Shape, values: seq<real>, v: real, i: nat)
    requires Recordable(values) && v >= 0.0
    ensures CountAt(s, values + [v], i) == CountAt(s, values, i) + (if Index(s, v) == i then 1 else 0)
  {
    hide Index;
    if values == [] {
      assert [v][1..] == [] && [] + [v] == [v];
    } else {
      assert (values + [v])[1..] == values[1..] + [v];
      CountAppend(s, values[1..], v, i);
    }
  }

  // ---------- Exact order statistics ----------

  function Insert(v: real, s: seq<real>): (r: seq<real>)
    ensures multiset(r) == multiset(s) + multiset{v} && |r| == |s| + 1
  {
    if s == [] || v <= s[0] then [v] + s
    else
      assert s == [s[0]] + s[1..];
      [s[0]] + Insert(v, s[1..])
  }

  /** The values in ascending order: the reference for every quantile. */
  function Sorted(values: seq<real>): (r: seq<real>)
    ensures multiset(r) == multiset(values) && |r| == |values|
  {
    if values == [] then []
    else
      assert values == [values[0]] + values[1..];
      Insert(values[0], Sorted(values[1..]))
  }

  predicate Ascending(s: seq<real>) { forall i, j | 0 <= i < j < |s| :: s[i] <= s[j] }

  lemma {:induction false} InsertAscending(v: real, s: seq<real>)
    requires Ascending(s)
    ensures Ascending(Insert(v, s))
    ensures s != [] ==> Insert(v, s)[0] == (if v <= s[0] then v else s[0])
  {
    if s != [] && v > s[0] {
      InsertAscending(v, s[1..]);
      var t := Insert(v, s[1..]);
      assert s != [] && |s| == 1 ==> t == [v];
      assert t[0] >= s[0];
    }
  }

  lemma {:induction false} SortedAscending(values: seq<real>)
    ensures Ascending(Sorted(values))
  {
    if values != [] {
      SortedAscending(values[1..]);
      InsertAscending(values[0], Sorted(values[1..]));
    }
  }

  lemma SameMembers(a: seq<real>, b: seq<real>)
    requires multiset(a) == multiset(b)
    ensures forall x :: x in a <==> x in b
  {
    assert forall x :: x in a <==> x in multiset(a);
    assert forall x :: x in b <==> x in multiset(b);
  }

  lemma {:induction false} InsertCount(sh: Shape, v: real, s: seq<real>, i: int)
    requires Recordable(s) && v >= 0.0
    ensures Recordable(Insert(v, s))
    ensures CountUpTo(sh, Insert(v, s), i) == (if Index(sh, v) <= i then 1 else 0) + CountUpTo(sh, s, i)
  {
    hide Index;
    if s == [] || v <= s[0] {
      assert ([v] + s)[1..] == s;
    } else {
      InsertCount(sh, v, s[1..], i);
      assert Insert(v, s)[1..] == Insert(v, s[1..]);
    }
  }

  lemma {:induction false} SortedCount(sh: Shape, values: seq<real>, i: int)
    requires Recordable(values)
    ensures Recordable(Sorted(values)) && CountUpTo(sh, Sorted(values), i) == CountUpTo(sh, values, i)
  {
    hide Index;
    if values != [] {
      SortedCount(sh, values[1..], i);
      InsertCount(sh, values[0], Sorted(values[1..]), i);
    }
  }

  /** Cumulative counts are ranks: at least k values are within bucket i iff the k-th smallest is. */
  lemma {:induction false} RankInSorted(sh: Shape, s: seq<real>, k: nat, i: int)
    requires Recordable(s) && Ascending(s) && 1 <= k <= |s|
    ensures CountUpTo(sh, s, i) >= k <==> Index(sh, s[k - 1]) <= i
  {
    hide Index;
    IndexMonotone(sh, s[0], s[k - 1]);
    if Index(sh, s[0]) > i {
      NoneUpTo(sh, s, i);
    } else if k > 1 {
      RankInSorted(sh, s[1..], k - 1, i);
    }
  }

  lemma {:induction false} NoneUpTo(sh: Shape, s: seq<real>, i: int)
    requires Recordable(s) && Ascending(s) && s != [] && Index(sh, s[0]) > i
    ensures CountUpTo(sh, s, i) == 0
  {
    hide Index;
    if |s| > 1 {
      IndexMonotone(sh, s[0], s[1]);
      NoneUpTo(sh, s[1..], i);
    }
  }

  /** The bucket where the cumulative count first reaches k is the bucket of the k-th smallest value. */
  lemma RankBucket(sh: Shape, values: seq<real>, k: nat, i: nat)
    requires Recordable(values) && 1 <= k <= |values|
    ensures Recordable(Sorted(values))
    ensures CountUpTo(sh, values, i - 1) < k <= CountUpTo(sh, values, i) <==> i == Index(sh, Sorted(values)[k - 1])
  {
    hide Index, CountUpTo;
    SortedAscending(values);
    SortedCount(sh, values, i);
    SortedCount(sh, values, i - 1);
    RankInSorted(sh, Sorted(values), k, i);
    RankInSorted(sh, Sorted(values), k, i - 1);
  }

  // ---------- The histogram object ----------

  function Sum(values: seq<real>): real {
    if values == [] then 0.0 else Sum(values[..|values| - 1]) + values[|values| - 1]
  }

  lemma SumAppend(values: seq<real>, v: real)
    ensures Sum(values + [v]) == Sum(values) + v
  {
    assert (values + [v])[..|values|] == values;
  }

  function Clamp(lo: real, hi: real, x: real): real {
    var y := if hi <= x then hi else x;
    if lo >= y then lo else y
  }

  /** Clamping towards a range that holds the true value never increases the error. */
  lemma ClampHelps(lo: real, hi: real, a: real, x: real)
    requires lo <= x <= hi
    ensures Abs(Clamp(lo, hi, a) - x) <= Abs(a - x)
  {}

  ghost predicate CountsOk(s: Shape, counts: seq<nat>, values: seq<real>) {
    && Recordable(values) && |counts| == s.Buckets()
    && forall i | 0 <= i < |counts| :: counts[i] == CountAt(s, values, i)
  }

  /** The smallest and largest value; `None` is the initial infinity of the source. */
  ghost predicate RangeOk(values: seq<real>, low: Option<real>, high: real) {
    && (values == [] ==> low.None? && high == 0.0)
    && (values != [] ==> low.Some? && low.value in values && high in values)
    && (forall i | 0 <= i < |values| :: low.Some? && low.value <= values[i] <= high)
  }

  lemma CountsAppend(s: Shape, counts: seq<nat>, values: seq<real>, v: real)
    requires CountsOk(s, counts, values) && v >= 0.0
    ensures var i := Index(s, v); i < |counts| && CountsOk(s, counts[i := counts[i] + 1], values + [v])
  {
    hide Index, CountAt, Shape.Buckets;
    IndexInRange(s, v);
    var i := Index(s, v);
    forall j | 0 <= j < |counts| ensures counts[i := counts[i] + 1][j] == CountAt(s, values + [v], j) {
      CountAppend(s, values, v, j);
    }
  }

  lemma RangeAppend(values: seq<real>, low: Option<real>, high: real, v: real)
    requires RangeOk(values, low, high) && v >= 0.0 && Recordable(values)
    ensures RangeOk(values + [v], if low.None? || v < low.value then Some(v) else low, if v > high then v else high)
  {}

  /** The smallest bucket count that reaches the rank of a quantile, as the source computes it. */
  function Rank(q: real, n: nat): int { Ceil(q * n as real) }

  lemma RankRange(q: real, n: nat)
    requires 0.0 < q < 1.0 && n >= 1
    ensures 1 <= Rank(q, n) <= n
  {
    assert 0.0 < q * n as real < 1.0 * n as real;
  }

  /** The rank is the least integer that reaches q * n. */
  lemma RankIsCeiling(q: real, n: nat)
    ensures (Rank(q, n) - 1) as real < q * n as real <= Rank(q, n) as real
  {}

  // ---------- Quantiles without ranks ----------

  function AtMost(values: seq<real>, x: real): nat {
    if values == [] then 0 else (if values[0] <= x then 1 else 0) + AtMost(values[1..], x)
  }

  function Below(values: seq<real>, x: real): nat {
    if values == [] then 0 else (if values[0] < x then 1 else 0) + Below(values[1..], x)
  }

  /** The share q of n values. */
  function Share(q: real, n: nat): real { q * n as real }

  lemma RankReachesShare(q: real, n: nat)
    ensures (Rank(q, n) - 1) as real < Share(q, n) <= Rank(q, n) as real
  {
    RankIsCeiling(q, n);
  }

  /** The exact quantile: at least q of the recorded values are at or below it, and fewer than q strictly below. */
  ghost predicate ExactQuantile(values: seq<real>, q: real, x: real) {
    && x in values
    && AtMost(values, x) as real >= Share(q, |values|)
    && (Below(values, x) as real) < Share(q, |values|)
  }

  lemma {:induction false} InsertTallies(v: real, s: seq<real>, x: real)
    ensures AtMost(Insert(v, s), x) == (if v <= x then 1 else 0) + AtMost(s, x)
    ensures Below(Insert(v, s), x) == (if v < x then 1 else 0) + Below(s, x)
  {
    if s == [] || v <= s[0] {
      assert ([v] + s)[1..] == s;
    } else {
      InsertTallies(v, s[1..], x);
      assert Insert(v, s)[1..] == Insert(v, s[1..]);
    }
  }

  lemma {:induction false} SortedTallies(values: seq<real>, x: real)
    ensures AtMost(Sorted(values), x) == AtMost(values, x) && Below(Sorted(values), x) == Below(values, x)
  {
    if values != [] {
      SortedTallies(values[1..], x);
      InsertTallies(values[0], Sorted(values[1..]), x);
    }
  }

  /** In ascending order, the k-th value has k at or below it and at most k - 1 strictly below. */
  lemma {:induction false} AscendingTallies(s: seq<real>, k: nat, x: real)
    requires Ascending(s) && k <= |s|
    ensures (k > 0 ==> s[k - 1] <= x) ==> AtMost(s, x) >= k
    ensures (k < |s| ==> s[k] >= x) ==> Below(s, x) <= k
  {
    if k > 0 {
      AscendingTallies(s[1..], k - 1, x);
    } else if s != [] {
      AscendingTallies(s[1..], 0, x);
    }
  }

  lemma SortedValueTallies(values: seq<real>, k: nat)
    requires 1 <= k <= |values|
    ensures var x := Sorted(values)[k - 1]; x in values && Below(values, x) < k <= AtMost(values, x)
  {
    hide Sorted, AtMost, Below;
    var s := Sorted(values);
    var x := s[k - 1];
    SortedAscending(values);
    SortedTallies(values, x);
    AscendingTallies(s, k, x);
    AscendingTallies(s, k - 1, x);
    SameMembers(s, values);
    assert x in s;
  }

  /** The value of rank ceil(q * N) is the exact quantile. */
  lemma RankedIsExact(values: seq<real>, q: real)
    requires values != [] && 0.0 < q < 1.0
    ensures 1 <= Rank(q, |values|) <= |values|
    ensures ExactQuantile(values, q, Sorted(values)[Rank(q, |values|) - 1])
  {
    hide Sorted, AtMost, Below, Rank, Share;
    RankRange(q, |values|);
    RankReachesShare(q, |values|);
    SortedValueTallies(values, Rank(q, |values|));
  }

  lemma {:induction false} TalliesRise(values: seq<real>, x: real, y: real)
    requires x < y
    ensures AtMost(values, x) <= Below(values, y)
  {
    if values != [] { TalliesRise(values[1..], x, y); }
  }

  /** There is one exact quantile. */
  lemma ExactQuantileUnique(values: seq<real>, q: real, x: real, y: real)
    requires ExactQuantile(values, q, x) && ExactQuantile(values, q, y)
    ensures x == y
  {
    hide AtMost, Below, Share;
    if x < y { TalliesRise(values, x, y); }
    if y < x { TalliesRise(values, y, x); }
  }

  /** What `quantile` answers for rank k: the centre of the k-th smallest value's bucket, clamped to the range. */
  ghost function QuantileOf(s: Shape, values: seq<real>, low: real, high: real, k: nat): real
    requires Recordable(values) && 1 <= k <= |values|
  {
    SortedCount(s, values, 0);
    Clamp(low, high, Approx(s, Index(s, Sorted(values)[k - 1])))
  }

  /** An answer within 1/2^(bits+1) of the exact value from 2^bits on, and within 0.5 below. */
  predicate Accurate(bits: nat, exact: real, answer: real) {
    var e := Abs(answer - exact);
    if exact >= Pow2(bits) as real then Within(e, Pow2(bits), exact) else e <= 0.5
  }

  /**
    Quantile accuracy: if the exact k-th smallest value is within `max_value`, the
    answer is within 1/2^(bits+1) of it, relatively, from 2^bits on, and within
    0.5 below, whatever else was recorded.
   */
  lemma QuantileAccuracy(bits: nat, maxValue: real, values: seq<real>, low: Option<real>, high: real, k: nat)
    requires Recordable(values) && RangeOk(values, low, high) && 1 <= k <= |values|
    requires Sorted(values)[k - 1] <= maxValue
    ensures low.Some?
    ensures var x := Sorted(values)[k - 1];
            Accurate(bits, x, QuantileOf(ShapeFor(bits, maxValue), values, low.value, high, k))
  {
    hide Pow2, ShapeFor, Approx, Index, Within, Sorted;
    var s, x := ShapeFor(bits, maxValue), Sorted(values)[k - 1];
    SortedCount(s, values, 0);
    SameMembers(Sorted(values), values);
    assert x in Sorted(values);
    BucketError(bits, maxValue, x);
    ClampHelps(low.value, high, Approx(s, Index(s, x)), x);
    if x >= Pow2(bits) as real {
      WithinShrinks(Abs(QuantileOf(s, values, low.value, high, k) - x), Abs(Approx(s, Index(s, x)) - x), Pow2(bits), x);
    }
  }

  lemma WithinShrinks(e: real, f: real, l: nat, v: real)
    requires e <= f && Within(f, l, v)
    ensures Within(e, l, v)
  {
    assert e * (2 * l) as real <= f * (2 * l) as real;
  }

  class LogLinearHistogram {
    const bits: nat
    const maxValue: real
    const shape: Shape
    const counts: array<nat>
    var total: nat
    var sum: real
    var low: Option<real>
    var high: real
    ghost var values: seq<real>  // everything recorded, in order

    ghost predicate Valid() reads this, counts {
      && shape == ShapeFor(bits, maxValue)
      && CountsOk(shape, counts[..], values)
      && total == |values| && sum == Sum(values)
      && RangeOk(values, low, high)
    }

    constructor (bits: nat, maxValue: real)
      ensures Valid() && values == [] && this.bits == bits && this.maxValue == maxValue
    {
      hide Shape.Buckets, ShapeFor;
      this.bits, this.maxValue := bits, maxValue;
      var s := ShapeFor(bits, maxValue);
      shape := s;
      counts := new nat[s.Buckets()](_ => 0);
      total, sum, low, high, values := 0, 0.0, None, 0.0, [];
    }

    /** `record`: a negative value is refused and leaves everything as it was. */
    method Record(v: real) returns (ok: bool)
      requires Valid()
      modifies this, counts
      ensures Valid() && ok == (v >= 0.0)
      ensures values == if ok then old(values) + [v] else old(values)
      ensures !ok ==> unchanged(this) && unchanged(counts)
    {
      hide Index, CountsOk, RangeOk, ShapeFor, Sum, Shape.Buckets;
      if v < 0.0 { return false; }
      CountsAppend(shape, counts[..], values, v);
      assert Recordable(values) && |counts[..]| == shape.Buckets() by { CountsRecordable(shape, counts[..], values); }
      RangeAppend(values, low, high, v);
      ghost var was := counts[..];
      var i := Index(shape, v);
      counts[i] := counts[i] + 1;
      assert counts[..] == was[i := was[i] + 1];
      total := total + 1;
      sum := sum + v;
      if low.None? || v < low.value { low := Some(v); }
      if v > high { high := v; }
      values := values + [v];
      SumAppend(old(values), v);
      return true;
    }

    /** The cumulative loop of `quantile`: the first bucket at which k values are reached. */
    method FindBucket(k: nat) returns (found: Option<nat>)
      requires Valid() && k >= 1
      ensures found.Some? ==> found.value < counts.Length
      ensures found.Some? ==> CountUpTo(shape, values, found.value - 1) < k <= CountUpTo(shape, values, found.value)
      ensures found.None? ==> CountUpTo(shape, values, counts.Length - 1) < k
    {
      hide CountAt, CountUpTo, ShapeFor, Shape.Buckets;
      var cumulative := 0;
      CountNone(shape, values);
      for i := 0 to counts.Length
        invariant cumulative == CountUpTo(shape, values, i - 1)
        invariant cumulative < k
      {
        CountStep(shape, values, i);
        assert counts[..][i] == counts[i];
        cumulative := cumulative + counts[i];
        if cumulative >= k { return Some(i); }
      }
      return None;
    }

    /**
      `quantile(q)`. Between 0 and 1 it is the clamped centre of the bucket that
      holds the exact ceil(q * N)-th smallest value, and as close to the exact
      quantile as the buckets are.
     */
    method Quantile(q: real) returns (r: real)
      requires Valid()
      ensures values == [] ==> r == 0.0
      ensures values != [] && q <= 0.0 ==> r in values && forall v | v in values :: r <= v
      ensures values != [] && q >= 1.0 ==> r in values && forall v | v in values :: v <= r
      ensures values != [] && 0.0 < q < 1.0 ==>
              Recordable(values) && 1 <= Rank(q, |values|) <= |values| && low.Some? &&
              r == QuantileOf(shape, values, low.value, high, Rank(q, |values|))
      ensures values != [] && 0.0 < q < 1.0 ==> exists x :: ExactQuantile(values, q, x)
      ensures values != [] && 0.0 < q < 1.0 ==>
              forall x | ExactQuantile(values, q, x) :: x <= maxValue ==> Accurate(bits, x, r)
    {
      hide ExactQuantile, Accurate, CountUpTo, ShapeFor, Approx, Index, CountAt, Rank, Clamp, Sorted, Shape.Buckets;
      if total == 0 { return 0.0; }
      if q <= 0.0 { return low.value; }
      if q >= 1.0 { return high; }
      RankRange(q, total);
      var k := Rank(q, total);
      var found := FindBucket(k);
      RankFound(shape, values, k);
      match found {
        case Some(i) =>
          RankBucket(shape, values, k, i);
          r := Clamp(low.value, high, Approx(shape, i));
          RankedIsExact(values, q);
          if Sorted(values)[k - 1] <= maxValue { QuantileAccuracy(bits, maxValue, values, low, high, k); }
          forall x | ExactQuantile(values, q, x) ensures x <= maxValue ==> Accurate(bits, x, r) {
            ExactQuantileUnique(values, q, x, Sorted(values)[k - 1]);
          }
        case None =>
          return high;
      }
    }
  }

  /** Construction with its check of `sub_bucket_bits`; null stands for the ValueError. */
  method NewHistogram(bits: int, maxValue: real) returns (h: LogLinearHistogram?)
    ensures h == null <==> !(1 <= bits <= 16)
    ensures h != null ==> fresh(h) && h.Valid() && h.values == [] && h.bits == bits && h.maxValue == maxValue
  {
    if bits < 1 || bits > 16 { return null; }
    h := new LogLinearHistogram(bits, maxValue);
  }

  lemma CountsRecordable(s: Shape, counts: seq<nat>, values: seq<real>)
    requires CountsOk(s, counts, values)
    ensures Recordable(values) && |counts| == s.Buckets()
  {}

  /** Every rank is reached within the table. */
  lemma RankFound(s: Shape, values: seq<real>, k: nat)
    requires Recordable(values) && 1 <= k <= |values|
    ensures k <= CountUpTo(s, values, s.Buckets() - 1)
  {
    hide Shape.Buckets;
    AllCounted(s, values);
  }

  lemma {:induction false} AllCounted(s: Shape, values: seq<real>)
    requires Recordable(values)
    ensures CountUpTo(s, values, s.Buckets() - 1) == |values|
  {
    hide Index, Shape.Buckets;
    if values != [] {
      IndexInRange(s, values[0]);
      AllCounted(s, values[1..]);
    }
  }
}
