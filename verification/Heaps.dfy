/** The binary heap of `heapq` on a list: push and pop keep the heap order and the contents. */
module Heaps {

  /** All a heap needs of its comparison. */
  ghost predicate TotalPreorder<T(!new)>(leq: (T, T) -> bool) {
    && (forall x, y :: leq(x, y) || leq(y, x))
    && (forall x, y, z :: leq(x, y) && leq(y, z) ==> leq(x, z))
  }

  function Parent(i: int): (p: nat)
    requires i > 0
    ensures p < i
  {
    (i - 1) / 2
  }

  /** Element `i` is not below its parent. */
  predicate Ordered<T>(leq: (T, T) -> bool, h: seq<T>, i: int)
    requires 0 < i < |h|
  {
    leq(h[Parent(i)], h[i])
  }

  predicate HeapOk<T>(leq: (T, T) -> bool, h: seq<T>) {
    forall i | 0 < i < |h| :: Ordered(leq, h, i)
  }

  /** The root is below every element. */
  lemma {:induction false} RootLeast<T(!new)>(leq: (T, T) -> bool, h: seq<T>, i: nat)
    requires TotalPreorder(leq) && HeapOk(leq, h) && i < |h|
    ensures leq(h[0], h[i])
  {
    if i > 0 {
      RootLeast(leq, h, Parent(i));
      assert Ordered(leq, h, i);
    }
  }

  function Swap<T>(h: seq<T>, i: nat, j: nat): (r: seq<T>)
    requires i < |h| && j < |h|
    ensures |r| == |h| && r[i] == h[j] && r[j] == h[i]
    ensures forall k | 0 <= k < |h| && k != i && k != j :: r[k] == h[k]
  {
    h[i := h[j]][j := h[i]]
  }

  lemma SwapKeepsContents<T>(h: seq<T>, i: nat, j: nat)
    requires i < |h| && j < |h|
    ensures multiset(Swap(h, i, j)) == multiset(h)
  {}

  /** Every element but `i` respects its parent. */
  predicate RisesExcept<T>(leq: (T, T) -> bool, h: seq<T>, i: nat) {
    forall j | 0 < j < |h| && j != i :: Ordered(leq, h, j)
  }

  /** The children of `i` respect its parent. */
  predicate Grandparent<T>(leq: (T, T) -> bool, h: seq<T>, i: nat) {
    0 < i < |h| ==> forall j | 0 < j < |h| && Parent(j) == i :: leq(h[Parent(i)], h[j])
  }

  lemma RiseStep<T(!new)>(leq: (T, T) -> bool, h: seq<T>, i: nat)
    requires TotalPreorder(leq) && 0 < i < |h| && RisesExcept(leq, h, i) && Grandparent(leq, h, i)
    requires !Ordered(leq, h, i)
    ensures var p := Parent(i); RisesExcept(leq, Swap(h, i, p), p) && Grandparent(leq, Swap(h, i, p), p)
  {
    var p := Parent(i);
    var g := Swap(h, i, p);
    assert leq(h[i], h[p]);
    forall j | 0 < j < |g| && j != p ensures Ordered(leq, g, j) {
      assert j != i ==> Ordered(leq, h, j);
    }
    if p > 0 {
      var q := Parent(p);
      assert Ordered(leq, h, p);
      forall j | 0 < j < |g| && Parent(j) == p ensures leq(g[q], g[j]) {
        assert j != i ==> Ordered(leq, h, j);
      }
    }
  }

  /** `_siftdown` of heapq: the element at `from` rises past every parent it is below. */
  method Rise<T(!new)>(leq: (T, T) -> bool, heap: seq<T>, from: nat) returns (h: seq<T>)
    requires TotalPreorder(leq) && from < |heap| && RisesExcept(leq, heap, from) && Grandparent(leq, heap, from)
    ensures HeapOk(leq, h) && multiset(h) == multiset(heap)
  {
    hide TotalPreorder;
    h := heap;
    var i: nat := from;
    while i > 0 && !Ordered(leq, h, i)
      invariant i < |h| == |heap| && RisesExcept(leq, h, i) && Grandparent(leq, h, i)
      invariant multiset(h) == multiset(heap)
      decreases i
    {
      RiseStep(leq, h, i);
      SwapKeepsContents(h, i, Parent(i));
      h := Swap(h, i, Parent(i));
      i := Parent(i);
    }
  }

  /** `heappush`: the newcomer goes to the end and rises. */
  method Push<T(!new)>(leq: (T, T) -> bool, heap: seq<T>, x: T) returns (h: seq<T>)
    requires TotalPreorder(leq) && HeapOk(leq, heap)
    ensures HeapOk(leq, h) && multiset(h) == multiset(heap) + multiset{x} && |h| == |heap| + 1
  {
    hide TotalPreorder;
    h := heap + [x];
    forall j | 0 < j < |h| && j != |heap| ensures Ordered(leq, h, j) { assert Ordered(leq, heap, j); }
    forall j | 0 < j < |h| ensures Parent(j) != |heap| {}
    h := Rise(leq, h, |heap|);
    assert |h| == |multiset(h)| == |multiset(heap)| + 1;
  }

  /** The smaller child of `i`, the right one if they tie. */
  function Child<T>(leq: (T, T) -> bool, h: seq<T>, i: nat): (c: nat)
    requires 2 * i + 1 < |h|
    ensures i < c < |h| && Parent(c) == i
  {
    if 2 * i + 2 < |h| && leq(h[2 * i + 2], h[2 * i + 1]) then 2 * i + 2 else 2 * i + 1
  }

  lemma ChildLeast<T(!new)>(leq: (T, T) -> bool, h: seq<T>, i: nat, j: nat)
    requires TotalPreorder(leq) && 2 * i + 1 < |h| && 0 < j < |h| && Parent(j) == i
    ensures leq(h[Child(leq, h, i)], h[j])
  {
    assert j == 2 * i + 1 || j == 2 * i + 2;
  }

  /** Every element respects its parent, but for `i` and its children. */
  predicate HeapExcept<T>(leq: (T, T) -> bool, h: seq<T>, i: nat) {
    forall j | 0 < j < |h| && j != i && Parent(j) != i :: Ordered(leq, h, j)
  }

  lemma SinkStep<T(!new)>(leq: (T, T) -> bool, h: seq<T>, i: nat)
    requires TotalPreorder(leq) && 2 * i + 1 < |h| && HeapExcept(leq, h, i) && Grandparent(leq, h, i)
    ensures var c := Child(leq, h, i); HeapExcept(leq, Swap(h, i, c), c) && Grandparent(leq, Swap(h, i, c), c)
  {
    hide Child;
    var c := Child(leq, h, i);
    var g := Swap(h, i, c);
    forall j | 0 < j < |g| && j != c && Parent(j) != c ensures Ordered(leq, g, j) {
      if Parent(j) == i {
        ChildLeast(leq, h, i, j);
      } else if j != i {
        assert Ordered(leq, h, j);
      }
    }
    forall j | 0 < j < |g| && Parent(j) == c ensures leq(g[Parent(c)], g[j]) {
      assert Ordered(leq, h, j);
    }
  }

  lemma PopContents<T>(heap: seq<T>)
    requires |heap| > 1
    ensures multiset([heap[|heap| - 1]] + heap[1..|heap| - 1]) + multiset{heap[0]} == multiset(heap)
  {
    assert heap == [heap[0]] + heap[1..|heap| - 1] + [heap[|heap| - 1]];
  }

  /**
    `_siftup` of heapq: the root goes down past its smaller child all the way to a
    leaf, and rises from there.
   */
  method Sift<T(!new)>(leq: (T, T) -> bool, heap: seq<T>) returns (h: seq<T>)
    requires TotalPreorder(leq) && heap != [] && HeapExcept(leq, heap, 0)
    ensures HeapOk(leq, h) && multiset(h) == multiset(heap)
  {
    hide TotalPreorder, Child;
    h := heap;
    var i: nat := 0;
    while 2 * i + 1 < |h|
      invariant i < |h| == |heap| && HeapExcept(leq, h, i) && Grandparent(leq, h, i)
      invariant multiset(h) == multiset(heap)
      decreases |h| - i
    {
      var c := Child(leq, h, i);
      SinkStep(leq, h, i);
      SwapKeepsContents(h, i, c);
      h := Swap(h, i, c);
      i := c;
    }
    forall j | 0 < j < |h| ensures Parent(j) != i {}
    h := Rise(leq, h, i);
  }

  /** `heappop`: the root leaves, and the last element is sifted in from its place. */
  method Pop<T(!new)>(leq: (T, T) -> bool, heap: seq<T>) returns (x: T, h: seq<T>)
    requires TotalPreorder(leq) && HeapOk(leq, heap) && heap != []
    ensures x == heap[0] && HeapOk(leq, h) && multiset(h) + multiset{x} == multiset(heap)
    ensures |h| == |heap| - 1
  {
    hide TotalPreorder;
    x := heap[0];
    if |heap| == 1 {
      assert heap == [x];
      return x, [];
    }
    h := [heap[|heap| - 1]] + heap[1..|heap| - 1];
    PopContents(heap);
    forall j | 0 < j < |h| && Parent(j) != 0 ensures Ordered(leq, h, j) { assert Ordered(leq, heap, j); }
    h := Sift(leq, h);
    assert |h| == |multiset(h)| == |multiset(heap)| - 1;
  }

  // ---------- The heap as a waiting line ----------

  /** Strictly ascending: no two elements compare equal. */
  ghost predicate InOrder<T>(leq: (T, T) -> bool, line: seq<T>) {
    forall i, j | 0 <= i < j < |line| :: !leq(line[j], line[i])
  }

  /** The heap holds exactly the elements of the line. */
  ghost predicate Lined<T>(leq: (T, T) -> bool, h: seq<T>, line: seq<T>) {
    multiset(h) == multiset(line) && InOrder(leq, line)
  }

  lemma SameMembers<T>(a: seq<T>, b: seq<T>)
    requires multiset(a) == multiset(b)
    ensures |a| == |b| && forall x :: x in a <==> x in b
  {
    assert |a| == |multiset(a)| && |b| == |multiset(b)|;
    assert forall x :: x in a <==> x in multiset(a);
    assert forall x :: x in b <==> x in multiset(b);
  }

  /** The root of the heap is the head of the line. */
  lemma RootIsHead<T(!new)>(leq: (T, T) -> bool, h: seq<T>, line: seq<T>)
    requires TotalPreorder(leq) && HeapOk(leq, h) && Lined(leq, h, line) && h != []
    ensures line != [] && h[0] == line[0]
  {
    SameMembers(h, line);
    assert h[0] in line && line[0] in h;
    var j :| 0 <= j < |line| && line[j] == h[0];
    var i :| 0 <= i < |h| && h[i] == line[0];
    RootLeast(leq, h, i);
  }

  lemma PopLined<T(!new)>(leq: (T, T) -> bool, h: seq<T>, line: seq<T>, x: T, h': seq<T>)
    requires Lined(leq, h, line) && line != [] && x == line[0]
    requires multiset(h') + multiset{x} == multiset(h)
    ensures Lined(leq, h', line[1..])
  {
    assert line == [line[0]] + line[1..];
    assert multiset(line) == multiset{line[0]} + multiset(line[1..]);
    assert multiset(h') == multiset(h') + multiset{x} - multiset{x};
    assert multiset(line[1..]) == multiset{x} + multiset(line[1..]) - multiset{x};
  }

  /** Take a place behind everything that is not above the newcomer. */
  function Join<T>(leq: (T, T) -> bool, line: seq<T>, x: T): (r: seq<T>)
    ensures multiset(r) == multiset(line) + multiset{x} && |r| == |line| + 1
  {
    if line == [] then [x]
    else if leq(line[0], x) then
      assert line == [line[0]] + line[1..];
      [line[0]] + Join(leq, line[1..], x)
    else [x] + line
  }

  lemma {:induction false} JoinInOrder<T(!new)>(leq: (T, T) -> bool, line: seq<T>, x: T)
    requires TotalPreorder(leq) && InOrder(leq, line)
    requires forall y | y in line :: !(leq(x, y) && leq(y, x))
    ensures InOrder(leq, Join(leq, line, x))
  {
    if line != [] {
      if leq(line[0], x) {
        var rest := Join(leq, line[1..], x);
        JoinInOrder(leq, line[1..], x);
        forall j | 0 <= j < |rest| ensures !leq(rest[j], line[0]) {
          assert rest[j] in multiset(rest);
          assert rest[j] == x || rest[j] in line[1..];
          assert line[0] in line;
        }
      } else {
        forall j | 0 <= j < |line| ensures !leq(line[j], x) {
          assert j > 0 ==> !leq(line[j], line[0]);
        }
      }
    }
  }
}
