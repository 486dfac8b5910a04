/**
  The priority queue (`BackpressurePriorityQueue` in peerq/queue.py): an array
  heap that behaves as a line served by priority, first come first served within
  a priority.
 */
module PriorityQueue {
  import opened Orders
  import opened Heaps

  /** `_PrioritizedItem`. Its order reaches the item only if priority and sequence number tie. */
  datatype Entry<T> = Entry(negPriority: int, seqNo: nat, item: T)

  predicate EntryLeq<T>(a: Entry<T>, b: Entry<T>) {
    a.negPriority < b.negPriority || (a.negPriority == b.negPriority && a.seqNo <= b.seqNo)
  }

  lemma EntryLeqPreorder<T(!new)>()
    ensures TotalPreorder<Entry<T>>(EntryLeq)
  {}

  // ---------- The reference queue ----------

  type Item<T> = (int, T)  // priority, payload

  /** Join behind everything of at least the same priority. */
  function Enqueue<T>(q: seq<Item<T>>, x: Item<T>): (r: seq<Item<T>>)
    ensures |r| == |q| + 1
  {
    if q == [] then [x]
    else if q[0].0 >= x.0 then [q[0]] + Enqueue(q[1..], x)
    else [x] + q
  }

  ghost predicate Descending<T>(q: seq<Item<T>>) { forall i, j | 0 <= i < j < |q| :: q[i].0 >= q[j].0 }

  function OfPriority<T>(q: seq<Item<T>>, p: int): seq<Item<T>> {
    if q == [] then [] else (if q[0].0 == p then [q[0]] else []) + OfPriority(q[1..], p)
  }

  lemma {:induction false} EnqueueBounded<T>(q: seq<Item<T>>, x: Item<T>, b: int)
    requires x.0 <= b && forall i | 0 <= i < |q| :: q[i].0 <= b
    ensures forall i | 0 <= i < |Enqueue(q, x)| :: Enqueue(q, x)[i].0 <= b
  {
    if q != [] && q[0].0 >= x.0 { EnqueueBounded(q[1..], x, b); }
  }

  lemma {:induction false} EnqueueDescending<T>(q: seq<Item<T>>, x: Item<T>)
    requires Descending(q)
    ensures Descending(Enqueue(q, x))
  {
    if q != [] && q[0].0 >= x.0 {
      EnqueueDescending(q[1..], x);
      EnqueueBounded(q[1..], x, q[0].0);
    }
  }

  lemma OfPriorityCons<T>(x: Item<T>, q: seq<Item<T>>, p: int)
    ensures OfPriority([x] + q, p) == (if x.0 == p then [x] else []) + OfPriority(q, p)
  {
    assert ([x] + q)[1..] == q;
  }

  /** Within its own priority the newcomer is last; other priorities are untouched. */
  lemma {:induction false} EnqueueFifo<T>(q: seq<Item<T>>, x: Item<T>, p: int)
    requires Descending(q)
    ensures OfPriority(Enqueue(q, x), p) == OfPriority(q, p) + (if x.0 == p then [x] else [])
  {
    hide OfPriority;
    if q == [] || q[0].0 < x.0 {
      assert Enqueue(q, x) == [x] + q;
      OfPriorityCons(x, q, p);
      if x.0 == p { NoneOfPriority(q, p); }
    } else {
      assert q == [q[0]] + q[1..];
      EnqueueFifo(q[1..], x, p);
      OfPriorityCons(q[0], Enqueue(q[1..], x), p);
      OfPriorityCons(q[0], q[1..], p);
    }
  }

  lemma {:induction false} NoneOfPriority<T>(q: seq<Item<T>>, p: int)
    requires forall i | 0 <= i < |q| :: q[i].0 < p
    ensures OfPriority(q, p) == []
  {
    if q != [] { NoneOfPriority(q[1..], p); }
  }

  // ---------- Whole runs of the reference queue ----------

  datatype Op<T> = Put(x: Item<T>) | Get

  datatype Trace<T> = Trace(queue: seq<Item<T>>, puts: seq<Item<T>>, gets: seq<Item<T>>)

  /** Any interleaving of puts and gets; a get on the empty queue does nothing. */
  function RunOps<T>(ops: seq<Op<T>>): Trace<T> {
    if ops == [] then Trace([], [], [])
    else
      var t, op := RunOps(ops[..|ops| - 1]), ops[|ops| - 1];
      match op
      case Put(x) => Trace(Enqueue(t.queue, x), t.puts + [x], t.gets)
      case Get => if t.queue == [] then t else Trace(t.queue[1..], t.puts, t.gets + [t.queue[0]])
  }

  lemma {:induction false} OfPriorityAppend<T>(a: seq<Item<T>>, b: seq<Item<T>>, p: int)
    ensures OfPriority(a + b, p) == OfPriority(a, p) + OfPriority(b, p)
  {
    hide OfPriority;
    if a == [] {
      assert a + b == b;
      NoneOfPriority(a, p);
    } else {
      assert a == [a[0]] + a[1..] && a + b == [a[0]] + (a[1..] + b);
      OfPriorityAppend(a[1..], b, p);
      OfPriorityCons(a[0], a[1..] + b, p);
      OfPriorityCons(a[0], a[1..], p);
    }
  }

  lemma OneOfPriority<T>(x: Item<T>, p: int)
    ensures OfPriority([x], p) == if x.0 == p then [x] else []
  {
    assert [x][1..] == [];
  }

  /**
    Over any interleaving, a get serves a highest priority, and for each priority
    the items served so far followed by those waiting are exactly the items put,
    in the order they were put: nothing is lost, invented or reordered.
   */
  lemma {:induction false} ServedInOrder<T>(ops: seq<Op<T>>, p: int)
    ensures var t := RunOps(ops);
            && Descending(t.queue)
            && OfPriority(t.gets, p) + OfPriority(t.queue, p) == OfPriority(t.puts, p)
  {
    hide OfPriority, Enqueue;
    if ops == [] {
      NoneOfPriority<T>([], p);
    } else {
      var prefix, op := ops[..|ops| - 1], ops[|ops| - 1];
      ServedInOrder(prefix, p);
      var t := RunOps(prefix);
      match op {
        case Put(x) =>
          EnqueueDescending(t.queue, x);
          EnqueueFifo(t.queue, x, p);
          OfPriorityAppend(t.puts, [x], p);
          OneOfPriority(x, p);
        case Get =>
          if t.queue != [] {
            var x, rest := t.queue[0], t.queue[1..];
            assert t.queue == [x] + rest;
            OfPriorityAppend(t.gets, [x], p);
            OneOfPriority(x, p);
            OfPriorityCons(x, rest, p);
          }
      }
    }
  }

  /** The queue after putting `xs` into an empty one. */
  function Line<T>(xs: seq<Item<T>>): seq<Item<T>> {
    if xs == [] then [] else Enqueue(Line(xs[..|xs| - 1]), xs[|xs| - 1])
  }

  lemma {:induction false} LineIsStableSort<T>(xs: seq<Item<T>>, p: int)
    ensures Descending(Line(xs)) && |Line(xs)| == |xs| && OfPriority(Line(xs), p) == OfPriority(xs, p)
  {
    if xs != [] {
      var prefix, x := xs[..|xs| - 1], xs[|xs| - 1];
      LineIsStableSort(prefix, p);
      EnqueueDescending(Line(prefix), x);
      EnqueueFifo(Line(prefix), x, p);
      assert xs == prefix + [x];
      OfPriorityAppend(prefix, [x], p);
      assert [x][1..] == [];
    }
  }

  function Puts<T>(xs: seq<Item<T>>): seq<Op<T>> {
    if xs == [] then [] else Puts(xs[..|xs| - 1]) + [Put(xs[|xs| - 1])]
  }

  function Gets<T>(k: nat): seq<Op<T>> { if k == 0 then [] else Gets(k - 1) + [Get] }

  lemma RunOpsSnoc<T>(ops: seq<Op<T>>, op: Op<T>)
    ensures RunOps(ops + [op]) ==
            var t := RunOps(ops);
            match op
            case Put(x) => Trace(Enqueue(t.queue, x), t.puts + [x], t.gets)
            case Get => if t.queue == [] then t else Trace(t.queue[1..], t.puts, t.gets + [t.queue[0]])
  {
    assert (ops + [op])[..|ops|] == ops;
  }

  lemma {:induction false} PutsFill<T>(xs: seq<Item<T>>)
    ensures RunOps(Puts(xs)) == Trace(Line(xs), xs, [])
  {
    hide RunOps;
    if xs == [] {
      NoOps<T>();
    } else {
      var prefix, x := xs[..|xs| - 1], xs[|xs| - 1];
      PutsFill(prefix);
      RunOpsSnoc(Puts(prefix), Put(x));
      assert xs == prefix + [x];
    }
  }

  lemma NoOps<T>()
    ensures RunOps<T>([]) == Trace([], [], [])
  {}

  lemma {:induction false} GetsDrain<T>(xs: seq<Item<T>>, k: nat)
    requires k <= |Line(xs)|
    ensures RunOps(Puts(xs) + Gets(k)) == Trace(Line(xs)[k..], xs, Line(xs)[..k])
  {
    hide RunOps, Line, Puts;
    if k == 0 {
      PutsFill(xs);
      assert Puts(xs) + Gets(0) == Puts(xs);
    } else {
      GetsDrain(xs, k - 1);
      assert Puts(xs) + Gets(k) == Puts(xs) + Gets(k - 1) + [Get];
      RunOpsSnoc(Puts(xs) + Gets(k - 1), Get);
    }
  }

  /** Putting `xs` and then getting as many serves the stable sort of `xs`, by descending priority. */
  lemma DrainIsStableSort<T>(xs: seq<Item<T>>, p: int)
    ensures var t := RunOps(Puts(xs) + Gets(|xs|));
            && t.queue == [] && |t.gets| == |xs|
            && Descending(t.gets) && OfPriority(t.gets, p) == OfPriority(xs, p)
  {
    hide RunOps, Line, OfPriority;
    LineIsStableSort(xs, p);
    GetsDrain(xs, |xs|);
    assert Line(xs)[..|xs|] == Line(xs);
  }

  /** Descending order and the order within each priority determine the whole line. */
  lemma {:induction false} StableSortUnique<T>(a: seq<Item<T>>, b: seq<Item<T>>)
    requires Descending(a) && Descending(b) && forall p :: OfPriority(a, p) == OfPriority(b, p)
    ensures a == b
    decreases |a|
  {
    if a == [] {
      if b != [] { SameHead(b, a); }
    } else {
      SameHead(a, b);
      forall p ensures OfPriority(a[1..], p) == OfPriority(b[1..], p) {
        assert OfPriority(a, p) == OfPriority(b, p);
        TailOfPriority(a, p);
        TailOfPriority(b, p);
      }
      StableSortUnique(a[1..], b[1..]);
      assert a == [a[0]] + a[1..] && b == [b[0]] + b[1..];
    }
  }

  lemma TailOfPriority<T>(q: seq<Item<T>>, p: int)
    requires q != []
    ensures OfPriority(q[1..], p) == if q[0].0 == p then OfPriority(q, p)[1..] else OfPriority(q, p)
  {}

  lemma {:induction false} OfPriorityMember<T>(q: seq<Item<T>>, p: int)
    requires OfPriority(q, p) != [] && Descending(q)
    ensures q != [] && q[0].0 >= p
  {
    if q[0].0 != p { OfPriorityMember(q[1..], p); }
  }

  lemma SameHead<T>(a: seq<Item<T>>, b: seq<Item<T>>)
    requires a != [] && Descending(a) && Descending(b) && forall p :: OfPriority(a, p) == OfPriority(b, p)
    ensures b != [] && a[0] == b[0]
  {
    HeadOfPriority(a);
    OfPriorityMember(b, a[0].0);
    HeadOfPriority(b);
    OfPriorityMember(a, b[0].0);
  }

  lemma HeadOfPriority<T>(q: seq<Item<T>>)
    requires q != []
    ensures var s := OfPriority(q, q[0].0); s != [] && s[0] == q[0]
  {}

  // ---------- The heap refines the reference queue ----------

  function AsItem<T>(e: Entry<T>): Item<T> { (-e.negPriority, e.item) }

  function View<T>(line: seq<Entry<T>>): (q: seq<Item<T>>)
    ensures |q| == |line|
  {
    if line == [] then [] else [AsItem(line[0])] + View(line[1..])
  }

  predicate Older<T>(line: seq<Entry<T>>, n: nat) { forall i | 0 <= i < |line| :: line[i].seqNo < n }

  /** With the newest sequence number, the heap order places an entry where the reference queue does. */
  lemma {:induction false} JoinView<T(!new)>(line: seq<Entry<T>>, x: Entry<T>)
    requires Older(line, x.seqNo)
    ensures View(Join(EntryLeq, line, x)) == Enqueue(View(line), AsItem(x))
  {
    if line == [] {
      assert [x][1..] == [];
    } else if EntryLeq(line[0], x) {
      JoinView(line[1..], x);
      assert Join(EntryLeq, line, x)[1..] == Join(EntryLeq, line[1..], x);
      assert View(line)[1..] == View(line[1..]);
    } else {
      assert ([x] + line)[1..] == line;
    }
  }

  lemma OlderMembers<T>(line: seq<Entry<T>>, n: nat)
    ensures Older(line, n) <==> forall e | e in line :: e.seqNo < n
  {
    if Older(line, n) {
      forall e | e in line ensures e.seqNo < n { var i :| 0 <= i < |line| && line[i] == e; }
    }
  }

  lemma JoinOlder<T(!new)>(line: seq<Entry<T>>, x: Entry<T>, n: nat)
    requires Older(line, n) && x.seqNo < n
    ensures Older(Join(EntryLeq, line, x), n)
  {
    var r := Join(EntryLeq, line, x);
    OlderMembers(line, n);
    forall e | e in r ensures e.seqNo < n {
      assert e in multiset(r);
      assert e == x || e in line;
    }
    OlderMembers(r, n);
  }

  /** A push onto the heap is a put into the reference queue. */
  lemma LinePut<T(!new)>(heap: seq<Entry<T>>, line: seq<Entry<T>>, x: Entry<T>, grown: seq<Entry<T>>)
    requires Lined(EntryLeq, heap, line) && Older(line, x.seqNo) && multiset(grown) == multiset(heap) + multiset{x}
    ensures var line' := Join(EntryLeq, line, x);
            Lined(EntryLeq, grown, line') && Older(line', x.seqNo + 1) && View(line') == Enqueue(View(line), AsItem(x))
  {
    hide EntryLeq, TotalPreorder, View, Enqueue;
    EntryLeqPreorder<T>();
    SequenceNumbersDiffer(line, x);
    JoinInOrder(EntryLeq, line, x);
    JoinView(line, x);
    JoinOlder(line, x, x.seqNo + 1);
  }

  class BackpressurePriorityQueue<T(!new)> {
    const maxsize: int  // zero or negative means unbounded
    var heap: seq<Entry<T>>
    var nextSeq: nat
    ghost var line: seq<Entry<T>>  // the heap's entries in the order they will be served

    ghost predicate Valid() reads this {
      && HeapOk(EntryLeq, heap) && Lined(EntryLeq, heap, line) && Older(line, nextSeq)
      && (maxsize > 0 ==> |heap| <= maxsize)
    }

    /** The waiting items, as the reference queue holds them. */
    ghost function Contents(): seq<Item<T>> reads this { View(line) }

    constructor (maxsize: int)
      ensures Valid() && Contents() == [] && this.maxsize == maxsize
    {
      this.maxsize, heap, nextSeq, line := maxsize, [], 0, [];
    }

    predicate Full() reads this { maxsize > 0 && |heap| >= maxsize }

    /** `put_nowait`, and `put` under reject-on-full: false stands for QueueFull. */
    method PutNowait(item: T, priority: int) returns (ok: bool)
      requires Valid()
      modifies this
      ensures Valid() && (ok <==> maxsize <= 0 || |old(Contents())| < maxsize)
      ensures Contents() == if ok then Enqueue(old(Contents()), (priority, item)) else old(Contents())
    {
      hide EntryLeq, HeapOk, TotalPreorder, Lined, Older, View, Join, Enqueue;
      SameMembers(heap, line) by { LinedContents(heap, line); }
      if Full() { return false; }
      var entry := Entry(-priority, nextSeq, item);
      EntryLeqPreorder<T>();
      var grown := Push(EntryLeq, heap, entry);
      LinePut(heap, line, entry, grown);
      heap, line, nextSeq := grown, Join(EntryLeq, line, entry), nextSeq + 1;
      return true;
    }

    /** `get_nowait`: the head of the line; `None` stands for QueueEmpty. */
    method GetNowait() returns (got: Option<Item<T>>)
      requires Valid()
      modifies this
      ensures Valid()
      ensures old(Contents()) == [] ==> got.None? && Contents() == []
      ensures old(Contents()) != [] ==> got == Some(old(Contents())[0]) && Contents() == old(Contents())[1..]
    {
      hide EntryLeq, HeapOk, TotalPreorder;
      SameMembers(heap, line);
      if heap == [] { return None; }
      EntryLeqPreorder<T>();
      RootIsHead(EntryLeq, heap, line);
      var entry, rest := Pop(EntryLeq, heap);
      PopLined(EntryLeq, heap, line, entry, rest);
      heap, line := rest, line[1..];
      return Some((-entry.negPriority, entry.item));
    }

    /** `peek`. */
    method Peek() returns (got: Option<Item<T>>)
      requires Valid()
      ensures got == if Contents() == [] then None else Some(Contents()[0])
    {
      hide EntryLeq, HeapOk, TotalPreorder;
      SameMembers(heap, line);
      if heap == [] { return None; }
      EntryLeqPreorder<T>();
      RootIsHead(EntryLeq, heap, line);
      return Some((-heap[0].negPriority, heap[0].item));
    }
  }

  lemma LinedContents<T(!new)>(heap: seq<Entry<T>>, line: seq<Entry<T>>)
    requires Lined(EntryLeq, heap, line)
    ensures multiset(heap) == multiset(line)
  {}

  lemma SequenceNumbersDiffer<T(!new)>(line: seq<Entry<T>>, x: Entry<T>)
    requires Older(line, x.seqNo)
    ensures forall e | e in line :: e.seqNo != x.seqNo && !(EntryLeq(x, e) && EntryLeq(e, x))
  {
    OlderMembers(line, x.seqNo);
  }

  // ---------- Items are never compared ----------

  /** The generated order of `_PrioritizedItem`, field by field, with the items' own order as a parameter. */
  predicate FieldLess<T(==)>(itemLess: (T, T) -> bool, a: Entry<T>, b: Entry<T>) {
    if a.negPriority != b.negPriority then a.negPriority < b.negPriority
    else if a.seqNo != b.seqNo then a.seqNo < b.seqNo
    else a.item != b.item && itemLess(a.item, b.item)
  }

  /** Two places in a heap hold different members of its line. */
  lemma PlacesDiffer<T(!new)>(heap: seq<Entry<T>>, line: seq<Entry<T>>, i: nat, j: nat)
    requires Lined(EntryLeq, heap, line) && i < |heap| && j < |heap| && i != j
    ensures heap[i] in line && heap[j] in line && heap[i] != heap[j]
  {
    SameMembers(heap, line);
    if heap[i] == heap[j] {
      var e := heap[i];
      TwiceIn(heap, i, j);
      OnceIn(line, e);
    }
  }

  lemma TwiceIn<T>(h: seq<T>, i: nat, j: nat)
    requires i < |h| && j < |h| && i != j && h[i] == h[j]
    ensures multiset(h)[h[i]] >= 2
  {
    var lo, hi := if i < j then i else j, if i < j then j else i;
    assert h == h[..hi] + [h[hi]] + h[hi + 1..];
    assert h[..hi][lo] == h[lo];
    assert h[lo] in multiset(h[..hi]);
  }

  lemma {:induction false} OnceIn<T(!new)>(line: seq<Entry<T>>, e: Entry<T>)
    requires InOrder(EntryLeq, line)
    ensures multiset(line)[e] <= 1
  {
    if line != [] {
      assert line == [line[0]] + line[1..];
      OnceIn(line[1..], e);
      forall k | 0 <= k < |line[1..]| ensures line[1..][k] != line[0] {
        assert !EntryLeq(line[k + 1], line[0]);
      }
      assert line[0] !in multiset(line[1..]);
    }
  }

  /**
    Between any two entries of a queue's heap, and between a newcomer and any of
    them, the full order decides as the order without items does, whatever the
    items' own order is, or if they have none.
   */
  lemma ItemsNeverCompared<T(!new)>(q: BackpressurePriorityQueue<T>, itemLess: (T, T) -> bool, i: nat, j: nat, x: Entry<T>)
    requires q.Valid() && i < |q.heap| && j < |q.heap| && i != j && x.seqNo == q.nextSeq
    ensures FieldLess(itemLess, q.heap[i], q.heap[j]) <==> !EntryLeq(q.heap[j], q.heap[i])
    ensures q.heap[i].negPriority == q.heap[j].negPriority ==> q.heap[i].seqNo != q.heap[j].seqNo
    ensures FieldLess(itemLess, x, q.heap[i]) <==> !EntryLeq(q.heap[i], x)
    ensures FieldLess(itemLess, q.heap[i], x) <==> !EntryLeq(x, q.heap[i])
  {
    PlacesDiffer(q.heap, q.line, i, j);
    SequenceNumbersDiffer(q.line, x);
    var a :| 0 <= a < |q.line| && q.line[a] == q.heap[i];
    var b :| 0 <= b < |q.line| && q.line[b] == q.heap[j];
    assert if a < b then !EntryLeq(q.line[b], q.line[a]) else !EntryLeq(q.line[a], q.line[b]);
  }
}
