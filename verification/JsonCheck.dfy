/**
  The explicit-stack checker of parsed JSON (`validate_json_tree` in
  peerq/security.py), proved equal to a recursive definition of what fits.
 */
module JsonCheck {
  import opened Octets
  import opened Orders

  /** A parsed value; `Other` is any Python type JSON does not have. */
  datatype Json =
    | Null
    | Bool(flag: bool)
    | Int(value: int)
    | Float(finite: bool)
    | Str(utf8: Bytes)
    | List(items: seq<Json>)
    | Obj(entries: seq<Entry>)
    | Other

  datatype Entry = Entry(key: Json, value: Json)

  datatype Limits = Limits(maxDepth: int, maxItems: int, maxString: int)

  function Keys(entries: seq<Entry>): (r: seq<Json>)
    ensures |r| == |entries|
    ensures forall i | 0 <= i < |r| :: r[i] == entries[i].key
  {
    if entries == [] then [] else [entries[0].key] + Keys(entries[1..])
  }

  function Values(entries: seq<Entry>): (r: seq<Json>)
    ensures |r| == |entries|
    ensures forall i | 0 <= i < |r| :: r[i] == entries[i].value
  {
    if entries == [] then [] else [entries[0].value] + Values(entries[1..])
  }

  // ---------- The recursive definition ----------

  predicate ScalarOk(v: Json, lim: Limits) {
    && (v.Str? ==> |v.utf8| <= lim.maxString)
    && (v.Float? ==> v.finite)
    && !v.Other?
  }

  /** Every node and every key of `v`, placed at `depth`, is within the depth and is well formed. */
  predicate Fits(v: Json, depth: nat, lim: Limits) {
    && depth <= lim.maxDepth && ScalarOk(v, lim)
    && (v.List? ==> forall i | 0 <= i < |v.items| :: Fits(v.items[i], depth + 1, lim))
    && (v.Obj? ==> forall i | 0 <= i < |v.entries| ::
          Fits(v.entries[i].key, depth + 1, lim) && Fits(v.entries[i].value, depth + 1, lim))
  }

  /** The number of list elements and object entries in the whole tree. */
  function Items(v: Json): nat {
    match v
    case List(items) => |items| + ItemsIn(items)
    case Obj(entries) => |entries| + EntryItems(entries)
    case _ => 0
  }

  function ItemsIn(vs: seq<Json>): nat { if vs == [] then 0 else Items(vs[0]) + ItemsIn(vs[1..]) }

  function EntryItems(es: seq<Entry>): nat {
    if es == [] then 0 else PairItems(es[0]) + EntryItems(es[1..])
  }

  function PairItems(e: Entry): nat { Items(e.key) + Items(e.value) }

  predicate Container(v: Json) { v.List? || v.Obj? }

  /** The count is compared with its bound only where there is a container to count. */
  ghost predicate Acceptable(v: Json, lim: Limits) {
    Fits(v, 0, lim) && (Container(v) ==> Items(v) <= lim.maxItems)
  }

  // ---------- The same by paths ----------

  function Children(v: Json): seq<Json> {
    match v
    case List(items) => items
    case Obj(entries) => Keys(entries) + Values(entries)
    case _ => []
  }

  /** The node or key that a path of child positions leads to. */
  function At(v: Json, path: seq<nat>): Option<Json>
    decreases |path|
  {
    if path == [] then Some(v)
    else if path[0] < |Children(v)| then At(Children(v)[path[0]], path[1..]) else None
  }

  ghost predicate FineAt(v: Json, path: seq<nat>, depth: nat, lim: Limits) {
    At(v, path).Some? ==> depth + |path| <= lim.maxDepth && ScalarOk(At(v, path).value, lim)
  }

  ghost predicate EachFits(vs: seq<Json>, depth: nat, lim: Limits) {
    forall i | 0 <= i < |vs| :: Fits(vs[i], depth, lim)
  }

  lemma FitsByChildren(v: Json, depth: nat, lim: Limits)
    ensures Fits(v, depth, lim) <==>
            depth <= lim.maxDepth && ScalarOk(v, lim) && EachFits(Children(v), depth + 1, lim)
  {
    match v
    case List(items) => assert Children(v) == items;
    case Obj(entries) =>
      hide Fits, EachFits;
      EntriesFit(entries, depth, lim);
      EachConcat(Keys(entries), Values(entries), depth + 1, lim);
    case _ => assert EachFits([], depth + 1, lim);
  }

  lemma EntriesFit(es: seq<Entry>, depth: nat, lim: Limits)
    ensures Fits(Obj(es), depth, lim) <==>
            depth <= lim.maxDepth && EachFits(Keys(es), depth + 1, lim) && EachFits(Values(es), depth + 1, lim)
  {
    var keys, values := Keys(es), Values(es);
    forall i | 0 <= i < |es|
      ensures Fits(es[i].key, depth + 1, lim) <==> Fits(keys[i], depth + 1, lim)
      ensures Fits(es[i].value, depth + 1, lim) <==> Fits(values[i], depth + 1, lim)
    {}
  }

  lemma EachConcat(a: seq<Json>, b: seq<Json>, depth: nat, lim: Limits)
    ensures EachFits(a + b, depth, lim) <==> EachFits(a, depth, lim) && EachFits(b, depth, lim)
  {
    hide Fits;
    if EachFits(a + b, depth, lim) {
      forall i | 0 <= i < |a| ensures Fits(a[i], depth, lim) { assert (a + b)[i] == a[i]; }
      forall i | 0 <= i < |b| ensures Fits(b[i], depth, lim) { assert (a + b)[|a| + i] == b[i]; }
    }
  }

  lemma {:induction false} FitsAlong(v: Json, path: seq<nat>, depth: nat, lim: Limits)
    requires Fits(v, depth, lim)
    ensures FineAt(v, path, depth, lim)
    decreases |path|
  {
    if path != [] && path[0] < |Children(v)| {
      FitsByChildren(v, depth, lim);
      FitsAlong(Children(v)[path[0]], path[1..], depth + 1, lim);
    }
  }

  lemma {:induction false} FineEverywhereFits(v: Json, depth: nat, lim: Limits)
    requires forall path :: FineAt(v, path, depth, lim)
    ensures Fits(v, depth, lim)
    decreases Weight(v)
  {
    assert FineAt(v, [], depth, lim);
    var cs, below := Children(v), depth + 1;
    forall i | 0 <= i < |cs| ensures Fits(cs[i], below, lim) {
      var child := cs[i];
      forall path ensures FineAt(child, path, below, lim) {
        assert ([i] + path)[1..] == path;
        assert FineAt(v, [i] + path, depth, lim);
      }
      ChildIsLighter(v, i);
      FineEverywhereFits(child, below, lim);
    }
    FitsByChildren(v, depth, lim);
  }

  /** The recursive definition says exactly that every node and key is in depth and well formed. */
  lemma FitsIffFineEverywhere(v: Json, depth: nat, lim: Limits)
    ensures Fits(v, depth, lim) <==> forall path :: FineAt(v, path, depth, lim)
  {
    if Fits(v, depth, lim) {
      forall path ensures FineAt(v, path, depth, lim) { FitsAlong(v, path, depth, lim); }
    } else if forall path :: FineAt(v, path, depth, lim) {
      FineEverywhereFits(v, depth, lim);
    }
  }

  lemma ChildIsLighter(v: Json, i: nat)
    requires i < |Children(v)|
    ensures Weight(Children(v)[i]) < Weight(v)
  {
    match v
    case List(items) => MemberWeight(items, i);
    case Obj(entries) =>
      EntryTotals(entries);
      if i < |entries| { MemberWeight(Keys(entries), i); } else { MemberWeight(Values(entries), i - |entries|); }
  }

  lemma {:induction false} MemberWeight(vs: seq<Json>, i: nat)
    requires i < |vs|
    ensures Weight(vs[i]) <= WeightIn(vs)
  {
    if i > 0 { MemberWeight(vs[1..], i - 1); }
  }

  // ---------- The same over a stack ----------

  type Stack = seq<(Json, nat)>

  ghost predicate AllFit(stack: Stack, lim: Limits) {
    forall i | 0 <= i < |stack| :: Fits(stack[i].0, stack[i].1, lim)
  }

  ghost function StackItems(stack: Stack): nat {
    if stack == [] then 0 else Items(stack[0].0) + StackItems(stack[1..])
  }

  /** A measure that popping a value and pushing its children decreases. */
  ghost function Weight(v: Json): (n: nat)
    ensures n > 0
  {
    match v
    case List(items) => 1 + WeightIn(items)
    case Obj(entries) => 1 + EntryWeight(entries)
    case _ => 1
  }

  ghost function WeightIn(vs: seq<Json>): nat { if vs == [] then 0 else Weight(vs[0]) + WeightIn(vs[1..]) }

  ghost function EntryWeight(es: seq<Entry>): nat {
    if es == [] then 0 else PairWeight(es[0]) + EntryWeight(es[1..])
  }

  ghost function PairWeight(e: Entry): nat { Weight(e.key) + Weight(e.value) }

  ghost function StackWeight(stack: Stack): nat {
    if stack == [] then 0 else Weight(stack[0].0) + StackWeight(stack[1..])
  }

  function Placed(vs: seq<Json>, depth: nat): (r: Stack)
    ensures |r| == |vs|
    ensures forall i | 0 <= i < |vs| :: r[i] == (vs[i], depth)
  {
    seq(|vs|, i requires 0 <= i < |vs| => (vs[i], depth))
  }

  lemma {:induction false} StackConcat(a: Stack, b: Stack)
    ensures StackItems(a + b) == StackItems(a) + StackItems(b)
    ensures StackWeight(a + b) == StackWeight(a) + StackWeight(b)
  {
    if a == [] {
      assert a + b == b;
    } else {
      assert (a + b)[1..] == a[1..] + b;
      StackConcat(a[1..], b);
    }
  }

  lemma {:induction false} PlacedTotals(vs: seq<Json>, depth: nat)
    ensures StackItems(Placed(vs, depth)) == ItemsIn(vs) && StackWeight(Placed(vs, depth)) == WeightIn(vs)
  {
    if vs != [] {
      PlacedTotals(vs[1..], depth);
      assert Placed(vs, depth)[1..] == Placed(vs[1..], depth);
    }
  }

  lemma {:induction false} EntryTotals(es: seq<Entry>)
    ensures EntryItems(es) == ItemsIn(Keys(es)) + ItemsIn(Values(es))
    ensures EntryWeight(es) == WeightIn(Keys(es)) + WeightIn(Values(es))
  {
    if es != [] { EntryTotals(es[1..]); }
  }

  /** Unpacking a list onto the stack: the same items remain to be counted, and less is left to visit. */
  lemma UnpackList(stack: Stack, items: seq<Json>, depth: nat, lim: Limits)
    ensures var grown := stack + Placed(items, depth + 1);
            && StackItems(grown) + |items| == StackItems(stack) + Items(List(items))
            && StackWeight(grown) < StackWeight(stack) + Weight(List(items))
            && (AllFit(grown, lim) && depth <= lim.maxDepth <==> AllFit(stack, lim) && Fits(List(items), depth, lim))
  {
    var top := Placed(items, depth + 1);
    StackConcat(stack, top);
    PlacedTotals(items, depth + 1);
    FitConcat(stack, top, lim);
    PlacedFit(items, depth + 1, lim);
  }

  lemma UnpackObject(stack: Stack, entries: seq<Entry>, depth: nat, lim: Limits)
    ensures var grown := stack + Placed(Keys(entries), depth + 1) + Placed(Values(entries), depth + 1);
            && StackItems(grown) + |entries| == StackItems(stack) + Items(Obj(entries))
            && StackWeight(grown) < StackWeight(stack) + Weight(Obj(entries))
            && (AllFit(grown, lim) && depth <= lim.maxDepth <==> AllFit(stack, lim) && Fits(Obj(entries), depth, lim))
  {
    hide AllFit, EachFits, Fits;
    var keys, values := Placed(Keys(entries), depth + 1), Placed(Values(entries), depth + 1);
    StackConcat(stack, keys);
    StackConcat(stack + keys, values);
    PlacedTotals(Keys(entries), depth + 1);
    PlacedTotals(Values(entries), depth + 1);
    EntryTotals(entries);
    FitConcat(stack, keys, lim);
    FitConcat(stack + keys, values, lim);
    EntriesFit(entries, depth, lim);
    PlacedFit(Keys(entries), depth + 1, lim);
    PlacedFit(Values(entries), depth + 1, lim);
  }

  lemma FitConcat(a: Stack, b: Stack, lim: Limits)
    ensures AllFit(a + b, lim) <==> AllFit(a, lim) && AllFit(b, lim)
  {
    if AllFit(a + b, lim) {
      forall i | 0 <= i < |a| ensures Fits(a[i].0, a[i].1, lim) { assert (a + b)[i] == a[i]; }
      forall i | 0 <= i < |b| ensures Fits(b[i].0, b[i].1, lim) { assert (a + b)[|a| + i] == b[i]; }
    }
  }

  lemma PlacedFit(vs: seq<Json>, depth: nat, lim: Limits)
    ensures AllFit(Placed(vs, depth), lim) <==> EachFits(vs, depth, lim)
  {
    hide Fits;
    var placed := Placed(vs, depth);
    forall i | 0 <= i < |vs| ensures Fits(vs[i], depth, lim) <==> Fits(placed[i].0, placed[i].1, lim) {}
  }

  lemma Single(v: Json, lim: Limits)
    ensures AllFit([(v, 0)], lim) <==> Fits(v, 0, lim)
    ensures StackItems([(v, 0)]) == Items(v)
  {
    var stack: Stack := [(v, 0)];
    assert stack[0] == (v, 0);
  }

  lemma PopTop(stack: Stack, lim: Limits)
    requires stack != []
    ensures var (top, rest) := (stack[|stack| - 1], stack[..|stack| - 1]);
            && (AllFit(stack, lim) <==> AllFit(rest, lim) && Fits(top.0, top.1, lim))
            && StackItems(stack) == StackItems(rest) + Items(top.0)
            && StackWeight(stack) == StackWeight(rest) + Weight(top.0)
  {
    hide Weight, Items, Fits, AllFit;
    var top, rest := stack[|stack| - 1], stack[..|stack| - 1];
    assert stack == rest + [top];
    StackConcat(rest, [top]);
    FitConcat(rest, [top], lim);
    OneFits(top, lim);
  }

  lemma OneFits(top: (Json, nat), lim: Limits)
    ensures AllFit([top], lim) <==> Fits(top.0, top.1, lim)
  {
    assert [top][0] == top;
  }

  lemma Scalar(v: Json, depth: nat, lim: Limits)
    ensures Fits(v, depth, lim) ==> depth <= lim.maxDepth && ScalarOk(v, lim)
    ensures !Container(v) ==> (Fits(v, depth, lim) <==> depth <= lim.maxDepth && ScalarOk(v, lim)) && Items(v) == 0
  {}

  lemma NothingLeft(lim: Limits)
    ensures AllFit([], lim) && StackItems([]) == 0
  {}

  // ---------- The checker ----------

  /** `validate_json_tree`: terminates on every tree and accepts exactly what the recursive definition accepts. */
  method Validate(v: Json, lim: Limits) returns (accepted: bool)
    ensures accepted <==> Acceptable(v, lim)
  {
    hide Weight, StackWeight, StackItems, Items, Fits, AllFit;
    var stack: Stack, count := [(v, 0)], 0;
    Single(v, lim);
    Scalar(v, 0, lim);
    NothingLeft(lim);
    while stack != []
      invariant lim.maxItems >= 0 ==>
                  (Acceptable(v, lim) <==> AllFit(stack, lim) && count + StackItems(stack) <= lim.maxItems)
      invariant lim.maxItems >= 0 ==> count <= lim.maxItems
      invariant lim.maxItems < 0 ==> (stack == [(v, 0)] && count == 0) || (stack == [] && Acceptable(v, lim))
      decreases StackWeight(stack)
    {
      var (current, depth) := stack[|stack| - 1];
      PopTop(stack, lim);
      Scalar(current, depth, lim);
      stack := stack[..|stack| - 1];
      if depth > lim.maxDepth { return false; }
      match current {
        case Str(utf8) => if |utf8| > lim.maxString { return false; }
        case Float(finite) => if !finite { return false; }
        case Obj(entries) =>
          count := count + |entries|;
          UnpackObject(stack, entries, depth, lim);
          if count > lim.maxItems { return false; }
          stack := stack + Placed(Keys(entries), depth + 1) + Placed(Values(entries), depth + 1);
        case List(items) =>
          count := count + |items|;
          UnpackList(stack, items, depth, lim);
          if count > lim.maxItems { return false; }
          stack := stack + Placed(items, depth + 1);
        case Other => return false;
        case _ =>
      }
    }
    return true;
  }
}
