/**
  Orders shared by the rest of the project: the optional value, Python's
  lexicographic comparison of sequences, and the law that it lifts a total order.
 */
module Orders {

  datatype Option<+T> = None | Some(value: T)

  ghost predicate TotalOrder<T(!new)>(leq: (T, T) -> bool) {
    && (forall x :: leq(x, x))
    && (forall x, y :: leq(x, y) || leq(y, x))
    && (forall x, y :: leq(x, y) && leq(y, x) ==> x == y)
    && (forall x, y, z :: leq(x, y) && leq(y, z) ==> leq(x, z))
  }

  /** Python's `<=` on tuples, strings and byte strings: the first differing element decides. */
  predicate LexLeq<T(==)>(leq: (T, T) -> bool, a: seq<T>, b: seq<T>) {
    if a == [] then true
    else if b == [] then false
    else if a[0] == b[0] then LexLeq(leq, a[1..], b[1..])
    else leq(a[0], b[0])
  }

  lemma {:induction false} LexReflexive<T(!new)>(leq: (T, T) -> bool, a: seq<T>)
    ensures LexLeq(leq, a, a)
  {
    if a != [] { LexReflexive(leq, a[1..]); }
  }

  lemma {:induction false} LexTotal<T(!new)>(leq: (T, T) -> bool, a: seq<T>, b: seq<T>)
    requires TotalOrder(leq)
    ensures LexLeq(leq, a, b) || LexLeq(leq, b, a)
  {
    if a != [] && b != [] && a[0] == b[0] { LexTotal(leq, a[1..], b[1..]); }
  }

  lemma {:induction false} LexAntisymmetric<T(!new)>(leq: (T, T) -> bool, a: seq<T>, b: seq<T>)
    requires TotalOrder(leq) && LexLeq(leq, a, b) && LexLeq(leq, b, a)
    ensures a == b
  {
    if a != [] {
      LexAntisymmetric(leq, a[1..], b[1..]);
      assert a == [a[0]] + a[1..] && b == [b[0]] + b[1..];
    }
  }

  lemma {:induction false} LexTransitive<T(!new)>(leq: (T, T) -> bool, a: seq<T>, b: seq<T>, c: seq<T>)
    requires TotalOrder(leq) && LexLeq(leq, a, b) && LexLeq(leq, b, c)
    ensures LexLeq(leq, a, c)
  {
    if a != [] && a[0] == b[0] && b[0] == c[0] { LexTransitive(leq, a[1..], b[1..], c[1..]); }
  }

  function Elements<T>(d: seq<T>): set<T> { set x | x in d }

  lemma ElementsStep<T>(s: set<T>, d: seq<T>)
    ensures d == [] ==> s + Elements(d) == s
    ensures d != [] ==> s + Elements(d) == s + {d[0]} + Elements(d[1..])
  {
    if d != [] { assert d == [d[0]] + d[1..]; }
  }
}
