/**
  Replicated task records and their merge (peerq/consensus.py): states, fence
  tokens, the total lattice key, and the proof that unkeyed `merge_records` is
  the join of a semilattice on the records of one task.
 */
module Consensus {
  import opened Orders
  import opened VectorClocks
  import opened Octets

  type TaskId = string

  datatype TaskState = PENDING | CLAIMED | RUNNING | DONE | FAILED {
    predicate Terminal() { DONE? || FAILED? }

    function LatticeRank(): nat {
      match this
      case PENDING => 0
      case CLAIMED => 1
      case RUNNING => 2
      case FAILED => 3
      case DONE => 4
    }
  }

  datatype FenceToken = FenceToken(epoch: nat, peer: PeerId) {
    function NextFor(p: PeerId): FenceToken { FenceToken(epoch + 1, p) }
  }

  const ZERO_TOKEN := FenceToken(0, "")

  datatype TaskRecord = TaskRecord(
    taskId: TaskId,
    state: TaskState,
    payload: Bytes,
    result: Option<Bytes>,
    error: Option<string>,
    claimedBy: Option<PeerId>,
    token: FenceToken,
    leaseExpiry: real,
    clock: Clock,
    updatedBy: PeerId,
    signature: Option<Bytes>,
    signerId: Option<PeerId>)

  // ---------- The lattice key ----------

  /** One component of the key. Nested pairs of the source are listed flat: they have fixed arity. */
  datatype Part = Num(n: real) | Text(codes: seq<int>)

  predicate IntLeq(x: int, y: int) { x <= y }

  predicate PartLeq(a: Part, b: Part) {
    match (a, b)
    case (Num(x), Num(y)) => x <= y
    case (Text(x), Text(y)) => LexLeq(IntLeq, x, y)
    case (Num(_), Text(_)) => true
    case (Text(_), Num(_)) => false
  }

  predicate KeyLeq(a: seq<Part>, b: seq<Part>) { LexLeq(PartLeq, a, b) }

  function CharCodes(s: string): seq<int> { seq(|s|, i requires 0 <= i < |s| => s[i] as int) }

  function ByteCodes(s: Bytes): seq<int> { seq(|s|, i requires 0 <= i < |s| => s[i] as int) }

  function OptText(s: Option<string>): (p: seq<Part>)
    ensures |p| == 2
  {
    match s
    case None => [Num(0.0), Text([])]
    case Some(v) => [Num(1.0), Text(CharCodes(v))]
  }

  function OptBytes(s: Option<Bytes>): (p: seq<Part>)
    ensures |p| == 2
  {
    match s
    case None => [Num(0.0), Text([])]
    case Some(v) => [Num(1.0), Text(ByteCodes(v))]
  }

  function Trailer(r: TaskRecord): seq<Part> {
    [Text(ByteCodes(r.payload)), Num(r.leaseExpiry)] + (OptBytes(r.signature) + OptText(r.signerId))
  }

  function TieBreakers(r: TaskRecord): seq<Part> {
    [Text(CharCodes(r.updatedBy))] + (OptText(r.claimedBy) + (OptBytes(r.result) + (OptText(r.error) + Trailer(r))))
  }

  function TokenParts(t: FenceToken): seq<Part> { [Num(t.epoch as real), Text(CharCodes(t.peer))] }

  function RankPart(s: TaskState): Part { Num(s.LatticeRank() as real) }

  function Head(r: TaskRecord): (h: seq<Part>)
    ensures |h| == 4
  {
    [Num(if r.state.Terminal() then 1.0 else 0.0)] + TokenParts(r.token) + [RankPart(r.state)]
  }

  function Key(r: TaskRecord): seq<Part> {
    Head(r) + TieBreakers(r)
  }

  /** The dataclass order of fence tokens: epoch first, then peer. */
  predicate TokenLeq(a: FenceToken, b: FenceToken) {
    a.epoch < b.epoch || (a.epoch == b.epoch && LexLeq(IntLeq, CharCodes(a.peer), CharCodes(b.peer)))
  }

  lemma CharCodesInjective(a: string, b: string)
    requires CharCodes(a) == CharCodes(b)
    ensures a == b
  {
    assert |a| == |CharCodes(a)| && |b| == |CharCodes(b)|;
    forall i | 0 <= i < |a| ensures a[i] == b[i] {
      assert CharCodes(a)[i] == CharCodes(b)[i];
      assert a[i] as int as char == b[i] as int as char;
    }
  }

  lemma ByteCodesInjective(a: Bytes, b: Bytes)
    requires ByteCodes(a) == ByteCodes(b)
    ensures a == b
  {
    assert |a| == |ByteCodes(a)| && |b| == |ByteCodes(b)|;
    forall i | 0 <= i < |a| ensures a[i] == b[i] {
      assert ByteCodes(a)[i] == ByteCodes(b)[i];
      ByteInjective(a[i], b[i]);
    }
  }

  lemma IntLeqTotal()
    ensures TotalOrder(IntLeq)
  {}

  lemma PartLeqTotal()
    ensures TotalOrder(PartLeq)
  {
    IntLeqTotal();
    forall x: Part ensures PartLeq(x, x) { if x.Text? { LexReflexive(IntLeq, x.codes); } }
    forall x: Part, y: Part ensures PartLeq(x, y) || PartLeq(y, x) {
      if x.Text? && y.Text? { LexTotal(IntLeq, x.codes, y.codes); }
    }
    forall x: Part, y: Part | PartLeq(x, y) && PartLeq(y, x) ensures x == y {
      if x.Text? && y.Text? { LexAntisymmetric(IntLeq, x.codes, y.codes); }
    }
    forall x: Part, y: Part, z: Part | PartLeq(x, y) && PartLeq(y, z) ensures PartLeq(x, z) {
      if x.Text? && y.Text? && z.Text? { LexTransitive(IntLeq, x.codes, y.codes, z.codes); }
    }
  }

  lemma TokenLeqAntisymmetric(a: FenceToken, b: FenceToken)
    requires TokenLeq(a, b) && TokenLeq(b, a)
    ensures a == b
  {
    IntLeqTotal();
    LexAntisymmetric(IntLeq, CharCodes(a.peer), CharCodes(b.peer));
    CharCodesInjective(a.peer, b.peer);
  }

  lemma TokenLeqTotal(a: FenceToken, b: FenceToken)
    ensures TokenLeq(a, b) || TokenLeq(b, a)
  {
    IntLeqTotal();
    LexTotal(IntLeq, CharCodes(a.peer), CharCodes(b.peer));
  }

  lemma TokenLeqTransitive(a: FenceToken, b: FenceToken, c: FenceToken)
    requires TokenLeq(a, b) && TokenLeq(b, c)
    ensures TokenLeq(a, c)
  {
    IntLeqTotal();
    if a.epoch == b.epoch == c.epoch {
      LexTransitive(IntLeq, CharCodes(a.peer), CharCodes(b.peer), CharCodes(c.peer));
    }
  }

  lemma OptTextInjective(a: Option<string>, b: Option<string>)
    requires OptText(a) == OptText(b)
    ensures a == b
  {
    assert OptText(a)[0] == OptText(b)[0] && OptText(a)[1] == OptText(b)[1];
    if a.Some? && b.Some? { CharCodesInjective(a.value, b.value); }
  }

  lemma OptBytesInjective(a: Option<Bytes>, b: Option<Bytes>)
    requires OptBytes(a) == OptBytes(b)
    ensures a == b
  {
    assert OptBytes(a)[0] == OptBytes(b)[0] && OptBytes(a)[1] == OptBytes(b)[1];
    if a.Some? && b.Some? { ByteCodesInjective(a.value, b.value); }
  }

  lemma AppendInjective<T>(a: seq<T>, x: seq<T>, b: seq<T>, y: seq<T>)
    requires |a| == |b| && a + x == b + y
    ensures a == b && x == y
  {
    assert a == (a + x)[..|a|] && x == (a + x)[|a|..];
    assert b == (b + y)[..|b|] && y == (b + y)[|b|..];
  }

  lemma TrailerInjective(a: TaskRecord, b: TaskRecord)
    requires Trailer(a) == Trailer(b)
    ensures a.payload == b.payload && a.leaseExpiry == b.leaseExpiry
    ensures a.signature == b.signature && a.signerId == b.signerId
  {
    assert Trailer(a)[0] == Trailer(b)[0] && Trailer(a)[1] == Trailer(b)[1];
    ByteCodesInjective(a.payload, b.payload);
    var sa, sb := OptBytes(a.signature) + OptText(a.signerId), OptBytes(b.signature) + OptText(b.signerId);
    assert sa == Trailer(a)[2..] == Trailer(b)[2..] == sb;
    AppendInjective(OptBytes(a.signature), OptText(a.signerId), OptBytes(b.signature), OptText(b.signerId));
    OptBytesInjective(a.signature, b.signature);
    OptTextInjective(a.signerId, b.signerId);
  }

  lemma TieBreakersInjective(a: TaskRecord, b: TaskRecord)
    requires TieBreakers(a) == TieBreakers(b)
    ensures a.updatedBy == b.updatedBy && a.claimedBy == b.claimedBy && a.result == b.result && a.error == b.error
    ensures a.payload == b.payload && a.leaseExpiry == b.leaseExpiry
    ensures a.signature == b.signature && a.signerId == b.signerId
  {
    var xa, xb := OptText(a.error) + Trailer(a), OptText(b.error) + Trailer(b);
    var ya, yb := OptBytes(a.result) + xa, OptBytes(b.result) + xb;
    var za, zb := OptText(a.claimedBy) + ya, OptText(b.claimedBy) + yb;
    AppendInjective([Text(CharCodes(a.updatedBy))], za, [Text(CharCodes(b.updatedBy))], zb);
    AppendInjective(OptText(a.claimedBy), ya, OptText(b.claimedBy), yb);
    AppendInjective(OptBytes(a.result), xa, OptBytes(b.result), xb);
    AppendInjective(OptText(a.error), Trailer(a), OptText(b.error), Trailer(b));
    CharCodesInjective(a.updatedBy, b.updatedBy);
    OptTextInjective(a.claimedBy, b.claimedBy);
    OptBytesInjective(a.result, b.result);
    OptTextInjective(a.error, b.error);
    TrailerInjective(a, b);
  }

  /** Distinct records never share a key, clocks aside: the key determines every other field. */
  lemma KeyInjective(a: TaskRecord, b: TaskRecord)
    requires a.taskId == b.taskId && Key(a) == Key(b)
    ensures a.(clock := b.clock) == b
  {
    var x, y := Key(a), Key(b);
    assert x[1] == y[1] && x[2] == y[2] && x[3] == y[3];
    CharCodesInjective(a.token.peer, b.token.peer);
    assert TieBreakers(a) == x[4..] == y[4..] == TieBreakers(b);
    TieBreakersInjective(a, b);
  }

  // ---------- Reading the key order ----------

  lemma LexCons<T(!new)>(leq: (T, T) -> bool, x: T, a: seq<T>, y: T, b: seq<T>)
    ensures LexLeq(leq, [x] + a, [y] + b) <==> if x == y then LexLeq(leq, a, b) else leq(x, y)
  {
    assert ([x] + a)[1..] == a && ([y] + b)[1..] == b;
  }

  predicate PrecedenceLeq(a: TaskRecord, b: TaskRecord) {
    if a.state.Terminal() != b.state.Terminal() then b.state.Terminal()
    else if a.token != b.token then TokenLeq(a.token, b.token)
    else if a.state != b.state then a.state.LatticeRank() <= b.state.LatticeRank()
    else KeyLeq(TieBreakers(a), TieBreakers(b))
  }

  lemma LexFour(a: seq<Part>, ta: seq<Part>, b: seq<Part>, tb: seq<Part>)
    requires |a| == |b| == 4
    ensures KeyLeq(a + ta, b + tb) <==>
      if a[0] != b[0] then PartLeq(a[0], b[0])
      else if a[1] != b[1] then PartLeq(a[1], b[1])
      else if a[2] != b[2] then PartLeq(a[2], b[2])
      else if a[3] != b[3] then PartLeq(a[3], b[3])
      else KeyLeq(ta, tb)
  {
    assert a + ta == [a[0]] + ([a[1]] + ([a[2]] + ([a[3]] + ta)));
    assert b + tb == [b[0]] + ([b[1]] + ([b[2]] + ([b[3]] + tb)));
    LexCons(PartLeq, a[0], [a[1]] + ([a[2]] + ([a[3]] + ta)), b[0], [b[1]] + ([b[2]] + ([b[3]] + tb)));
    LexCons(PartLeq, a[1], [a[2]] + ([a[3]] + ta), b[1], [b[2]] + ([b[3]] + tb));
    LexCons(PartLeq, a[2], [a[3]] + ta, b[2], [b[3]] + tb);
    LexCons(PartLeq, a[3], ta, b[3], tb);
  }

  /** The key order is: terminal first, then the higher token, then the higher rank, then the tie-breakers. */
  lemma KeyOrderIsPrecedence(a: TaskRecord, b: TaskRecord)
    ensures KeyLeq(Key(a), Key(b)) <==> PrecedenceLeq(a, b)
  {
    LexFour(Head(a), TieBreakers(a), Head(b), TieBreakers(b));
    if CharCodes(a.token.peer) == CharCodes(b.token.peer) { CharCodesInjective(a.token.peer, b.token.peer); }
  }

  // ---------- The join-semilattice ----------

  /** `merge_records` without a keyring, on two records of one task. */
  function Join(a: TaskRecord, b: TaskRecord): (r: TaskRecord)
    requires a.taskId == b.taskId
    ensures r.taskId == a.taskId
    ensures r == a.(clock := r.clock) || r == b.(clock := r.clock)
    ensures r.clock == Merge(a.clock, b.clock)
  {
    (if KeyLeq(Key(b), Key(a)) then a else b).(clock := Merge(a.clock, b.clock))
  }

  /** `merge_records(r1, r2)`: records of different tasks are refused. */
  function MergeRecords(a: TaskRecord, b: TaskRecord): Option<TaskRecord> {
    if a.taskId != b.taskId then None else Some(Join(a, b))
  }

  /** The lattice order: same task, no higher key, no later clock. */
  ghost predicate Below(a: TaskRecord, b: TaskRecord) {
    a.taskId == b.taskId && KeyLeq(Key(a), Key(b)) && Leq(a.clock, b.clock)
  }

  lemma BelowReflexive(a: TaskRecord)
    ensures Below(a, a)
  {
    LexReflexive(PartLeq, Key(a));
  }

  lemma BelowTransitive(a: TaskRecord, b: TaskRecord, c: TaskRecord)
    requires Below(a, b) && Below(b, c)
    ensures Below(a, c)
  {
    PartLeqTotal();
    LexTransitive(PartLeq, Key(a), Key(b), Key(c));
    forall p ensures Get(a.clock, p) <= Get(c.clock, p) {
      assert Get(a.clock, p) <= Get(b.clock, p);
    }
  }

  lemma BelowAntisymmetric(a: TaskRecord, b: TaskRecord)
    requires Below(a, b) && Below(b, a)
    ensures a == b
  {
    PartLeqTotal();
    LexAntisymmetric(PartLeq, Key(a), Key(b));
    KeyInjective(a, b);
    LeqAntisymmetric(a.clock, b.clock);
  }

  /** The merge is the least upper bound of the lattice order. */
  lemma JoinIsLeastUpperBound(a: TaskRecord, b: TaskRecord, c: TaskRecord)
    requires a.taskId == b.taskId
    ensures Below(a, Join(a, b)) && Below(b, Join(a, b))
    ensures Below(Join(a, b), c) <==> Below(a, c) && Below(b, c)
  {
    var j := Join(a, b);
    PartLeqTotal();
    LexTotal(PartLeq, Key(a), Key(b));
    LexReflexive(PartLeq, Key(j));
    MergeIsLeastUpperBound(a.clock, b.clock, c.clock);
    var w := if KeyLeq(Key(b), Key(a)) then a else b;
    assert Key(j) == Key(w);
    if Below(j, c) {
      LexTransitive(PartLeq, Key(a), Key(j), Key(c));
      LexTransitive(PartLeq, Key(b), Key(j), Key(c));
    }
  }

  lemma JoinAbsorbs(a: TaskRecord, b: TaskRecord)
    requires Below(a, b)
    ensures Join(a, b) == b && Join(b, a) == b
  {
    BelowReflexive(b);
    JoinIsLeastUpperBound(a, b, b);
    JoinIsLeastUpperBound(b, a, b);
    BelowAntisymmetric(Join(a, b), b);
    BelowAntisymmetric(Join(b, a), b);
  }

  lemma JoinIdempotent(a: TaskRecord)
    ensures MergeRecords(a, a) == Some(a)
  {
    BelowReflexive(a);
    JoinAbsorbs(a, a);
  }

  lemma JoinCommutative(a: TaskRecord, b: TaskRecord)
    ensures MergeRecords(a, b) == MergeRecords(b, a)
  {
    if a.taskId == b.taskId {
      JoinIsLeastUpperBound(a, b, Join(b, a));
      JoinIsLeastUpperBound(b, a, Join(a, b));
      BelowAntisymmetric(Join(a, b), Join(b, a));
    }
  }

  lemma JoinAssociative(a: TaskRecord, b: TaskRecord, c: TaskRecord)
    requires a.taskId == b.taskId == c.taskId
    ensures Join(Join(a, b), c) == Join(a, Join(b, c))
  {
    var l, r := Join(Join(a, b), c), Join(a, Join(b, c));
    JoinIsLeastUpperBound(Join(a, b), c, r);
    JoinIsLeastUpperBound(a, b, r);
    JoinIsLeastUpperBound(b, c, r);
    JoinIsLeastUpperBound(a, Join(b, c), l);
    JoinIsLeastUpperBound(b, c, l);
    JoinIsLeastUpperBound(a, b, l);
    BelowReflexive(l);
    BelowReflexive(r);
    BelowAntisymmetric(l, r);
  }

  // ---------- Joins of whole sets of records ----------

  ghost predicate UpperBound(s: set<TaskRecord>, r: TaskRecord) {
    forall x :: x in s ==> Below(x, r)
  }

  ghost predicate IsJoin(s: set<TaskRecord>, r: TaskRecord) {
    UpperBound(s, r) && forall u :: UpperBound(s, u) && u.taskId == r.taskId ==> Below(r, u)
  }

  /** A set of records has at most one join, so replicas that saw the same set agree. */
  lemma JoinUnique(s: set<TaskRecord>, r: TaskRecord, t: TaskRecord)
    requires r.taskId == t.taskId && IsJoin(s, r) && IsJoin(s, t)
    ensures r == t
  {
    BelowAntisymmetric(r, t);
  }

  lemma JoinExtends(s: set<TaskRecord>, r: TaskRecord, x: TaskRecord)
    requires r.taskId == x.taskId && IsJoin(s, r)
    ensures IsJoin(s + {x}, Join(r, x))
  {
    var j := Join(r, x);
    JoinIsLeastUpperBound(r, x, j);
    forall y | y in s + {x} ensures Below(y, j) {
      if y in s { BelowTransitive(y, r, j); }
    }
    forall u | UpperBound(s + {x}, u) && u.taskId == j.taskId ensures Below(j, u) {
      assert UpperBound(s, u);
      assert Below(x, u);
      JoinIsLeastUpperBound(r, x, u);
    }
  }

  lemma JoinOfOne(x: TaskRecord)
    ensures IsJoin({x}, x)
  {
    BelowReflexive(x);
  }

  /** Left fold of the merge over a delivery order. */
  function JoinAll(r: TaskRecord, deliveries: seq<TaskRecord>): (j: TaskRecord)
    requires forall x :: x in deliveries ==> x.taskId == r.taskId
    ensures j.taskId == r.taskId
    decreases |deliveries|
  {
    if deliveries == [] then r else JoinAll(Join(r, deliveries[0]), deliveries[1..])
  }

  lemma {:induction false} JoinAllIsJoin(s: set<TaskRecord>, r: TaskRecord, deliveries: seq<TaskRecord>)
    requires forall x :: x in deliveries ==> x.taskId == r.taskId
    requires IsJoin(s, r)
    ensures IsJoin(s + Elements(deliveries), JoinAll(r, deliveries))
    decreases |deliveries|
  {
    ElementsStep(s, deliveries);
    if deliveries != [] {
      JoinExtends(s, r, deliveries[0]);
      JoinAllIsJoin(s + {deliveries[0]}, Join(r, deliveries[0]), deliveries[1..]);
    }
  }

  /** Order and duplication of deliveries never change the merged record. */
  lemma DeliveryOrderIrrelevant(r: TaskRecord, d1: seq<TaskRecord>, d2: seq<TaskRecord>)
    requires forall x :: x in d1 ==> x.taskId == r.taskId
    requires forall x :: x in d2 ==> x.taskId == r.taskId
    requires Elements(d1) == Elements(d2)
    ensures JoinAll(r, d1) == JoinAll(r, d2)
  {
    JoinOfOne(r);
    JoinAllIsJoin({r}, r, d1);
    JoinAllIsJoin({r}, r, d2);
    JoinUnique({r} + Elements(d1), JoinAll(r, d1), JoinAll(r, d2));
  }
}
