/**
  Which record a merge keeps, said without the lattice key: text and bytes compare
  at their first difference, and the fields of a record compare one by one.
 */
module Precedence {
  import opened Orders
  import opened Octets
  import opened VectorClocks
  import opened Consensus

  // ---------- Text and bytes ----------

  /** `a` is a prefix of `b`, or is smaller at the first place where they differ. */
  ghost predicate TextLeq(a: string, b: string) {
    a <= b || exists i :: 0 <= i < |a| && i < |b| && a[..i] == b[..i] && a[i] < b[i]
  }

  ghost predicate BytesLeq(a: Bytes, b: Bytes) {
    a <= b || exists i :: 0 <= i < |a| && i < |b| && a[..i] == b[..i] && a[i] as int < b[i] as int
  }

  ghost predicate CodesLeq(a: seq<int>, b: seq<int>) {
    a <= b || exists i :: 0 <= i < |a| && i < |b| && a[..i] == b[..i] && a[i] < b[i]
  }

  lemma {:induction false} LexIsFirstDifference(a: seq<int>, b: seq<int>)
    ensures LexLeq(IntLeq, a, b) <==> CodesLeq(a, b)
  {
    if a != [] && b != [] && a[0] == b[0] {
      LexIsFirstDifference(a[1..], b[1..]);
      SameFirst(a, b);
    } else if a != [] && b != [] {
      DifferentFirst(a, b);
    }
  }

  lemma SameFirst(a: seq<int>, b: seq<int>)
    requires a != [] && b != [] && a[0] == b[0]
    ensures CodesLeq(a, b) <==> CodesLeq(a[1..], b[1..])
  {
    var x, y := a[1..], b[1..];
    assert a == [a[0]] + x && b == [b[0]] + y;
    if j :| 0 <= j < |x| && j < |y| && x[..j] == y[..j] && x[j] < y[j] {
      assert a[..j + 1] == [a[0]] + x[..j] && b[..j + 1] == [b[0]] + y[..j];
      assert a[j + 1] < b[j + 1];
    }
    if i :| 0 <= i < |a| && i < |b| && a[..i] == b[..i] && a[i] < b[i] {
      assert i > 0;
      assert x[..i - 1] == a[..i][1..] && y[..i - 1] == b[..i][1..];
      assert x[i - 1] < y[i - 1];
    }
  }

  lemma DifferentFirst(a: seq<int>, b: seq<int>)
    requires a != [] && b != [] && a[0] != b[0]
    ensures CodesLeq(a, b) <==> a[0] < b[0]
  {
    if a[0] < b[0] { assert a[..0] == b[..0]; }
    forall i | 0 < i < |a| && i < |b| ensures a[..i] != b[..i] {
      assert a[..i][0] == a[0] && b[..i][0] == b[0];
    }
  }

  lemma TextOrder(a: string, b: string)
    ensures LexLeq(IntLeq, CharCodes(a), CharCodes(b)) <==> TextLeq(a, b)
  {
    var x, y := CharCodes(a), CharCodes(b);
    LexIsFirstDifference(x, y);
    if |a| <= |b| {
      SameTextPrefix(a, b, |a|);
      assert x[..|a|] == x && a[..|a|] == a;
    }
    if i :| 0 <= i < |x| && i < |y| && x[..i] == y[..i] && x[i] < y[i] {
      SameTextPrefix(a, b, i);
      assert a[..i] == b[..i] && a[i] < b[i];
    }
    if i :| 0 <= i < |a| && i < |b| && a[..i] == b[..i] && a[i] < b[i] {
      SameTextPrefix(a, b, i);
      assert x[..i] == y[..i] && x[i] < y[i];
    }
  }

  lemma SameTextPrefix(a: string, b: string, i: nat)
    requires i <= |a| && i <= |b|
    ensures CharCodes(a)[..i] == CharCodes(b)[..i] <==> a[..i] == b[..i]
  {
    assert CharCodes(a)[..i] == CharCodes(a[..i]) && CharCodes(b)[..i] == CharCodes(b[..i]);
    if CharCodes(a[..i]) == CharCodes(b[..i]) { CharCodesInjective(a[..i], b[..i]); }
  }

  lemma BytesOrder(a: Bytes, b: Bytes)
    ensures LexLeq(IntLeq, ByteCodes(a), ByteCodes(b)) <==> BytesLeq(a, b)
  {
    var x, y := ByteCodes(a), ByteCodes(b);
    LexIsFirstDifference(x, y);
    if |a| <= |b| {
      SameBytePrefix(a, b, |a|);
      assert x[..|a|] == x && a[..|a|] == a;
    }
    if i :| 0 <= i < |x| && i < |y| && x[..i] == y[..i] && x[i] < y[i] {
      SameBytePrefix(a, b, i);
      assert a[..i] == b[..i] && a[i] as int < b[i] as int;
    }
    if i :| 0 <= i < |a| && i < |b| && a[..i] == b[..i] && a[i] as int < b[i] as int {
      SameBytePrefix(a, b, i);
      assert x[..i] == y[..i] && x[i] < y[i];
    }
  }

  lemma SameBytePrefix(a: Bytes, b: Bytes, i: nat)
    requires i <= |a| && i <= |b|
    ensures ByteCodes(a)[..i] == ByteCodes(b)[..i] <==> a[..i] == b[..i]
  {
    assert ByteCodes(a)[..i] == ByteCodes(a[..i]) && ByteCodes(b)[..i] == ByteCodes(b[..i]);
    if ByteCodes(a[..i]) == ByteCodes(b[..i]) { ByteCodesInjective(a[..i], b[..i]); }
  }

  // ---------- Records, field by field ----------

  ghost predicate TokenBefore(a: FenceToken, b: FenceToken) {
    a.epoch < b.epoch || (a.epoch == b.epoch && TextLeq(a.peer, b.peer))
  }

  lemma TokenOrder(a: FenceToken, b: FenceToken)
    ensures TokenLeq(a, b) <==> TokenBefore(a, b)
  {
    TextOrder(a.peer, b.peer);
  }

  /** PENDING, CLAIMED, RUNNING, FAILED, DONE, in this order. */
  predicate StateBefore(a: TaskState, b: TaskState) {
    match a
    case PENDING => true
    case CLAIMED => b == CLAIMED || b == RUNNING || b == FAILED || b == DONE
    case RUNNING => b == RUNNING || b == FAILED || b == DONE
    case FAILED => b == FAILED || b == DONE
    case DONE => b == DONE
  }

  /** A missing text comes before any text. */
  ghost predicate OptTextLeq(a: Option<string>, b: Option<string>) {
    a.None? || (b.Some? && TextLeq(a.value, b.value))
  }

  ghost predicate OptBytesLeq(a: Option<Bytes>, b: Option<Bytes>) {
    a.None? || (b.Some? && BytesLeq(a.value, b.value))
  }

  /** The first field that differs decides, in the order of the source. */
  ghost predicate RecordBefore(a: TaskRecord, b: TaskRecord) {
    if (a.state == DONE || a.state == FAILED) != (b.state == DONE || b.state == FAILED)
    then b.state == DONE || b.state == FAILED
    else if a.token != b.token then TokenBefore(a.token, b.token)
    else if a.state != b.state then StateBefore(a.state, b.state)
    else if a.updatedBy != b.updatedBy then TextLeq(a.updatedBy, b.updatedBy)
    else if a.claimedBy != b.claimedBy then OptTextLeq(a.claimedBy, b.claimedBy)
    else if a.result != b.result then OptBytesLeq(a.result, b.result)
    else if a.error != b.error then OptTextLeq(a.error, b.error)
    else TrailerBefore(a, b)
  }

  ghost predicate TrailerBefore(a: TaskRecord, b: TaskRecord) {
    if a.payload != b.payload then BytesLeq(a.payload, b.payload)
    else if a.leaseExpiry != b.leaseExpiry then a.leaseExpiry < b.leaseExpiry
    else if a.signature != b.signature then OptBytesLeq(a.signature, b.signature)
    else OptTextLeq(a.signerId, b.signerId)
  }

  lemma TextPart(x: string, a: seq<Part>, y: string, b: seq<Part>)
    ensures KeyLeq([Text(CharCodes(x))] + a, [Text(CharCodes(y))] + b) <==> if x == y then KeyLeq(a, b) else TextLeq(x, y)
  {
    hide TextLeq, CharCodes;
    LexCons(PartLeq, Text(CharCodes(x)), a, Text(CharCodes(y)), b);
    if CharCodes(x) == CharCodes(y) { CharCodesInjective(x, y); }
    TextOrder(x, y);
  }

  lemma BytesPart(x: Bytes, a: seq<Part>, y: Bytes, b: seq<Part>)
    ensures KeyLeq([Text(ByteCodes(x))] + a, [Text(ByteCodes(y))] + b) <==> if x == y then KeyLeq(a, b) else BytesLeq(x, y)
  {
    hide BytesLeq, ByteCodes;
    LexCons(PartLeq, Text(ByteCodes(x)), a, Text(ByteCodes(y)), b);
    if ByteCodes(x) == ByteCodes(y) { ByteCodesInjective(x, y); }
    BytesOrder(x, y);
  }

  lemma NumPart(x: real, a: seq<Part>, y: real, b: seq<Part>)
    ensures KeyLeq([Num(x)] + a, [Num(y)] + b) <==> if x == y then KeyLeq(a, b) else x < y
  {
    LexCons(PartLeq, Num(x), a, Num(y), b);
  }

  lemma OptTextPart(x: Option<string>, a: seq<Part>, y: Option<string>, b: seq<Part>)
    ensures KeyLeq(OptText(x) + a, OptText(y) + b) <==> if x == y then KeyLeq(a, b) else OptTextLeq(x, y)
  {
    hide KeyLeq, TextLeq, CharCodes;
    var s, t := if x.Some? then x.value else "", if y.Some? then y.value else "";
    var m, n := if x.Some? then 1.0 else 0.0, if y.Some? then 1.0 else 0.0;
    NoText();
    assert OptText(x) + a == [Num(m)] + ([Text(CharCodes(s))] + a);
    assert OptText(y) + b == [Num(n)] + ([Text(CharCodes(t))] + b);
    NumPart(m, [Text(CharCodes(s))] + a, n, [Text(CharCodes(t))] + b);
    TextPart(s, a, t, b);
  }

  lemma OptBytesPart(x: Option<Bytes>, a: seq<Part>, y: Option<Bytes>, b: seq<Part>)
    ensures KeyLeq(OptBytes(x) + a, OptBytes(y) + b) <==> if x == y then KeyLeq(a, b) else OptBytesLeq(x, y)
  {
    hide KeyLeq, BytesLeq, ByteCodes;
    var s, t := if x.Some? then x.value else [], if y.Some? then y.value else [];
    var m, n := if x.Some? then 1.0 else 0.0, if y.Some? then 1.0 else 0.0;
    NoText();
    assert OptBytes(x) + a == [Num(m)] + ([Text(ByteCodes(s))] + a);
    assert OptBytes(y) + b == [Num(n)] + ([Text(ByteCodes(t))] + b);
    NumPart(m, [Text(ByteCodes(s))] + a, n, [Text(ByteCodes(t))] + b);
    BytesPart(s, a, t, b);
  }

  lemma NoText()
    ensures CharCodes("") == [] && ByteCodes([]) == []
  {}

  lemma TrailerOrder(a: TaskRecord, b: TaskRecord)
    ensures KeyLeq(Trailer(a), Trailer(b)) <==> TrailerBefore(a, b)
  {
    hide KeyLeq, BytesLeq, OptBytesLeq, OptTextLeq, OptText, OptBytes, ByteCodes;
    var sa, sb := OptBytes(a.signature) + OptText(a.signerId), OptBytes(b.signature) + OptText(b.signerId);
    assert Trailer(a) == [Text(ByteCodes(a.payload))] + ([Num(a.leaseExpiry)] + sa);
    assert Trailer(b) == [Text(ByteCodes(b.payload))] + ([Num(b.leaseExpiry)] + sb);
    BytesPart(a.payload, [Num(a.leaseExpiry)] + sa, b.payload, [Num(b.leaseExpiry)] + sb);
    NumPart(a.leaseExpiry, sa, b.leaseExpiry, sb);
    OptBytesPart(a.signature, OptText(a.signerId), b.signature, OptText(b.signerId));
    OptTextPart(a.signerId, [], b.signerId, []);
    assert OptText(a.signerId) + [] == OptText(a.signerId) && OptText(b.signerId) + [] == OptText(b.signerId);
    LastPart(a.signerId);
  }

  lemma LastPart(x: Option<string>)
    ensures KeyLeq([], []) && OptTextLeq(x, x)
  {
    if x.Some? { assert x.value <= x.value; }
  }

  lemma TieBreakerOrder(a: TaskRecord, b: TaskRecord)
    ensures KeyLeq(TieBreakers(a), TieBreakers(b)) <==>
            if a.updatedBy != b.updatedBy then TextLeq(a.updatedBy, b.updatedBy)
            else if a.claimedBy != b.claimedBy then OptTextLeq(a.claimedBy, b.claimedBy)
            else if a.result != b.result then OptBytesLeq(a.result, b.result)
            else if a.error != b.error then OptTextLeq(a.error, b.error)
            else TrailerBefore(a, b)
  {
    hide KeyLeq, TextLeq, OptBytesLeq, OptTextLeq, OptText, OptBytes, CharCodes, Trailer, TrailerBefore;
    var ea, eb := OptText(a.error) + Trailer(a), OptText(b.error) + Trailer(b);
    var ra, rb := OptBytes(a.result) + ea, OptBytes(b.result) + eb;
    var ca, cb := OptText(a.claimedBy) + ra, OptText(b.claimedBy) + rb;
    TextPart(a.updatedBy, ca, b.updatedBy, cb);
    OptTextPart(a.claimedBy, ra, b.claimedBy, rb);
    OptBytesPart(a.result, ea, b.result, eb);
    OptTextPart(a.error, Trailer(a), b.error, Trailer(b));
    TrailerOrder(a, b);
  }

  /** The lattice key orders records field by field. */
  lemma KeyOrderIsFieldOrder(a: TaskRecord, b: TaskRecord)
    ensures KeyLeq(Key(a), Key(b)) <==> RecordBefore(a, b)
  {
    hide KeyLeq, Key, TextLeq, OptBytesLeq, OptTextLeq, TieBreakers, TrailerBefore, TokenBefore, TokenLeq;
    KeyOrderIsPrecedence(a, b);
    TokenOrder(a.token, b.token);
    TieBreakerOrder(a, b);
  }

  /** A merge keeps the later record, field by field, under the merged clock. */
  lemma MergeKeepsLater(a: TaskRecord, b: TaskRecord)
    requires a.taskId == b.taskId
    ensures RecordBefore(a, b) || RecordBefore(b, a)
    ensures MergeRecords(a, b) == Some((if RecordBefore(a, b) then b else a).(clock := Merge(a.clock, b.clock)))
  {
    hide KeyLeq, Key, RecordBefore, Merge;
    KeyOrderIsFieldOrder(a, b);
    KeyOrderIsFieldOrder(b, a);
    PartLeqTotal();
    KeysComparable(a, b);
    if KeyLeq(Key(a), Key(b)) && KeyLeq(Key(b), Key(a)) { SameKey(a, b); }
  }

  lemma KeysComparable(a: TaskRecord, b: TaskRecord)
    ensures KeyLeq(Key(a), Key(b)) || KeyLeq(Key(b), Key(a))
  {
    hide Key;
    PartLeqTotal();
    LexTotal(PartLeq, Key(a), Key(b));
  }

  lemma SameKey(a: TaskRecord, b: TaskRecord)
    requires a.taskId == b.taskId && KeyLeq(Key(a), Key(b)) && KeyLeq(Key(b), Key(a))
    ensures a.(clock := b.clock) == b
  {
    hide Key;
    PartLeqTotal();
    LexAntisymmetric(PartLeq, Key(a), Key(b));
    KeyInjective(a, b);
  }

  /** Two peers that claim in the same epoch: the merge keeps the claim of the later name. */
  lemma LaterPeerWins(a: TaskRecord, b: TaskRecord)
    requires a.taskId == b.taskId && a.token.epoch == b.token.epoch && a.token.peer != b.token.peer
    requires a.state != DONE && a.state != FAILED && b.state != DONE && b.state != FAILED
    ensures TextLeq(a.token.peer, b.token.peer) ==>
            MergeRecords(a, b) == MergeRecords(b, a) == Some(b.(clock := Merge(a.clock, b.clock)))
    ensures TextLeq(a.token.peer, b.token.peer) || TextLeq(b.token.peer, a.token.peer)
  {
    hide TextLeq, Merge, MergeRecords;
    MergeKeepsLater(a, b);
    JoinCommutative(a, b);
  }

  /** Under one token a finished record beats a running one, and of two outcomes DONE beats FAILED. */
  lemma HigherStateWins(a: TaskRecord, b: TaskRecord)
    requires a.taskId == b.taskId && a.token == b.token && a.state != b.state && StateBefore(a.state, b.state)
    ensures MergeRecords(a, b) == MergeRecords(b, a) == Some(b.(clock := Merge(a.clock, b.clock)))
  {
    hide Merge, MergeRecords;
    MergeKeepsLater(a, b);
    JoinCommutative(a, b);
  }
}
