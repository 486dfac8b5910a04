/**
  The document form of task records (`to_dict`, `from_dict` in
  peerq/consensus.py). A document is seen through the lookups `from_dict` makes:
  one value per field, where an absent key reads as null.
 */
module RecordCodec {
  import opened Orders
  import opened Octets
  import opened VectorClocks
  import opened Consensus
  import opened NodeSpec

  /** A JSON value where a scalar is expected; `Other` is a list or an object. */
  datatype Value = Null | Bool(b: bool) | Int(n: int) | Float(x: real) | NonFinite | Str(s: string) | Other

  datatype TokenField = NoToken | TokenObject(epoch: Value, peer: Value)

  datatype ClockField = NoClock | ClockObject(counters: map<string, Value>)

  datatype Document = Document(
    taskId: Value,
    state: Value,
    payload: Value,
    result: Value,
    error: Value,
    claimedBy: Value,
    token: TokenField,
    leaseExpiry: Value,
    clock: ClockField,
    updatedBy: Value,
    signature: Value,
    signerId: Value)

  // ---------- Hexadecimal ----------

  function HexDigit(n: nat): char
    requires n < 16
  {
    if n < 10 then ('0' as int + n) as char else ('a' as int + n - 10) as char
  }

  function DigitValue(c: char): (v: Option<nat>)
    ensures v.Some? ==> v.value < 16
  {
    if '0' <= c <= '9' then Some(c as int - '0' as int)
    else if 'a' <= c <= 'f' then Some(c as int - 'a' as int + 10)
    else if 'A' <= c <= 'F' then Some(c as int - 'A' as int + 10)
    else None
  }

  /** The ASCII whitespace that `bytes.fromhex` skips between bytes. */
  predicate IsSpace(c: char) { c == ' ' || 9 <= c as int <= 13 }

  function ToHex(b: Bytes): (s: string)
    ensures |s| == 2 * |b|
  {
    if b == [] then []
    else
      HexPair(b[0]) + ToHex(b[1..])
  }

  function HexPair(b: bv8): (s: string)
    ensures |s| == 2
  {
    ByteRange(b);
    [HexDigit(b as int / 16), HexDigit(b as int % 16)]
  }

  /** Digits are written in lower case, and read in both. */
  lemma HexDigits(n: nat, c: char)
    requires n < 16
    ensures HexDigit(n) == "0123456789abcdef"[n]
    ensures DigitValue(c) == Some(n) <==> c == "0123456789abcdef"[n] || c == "0123456789ABCDEF"[n]
  {}

  lemma ByteRange(b: bv8)
    ensures 0 <= b as int < 0x100
  {}

  function FromHex(s: string): Option<Bytes> {
    if s == [] then Some([])
    else if IsSpace(s[0]) then FromHex(s[1..])
    else if |s| < 2 then None
    else
      var high, low := DigitValue(s[0]), DigitValue(s[1]);
      if high.None? || low.None? then None
      else
        var rest := FromHex(s[2..]);
        if rest.None? then None else Some([ByteOf(16 * high.value + low.value)] + rest.value)
  }

  function Spaces(s: string): nat {
    if s == [] then 0 else (if IsSpace(s[0]) then 1 else 0) + Spaces(s[1..])
  }

  lemma DigitRoundTrip(n: nat)
    requires n < 16
    ensures DigitValue(HexDigit(n)) == Some(n) && !IsSpace(HexDigit(n))
  {}

  /** Two digits in front of a text give one byte in front of its bytes. */
  lemma DecodeDigits(a: char, b: char, rest: string)
    requires !IsSpace(a) && DigitValue(a).Some? && DigitValue(b).Some? && FromHex(rest).Some?
    ensures FromHex([a, b] + rest) ==
            Some([ByteOf(16 * DigitValue(a).value + DigitValue(b).value)] + FromHex(rest).value)
  {
    hide DigitValue, ByteOf, IsSpace;
    assert ([a, b] + rest)[2..] == rest;
  }

  lemma SplitByte(b: bv8)
    ensures 0 <= b as int / 16 < 16 && 0 <= b as int % 16 < 16 && ByteOf(16 * (b as int / 16) + b as int % 16) == b
  {
    hide ByteOf;
    ByteRange(b);
    var v := b as int;
    assert 16 * (v / 16) + v % 16 == v;
    ValueOfByte(b);
  }

  lemma DecodePair(b: bv8, rest: string)
    requires FromHex(rest).Some?
    ensures FromHex(HexPair(b) + rest) == Some([b] + FromHex(rest).value)
  {
    hide HexDigit, DigitValue, ByteOf, IsSpace, FromHex;
    SplitByte(b);
    DigitRoundTrip(b as int / 16);
    DigitRoundTrip(b as int % 16);
    DecodeDigits(HexDigit(b as int / 16), HexDigit(b as int % 16), rest);
  }

  lemma {:induction false} HexRoundTrip(b: Bytes)
    ensures FromHex(ToHex(b)) == Some(b)
  {
    hide HexPair;
    if b != [] {
      HexRoundTrip(b[1..]);
      DecodePair(b[0], ToHex(b[1..]));
      assert b == [b[0]] + b[1..];
    }
  }

  /** Every two digits give a byte; whitespace gives none. */
  lemma {:induction false} HexLength(s: string)
    requires FromHex(s).Some?
    ensures |s| == 2 * |FromHex(s).value| + Spaces(s)
  {
    hide ByteOf;
    if s != [] {
      if IsSpace(s[0]) {
        HexLength(s[1..]);
      } else {
        HexLength(s[2..]);
        assert s[1..][1..] == s[2..];
        assert Spaces(s) == Spaces(s[1..]) == Spaces(s[2..]);
      }
    }
  }

  // ---------- Encoding ----------

  function StateName(s: TaskState): string {
    match s
    case PENDING => "pending"
    case CLAIMED => "claimed"
    case RUNNING => "running"
    case DONE => "done"
    case FAILED => "failed"
  }

  function ParseState(s: string): Option<TaskState> {
    if s == "pending" then Some(PENDING)
    else if s == "claimed" then Some(CLAIMED)
    else if s == "running" then Some(RUNNING)
    else if s == "done" then Some(DONE)
    else if s == "failed" then Some(FAILED)
    else None
  }

  function OptStr(s: Option<string>): Value { if s.None? then Null else Str(s.value) }

  function OptHex(b: Option<Bytes>): Value { if b.None? then Null else Str(ToHex(b.value)) }

  function ClockDoc(c: Clock): map<string, Value> { map p | p in c :: Int(c[p]) }

  /** `to_dict`. */
  function ToDict(r: TaskRecord): Document {
    Document(Str(r.taskId), Str(StateName(r.state)), Str(ToHex(r.payload)), OptHex(r.result), OptStr(r.error),
             OptStr(r.claimedBy), TokenObject(Int(r.token.epoch), Str(r.token.peer)), Float(r.leaseExpiry),
             ClockObject(ClockDoc(r.clock)), Str(r.updatedBy), OptHex(r.signature), OptStr(r.signerId))
  }

  // ---------- Decoding ----------

  /** A bounded byte string in hexadecimal. */
  predicate HexOk(v: Value, limit: nat) { v.Str? && |v.s| <= 2 * limit && FromHex(v.s).Some? }

  /** An optional peer name: null, or a non-empty bounded string. */
  predicate NameOk(v: Value) { v.Null? || (v.Str? && 0 < |v.s| <= MAX_PEER_ID_LENGTH) }

  predicate CountersOk(m: map<string, Value>) {
    |m| <= 128 && forall p | p in m :: 0 < |p| <= MAX_PEER_ID_LENGTH && m[p].Int? && m[p].n >= 0
  }

  const TWO_TO_64: int := 0x1_0000_0000_0000_0000

  const TWO_TO_320: int := TWO_TO_64 * TWO_TO_64 * TWO_TO_64 * TWO_TO_64 * TWO_TO_64

  /** 2^1024 - 2^970: the least integer that rounds to no finite double. */
  const FLOAT_OVERFLOW: int := (0x40_0000_0000_0000 - 1) * TWO_TO_320 * TWO_TO_320 * TWO_TO_320 * 0x400

  /** A number that `float` converts to a finite value. */
  predicate LeaseOk(v: Value) { v.Float? || (v.Int? && -FLOAT_OVERFLOW < v.n < FLOAT_OVERFLOW) }

  /** The checks up to the lease, in the order of the source. */
  predicate BodyAccepted(d: Document) {
    && d.taskId.Str? && 0 < |d.taskId.s| <= MAX_TASK_ID_LENGTH
    && d.state.Str? && ParseState(d.state.s).Some?
    && HexOk(d.payload, MAX_TASK_PAYLOAD)
    && (d.result.Null? || HexOk(d.result, MAX_TASK_RESULT))
    && (d.error.Null? || (d.error.Str? && |d.error.s| <= MAX_ERROR_LENGTH))
    && NameOk(d.claimedBy) && NameOk(d.updatedBy) && NameOk(d.signerId)
    && d.token.TokenObject? && d.token.epoch.Int? && d.token.epoch.n >= 0
    && d.token.peer.Str? && |d.token.peer.s| <= MAX_PEER_ID_LENGTH
    && d.clock.ClockObject? && CountersOk(d.clock.counters)
  }

  predicate Accepted(d: Document) {
    && BodyAccepted(d) && LeaseOk(d.leaseExpiry)
    && (d.signature.Null? || (d.signature.Str? && |d.signature.s| == 128 && FromHex(d.signature.s).Some?))
  }

  /** The document whose lease is an integer no float can hold: `from_dict` raises OverflowError, which no caller expects. */
  predicate Overflows(d: Document) { BodyAccepted(d) && d.leaseExpiry.Int? && !LeaseOk(d.leaseExpiry) }

  function TextOf(v: Value): Option<string> { if v.Str? then Some(v.s) else None }

  function BytesOf(v: Value): Option<Bytes> { if v.Str? then FromHex(v.s) else None }

  function ParseClock(m: map<string, Value>): Clock
    requires forall p | p in m :: m[p].Int?
  {
    Normalize(map p | p in m :: m[p].n)
  }

  /** `from_dict`: `None` stands for its ValueError, or for an OverflowError if the document overflows. */
  function FromDict(d: Document): Option<TaskRecord> {
    if !Accepted(d) then None
    else Some(TaskRecord(
      d.taskId.s,
      ParseState(d.state.s).value,
      FromHex(d.payload.s).value,
      BytesOf(d.result),
      TextOf(d.error),
      TextOf(d.claimedBy),
      FenceToken(d.token.epoch.n, d.token.peer.s),
      if d.leaseExpiry.Int? then d.leaseExpiry.n as real else d.leaseExpiry.x,
      ParseClock(d.clock.counters),
      if d.updatedBy.Str? then d.updatedBy.s else "",
      BytesOf(d.signature),
      TextOf(d.signerId)))
  }

  // ---------- Round trips ----------

  /** Each field of a decoded record is what its own entry of the document says. */
  lemma DecodedFields(d: Document)
    requires FromDict(d).Some?
    ensures var r := FromDict(d).value;
            && Str(r.taskId) == d.taskId && ParseState(d.state.s) == Some(r.state) && FromHex(d.payload.s) == Some(r.payload)
            && (if r.error.Some? then d.error == Str(r.error.value) else d.error.Null?)
            && (if r.claimedBy.Some? then d.claimedBy == Str(r.claimedBy.value) else d.claimedBy.Null?)
            && (if r.signerId.Some? then d.signerId == Str(r.signerId.value) else d.signerId.Null?)
            && (if r.result.Some? then FromHex(d.result.s) == r.result else d.result.Null?)
            && (if r.signature.Some? then FromHex(d.signature.s) == r.signature else d.signature.Null?)
            && (if d.updatedBy.Null? then r.updatedBy == "" else d.updatedBy == Str(r.updatedBy))
            && d.token == TokenObject(Int(r.token.epoch), Str(r.token.peer))
            && (d.leaseExpiry == Float(r.leaseExpiry) || (d.leaseExpiry.Int? && d.leaseExpiry.n as real == r.leaseExpiry))
            && forall p :: Get(r.clock, p) == if p in d.clock.counters then d.clock.counters[p].n else 0
  {
    hide FromHex, ParseState;
  }

  predicate OptNameOk(s: Option<string>) { s.None? || 0 < |s.value| <= MAX_PEER_ID_LENGTH }

  predicate ClockOk(c: Clock) { |c| <= 128 && forall p | p in c :: 0 < |p| <= MAX_PEER_ID_LENGTH }

  predicate WellFormed(r: TaskRecord) {
    && 0 < |r.taskId| <= MAX_TASK_ID_LENGTH
    && |r.payload| <= MAX_TASK_PAYLOAD
    && (r.result.None? || |r.result.value| <= MAX_TASK_RESULT)
    && (r.error.None? || |r.error.value| <= MAX_ERROR_LENGTH)
    && OptNameOk(r.claimedBy) && 0 < |r.updatedBy| <= MAX_PEER_ID_LENGTH && OptNameOk(r.signerId)
    && |r.token.peer| <= MAX_PEER_ID_LENGTH
    && ClockOk(r.clock)
    && (r.signature.None? || |r.signature.value| == 64)
  }

  lemma StateRoundTrip(s: TaskState)
    ensures ParseState(StateName(s)) == Some(s)
  {}

  /** The five names of the states, and no others, are accepted. */
  lemma StateNames(name: string, s: TaskState)
    ensures ParseState(name) == Some(s) <==>
            (name, s) in {("pending", PENDING), ("claimed", CLAIMED), ("running", RUNNING), ("done", DONE), ("failed", FAILED)}
  {}

  lemma OptHexRoundTrip(b: Option<Bytes>)
    ensures BytesOf(OptHex(b)) == b
    ensures b.Some? ==> FromHex(ToHex(b.value)) == b
  {
    if b.Some? { HexRoundTrip(b.value); }
  }

  lemma SameKeys<V, W>(a: map<string, V>, b: map<string, W>)
    requires a.Keys == b.Keys
    ensures |a| == |b|
  {
    assert |a| == |a.Keys| && |b| == |b.Keys|;
  }

  lemma ClockRoundTrip(c: Clock)
    ensures CountersOk(ClockDoc(c)) <==> ClockOk(c)
    ensures forall p | p in ClockDoc(c) :: ClockDoc(c)[p].Int?
    ensures ParseClock(ClockDoc(c)) == c
  {
    var m := ClockDoc(c);
    assert m.Keys == c.Keys;
    SameKeys(m, c);
    var n := map p | p in m :: m[p].n;
    assert n.Keys == c.Keys;
    assert forall p | p in c :: n[p] == c[p] && n[p] > 0;
  }

  /** Encoding and decoding a record returns it exactly when it is well formed. */
  lemma RecordRoundTrip(r: TaskRecord)
    ensures FromDict(ToDict(r)) == Some(r) <==> WellFormed(r)
    ensures FromDict(ToDict(r)).Some? <==> WellFormed(r)
  {
    hide FromHex, ToHex, ParseState, StateName, CountersOk, ClockOk, ParseClock, ClockDoc;
    StateRoundTrip(r.state);
    HexRoundTrip(r.payload);
    OptHexRoundTrip(r.result);
    OptHexRoundTrip(r.signature);
    ClockRoundTrip(r.clock);
  }

  /** What a caller can read off the document: a named writer, and a signature text without whitespace. */
  predicate Canonical(d: Document) {
    d.updatedBy.Str? && (d.signature.Str? ==> Spaces(d.signature.s) == 0)
  }

  lemma ParsedClockOk(m: map<string, Value>)
    requires CountersOk(m)
    ensures ClockOk(ParseClock(m))
  {
    var c := ParseClock(m);
    var n := map p | p in m :: m[p].n;
    forall p | p in c ensures p in m { assert Get(c, p) > 0; }
    assert c.Keys <= m.Keys;
    SubsetSize(c.Keys, m.Keys);
    assert |c| == |c.Keys| && |m| == |m.Keys|;
  }

  lemma HexBound(s: string, limit: nat)
    requires FromHex(s).Some? && |s| <= 2 * limit
    ensures |FromHex(s).value| <= limit
  {
    HexLength(s);
  }

  lemma SignatureLength(s: string)
    requires FromHex(s).Some? && |s| == 128
    ensures |FromHex(s).value| == 64 <==> Spaces(s) == 0
  {
    HexLength(s);
  }

  /**
    An accepted document re-encodes to one that parses to the same record, if and
    only if it names its writer and its signature text has no whitespace. The
    length test of `from_dict` counts whitespace that `bytes.fromhex` then skips.
   */
  lemma AcceptedReencodes(d: Document)
    requires FromDict(d).Some?
    ensures FromDict(ToDict(FromDict(d).value)) == FromDict(d) <==> Canonical(d)
  {
    hide FromHex, ToHex, ParseState, StateName, ParseClock, ClockDoc, Spaces, ToDict;
    var r := FromDict(d).value;
    RecordRoundTrip(r);
    HexBound(d.payload.s, MAX_TASK_PAYLOAD);
    if d.result.Str? { HexBound(d.result.s, MAX_TASK_RESULT); }
    if d.signature.Str? { SignatureLength(d.signature.s); }
    ParsedClockOk(d.clock.counters);
    assert WellFormed(r) <==> Canonical(d);
  }

  lemma {:induction false} SpacesDecodeToNothing(n: nat)
    ensures var s := seq(n, _ => ' '); FromHex(s) == Some([]) && Spaces(s) == n
  {
    var s := seq(n, _ => ' ');
    if n > 0 {
      assert s[1..] == seq(n - 1, _ => ' ');
      SpacesDecodeToNothing(n - 1);
    }
  }

  /** A signature of 128 blanks passes the length test, decodes to no bytes, and cannot be read back. */
  lemma BlankSignatureIsLost(d: Document)
    requires Accepted(d) && d.updatedBy.Str?
    ensures var e := d.(signature := Str(seq(128, _ => ' ')));
            FromDict(e).Some? && FromDict(ToDict(FromDict(e).value)).None?
  {
    hide FromHex, ToHex, ParseState, ParseClock, ToDict;
    var e := d.(signature := Str(seq(128, _ => ' ')));
    SpacesDecodeToNothing(128);
    assert FromDict(e).Some?;
    RecordRoundTrip(FromDict(e).value);
  }
}
