/**
  The write-ahead log file (peerq/wal.py): frame layout, append, replay and
  checkpoint over bytes. JSON text is an abstract pair of functions.
 */
module Wal {
  import opened Orders
  import opened Octets
  import opened Crc32

  const U32: nat := 0x1_0000_0000

  const MAGIC: Bytes := [0x50, 0x51, 0x57, 0x4C, 0x01, 0x00, 0x00, 0x00]

  const RECORD_TASK: bv8 := 1
  const RECORD_CLOCK: bv8 := 2
  const RECORD_CHECKPOINT: bv8 := 3

  const FRAME_HEADER: nat := 9

  predicate KnownKind(k: bv8) { k == RECORD_TASK || k == RECORD_CLOCK || k == RECORD_CHECKPOINT }

  /** Serialisation with its checks (`None` is a refused document), and parsing with its checks. */
  datatype Codec<!Doc> = Codec(encode: Doc -> Option<Bytes>, decode: Bytes -> Option<Doc>)

  ghost predicate Inverse<Doc(!new)>(c: Codec<Doc>) {
    forall d :: c.encode(d).Some? ==> c.decode(c.encode(d).value) == Some(d)
  }

  // ---------- Integers in the frame header ----------

  function PackLength(n: nat): (b: Bytes)
    requires n < U32
    ensures |b| == 4
  {
    [ByteOf(n / 0x100_0000), ByteOf(n / 0x1_0000 % 0x100), ByteOf(n / 0x100 % 0x100), ByteOf(n % 0x100)]
  }

  function UnpackLength(b: Bytes): nat
    requires |b| == 4
  {
    (b[0] as int) * 0x100_0000 + (b[1] as int) * 0x1_0000 + (b[2] as int) * 0x100 + (b[3] as int)
  }

  lemma LengthRoundTrip(n: nat)
    requires n < U32
    ensures UnpackLength(PackLength(n)) == n
  {
    hide ByteOf;
    ByteOfValue(n / 0x100_0000);
    ByteOfValue(n / 0x1_0000 % 0x100);
    ByteOfValue(n / 0x100 % 0x100);
    ByteOfValue(n % 0x100);
    Digits(n);
  }

  lemma Digits(n: nat)
    ensures n == n / 0x100_0000 * 0x100_0000 + n / 0x1_0000 % 0x100 * 0x1_0000 + n / 0x100 % 0x100 * 0x100 + n % 0x100
  {
    assert n / 0x1_0000 == n / 0x100 / 0x100 && n / 0x100_0000 == n / 0x1_0000 / 0x100;
  }

  function PackCrc(c: bv32): (b: Bytes)
    ensures |b| == 4
  {
    [(c >> 24) as bv8, ((c >> 16) & 0xFF) as bv8, ((c >> 8) & 0xFF) as bv8, (c & 0xFF) as bv8]
  }

  function UnpackCrc(b: Bytes): bv32
    requires |b| == 4
  {
    ((b[0] as bv32) << 24) | ((b[1] as bv32) << 16) | ((b[2] as bv32) << 8) | (b[3] as bv32)
  }

  lemma CrcRoundTrip(c: bv32)
    ensures UnpackCrc(PackCrc(c)) == c
  {}

  lemma UnpackCrcInjective(a: Bytes, b: Bytes)
    requires |a| == |b| == 4 && UnpackCrc(a) == UnpackCrc(b)
    ensures a == b
  {
    assert a[0] == b[0] && a[1] == b[1] && a[2] == b[2] && a[3] == b[3];
  }

  // ---------- Frames ----------

  datatype Entry = Entry(kind: bv8, payload: Bytes)

  function Checksum(e: Entry): bv32 { Crc([e.kind] + e.payload) }

  function Frame(e: Entry): (f: Bytes)
    requires |e.payload| < U32
    ensures |f| == FRAME_HEADER + |e.payload|
  {
    PackLength(|e.payload|) + PackCrc(Checksum(e)) + [e.kind] + e.payload
  }

  lemma FrameFields(e: Entry)
    requires |e.payload| < U32
    ensures var f := Frame(e);
            && f[..4] == PackLength(|e.payload|) && f[4..8] == PackCrc(Checksum(e))
            && f[8] == e.kind && f[9..] == e.payload
  {
    hide PackLength, PackCrc, Checksum;
  }

  // ---------- Replay ----------

  datatype WalRecord<Doc> = WalRecord(offset: nat, kind: bv8, doc: Doc)

  /** A replay ends by itself, or raises at the frame that starts at `at`. */
  datatype Ending = Finished | Corrupt(at: nat)

  /** The records yielded before the replay ended. */
  datatype Replayed<Doc> = Replayed(records: seq<WalRecord<Doc>>, ending: Ending)

  function Stop<Doc>(ending: Ending): Replayed<Doc> { Replayed([], ending) }

  /** An incomplete frame at the end of the file. */
  function Torn(strict: bool, offset: nat): Ending { if strict then Corrupt(offset) else Finished }

  function Follow<Doc>(r: WalRecord<Doc>, rest: Replayed<Doc>): Replayed<Doc> {
    Replayed([r] + rest.records, rest.ending)
  }

  /** What the bytes at one offset are: the end of the replay, or a frame of `size` bytes. */
  datatype Reading<Doc> = End(ending: Ending) | Next(kind: bv8, doc: Doc, size: nat)

  function ReadFrame<Doc>(decode: Bytes -> Option<Doc>, limit: nat, rest: Bytes, offset: nat, strict: bool)
    : (r: Reading<Doc>)
    ensures r.Next? ==> FRAME_HEADER <= r.size <= |rest|
  {
    if rest == [] then End(Finished)
    else if |rest| < FRAME_HEADER then End(Torn(strict, offset))
    else
      var length, crc, kind := UnpackLength(rest[..4]), UnpackCrc(rest[4..8]), rest[8];
      if !KnownKind(kind) || length > limit then End(Corrupt(offset))
      else if |rest| < FRAME_HEADER + length then End(Torn(strict, offset))
      else
        var payload := rest[9..9 + length];
        if Checksum(Entry(kind, payload)) != crc || decode(payload).None? then End(Corrupt(offset))
        else Next(kind, decode(payload).value, FRAME_HEADER + length)
  }

  /** The frames in `rest`, the part of the file from `offset` on. */
  function Scan<Doc>(decode: Bytes -> Option<Doc>, limit: nat, rest: Bytes, offset: nat, strict: bool): Replayed<Doc>
    decreases |rest|
  {
    match ReadFrame(decode, limit, rest, offset, strict)
    case End(ending) => Stop(ending)
    case Next(kind, doc, size) =>
      Follow(WalRecord(offset, kind, doc), Scan(decode, limit, rest[size..], offset + size, strict))
  }

  predicate ValidHeader(file: Bytes) { |file| >= 8 && file[..4] == MAGIC[..4] && file[4] == 1 }

  /** `replay(strict=...)` of a whole file. */
  function ReplayFile<Doc>(decode: Bytes -> Option<Doc>, limit: nat, file: Bytes, strict: bool): Replayed<Doc> {
    if |file| < 8 then Stop(Torn(strict, 0))
    else if !ValidHeader(file) then Stop(Corrupt(0))
    else Scan(decode, limit, file[8..], 8, strict)
  }

  // ---------- The file of a list of entries ----------

  predicate Writable<Doc>(decode: Bytes -> Option<Doc>, limit: nat, e: Entry) {
    KnownKind(e.kind) && |e.payload| <= limit && |e.payload| < U32 && decode(e.payload).Some?
  }

  predicate AllWritable<Doc>(decode: Bytes -> Option<Doc>, limit: nat, es: seq<Entry>) {
    forall i | 0 <= i < |es| :: Writable(decode, limit, es[i])
  }

  function Frames(es: seq<Entry>): Bytes
    requires forall i | 0 <= i < |es| :: |es[i].payload| < U32
  {
    if es == [] then [] else Frame(es[0]) + Frames(es[1..])
  }

  /** The file after appending `es` to a new log. */
  function FileOf(es: seq<Entry>): Bytes
    requires forall i | 0 <= i < |es| :: |es[i].payload| < U32
  {
    MAGIC + Frames(es)
  }

  /** The records of `es`, the first of which starts at `offset`. */
  function Records<Doc>(decode: Bytes -> Option<Doc>, limit: nat, es: seq<Entry>, offset: nat): (r: seq<WalRecord<Doc>>)
    requires AllWritable(decode, limit, es)
    ensures |r| == |es|
    ensures forall i | 0 <= i < |es| :: r[i].kind == es[i].kind && decode(es[i].payload) == Some(r[i].doc)
  {
    if es == [] then []
    else [WalRecord(offset, es[0].kind, decode(es[0].payload).value)] +
         Records(decode, limit, es[1..], offset + FRAME_HEADER + |es[0].payload|)
  }

  lemma ScanHeader(e: Entry, tail: Bytes)
    requires |e.payload| < U32
    ensures var rest := Frame(e) + tail;
            && UnpackLength(rest[..4]) == |e.payload| && UnpackCrc(rest[4..8]) == Checksum(e) && rest[8] == e.kind
            && rest[9..9 + |e.payload|] == e.payload && rest[9 + |e.payload|..] == tail
  {
    hide Frame, PackLength, UnpackLength, PackCrc, UnpackCrc, Checksum;
    var f, rest := Frame(e), Frame(e) + tail;
    FrameFields(e);
    assert rest[..4] == f[..4] && rest[4..8] == f[4..8] && rest[9..9 + |e.payload|] == f[9..];
    LengthRoundTrip(|e.payload|);
    CrcRoundTrip(Checksum(e));
  }

  lemma ReadWhole<Doc>(decode: Bytes -> Option<Doc>, limit: nat, e: Entry, tail: Bytes, offset: nat, strict: bool)
    requires Writable(decode, limit, e)
    ensures ReadFrame(decode, limit, Frame(e) + tail, offset, strict) ==
            Next(e.kind, decode(e.payload).value, FRAME_HEADER + |e.payload|)
    ensures (Frame(e) + tail)[FRAME_HEADER + |e.payload|..] == tail
  {
    hide Frame, UnpackLength, UnpackCrc, Checksum;
    ScanHeader(e, tail);
  }

  /** A complete frame yields its record, and the scan goes on behind it. */
  lemma ScanFrame<Doc>(decode: Bytes -> Option<Doc>, limit: nat, e: Entry, tail: Bytes, offset: nat, strict: bool)
    requires Writable(decode, limit, e)
    ensures Scan(decode, limit, Frame(e) + tail, offset, strict) ==
            Follow(WalRecord(offset, e.kind, decode(e.payload).value),
                   Scan(decode, limit, tail, offset + FRAME_HEADER + |e.payload|, strict))
  {
    hide Frame, ReadFrame;
    ReadWhole(decode, limit, e, tail, offset, strict);
  }

  lemma {:induction false} ScanFrames<Doc>(decode: Bytes -> Option<Doc>, limit: nat, es: seq<Entry>, tail: Bytes,
                                          offset: nat, strict: bool)
    requires AllWritable(decode, limit, es)
    ensures var rest := Scan(decode, limit, tail, offset + |Frames(es)|, strict);
            Scan(decode, limit, Frames(es) + tail, offset, strict) ==
            Replayed(Records(decode, limit, es, offset) + rest.records, rest.ending)
    decreases |es|
  {
    hide Frame, Scan;
    if es == [] {
      assert Frames(es) + tail == tail;
    } else {
      assert Frames(es) + tail == Frame(es[0]) + (Frames(es[1..]) + tail);
      ScanFrame(decode, limit, es[0], Frames(es[1..]) + tail, offset, strict);
      ScanFrames(decode, limit, es[1..], tail, offset + FRAME_HEADER + |es[0].payload|, strict);
    }
  }

  /** A proper, non-empty part of a frame is a torn write: dropped, or refused in strict mode. */
  lemma ScanTorn<Doc>(decode: Bytes -> Option<Doc>, limit: nat, e: Entry, d: nat, offset: nat, strict: bool)
    requires Writable(decode, limit, e) && d < |Frame(e)|
    ensures Scan(decode, limit, Frame(e)[..d], offset, strict) == Stop(if d == 0 then Finished else Torn(strict, offset))
  {
    hide UnpackLength, UnpackCrc, Checksum, PackLength, PackCrc;
    if d >= FRAME_HEADER {
      var f := Frame(e);
      ScanHeader(e, []);
      assert f + [] == f;
      assert f[..d][..4] == f[..4] && f[..d][4..8] == f[4..8];
    }
  }

  /** How many frames lie wholly in the first `d` bytes. */
  function Whole(es: seq<Entry>, d: nat): (k: nat)
    requires forall i | 0 <= i < |es| :: |es[i].payload| < U32
    ensures k <= |es|
  {
    if es == [] || d < |Frame(es[0])| then 0 else 1 + Whole(es[1..], d - |Frame(es[0])|)
  }

  lemma {:induction false} WholeIsMaximal(es: seq<Entry>, d: nat, k: nat)
    requires forall i | 0 <= i < |es| :: |es[i].payload| < U32
    requires k <= |es|
    ensures k <= Whole(es, d) <==> |Frames(es[..k])| <= d
    decreases |es|
  {
    hide Frame;
    if k > 0 {
      assert es[..k][1..] == es[1..][..k - 1];
      if d >= |Frame(es[0])| { WholeIsMaximal(es[1..], d - |Frame(es[0])|, k - 1); }
    }
  }

  /** The first `d` bytes, when they hold the first frame. */
  lemma CutBehindFirst(es: seq<Entry>, d: nat)
    requires forall i | 0 <= i < |es| :: |es[i].payload| < U32
    requires es != [] && |Frame(es[0])| <= d <= |Frames(es)|
    ensures d - |Frame(es[0])| <= |Frames(es[1..])|
    ensures Frames(es)[..d] == Frame(es[0]) + Frames(es[1..])[..d - |Frame(es[0])|]
  {
    hide Frame;
  }

  lemma PrefixUnfolds<Doc>(decode: Bytes -> Option<Doc>, limit: nat, es: seq<Entry>, k: nat, offset: nat)
    requires AllWritable(decode, limit, es) && 0 < k <= |es|
    ensures |Frames(es[..k])| == FRAME_HEADER + |es[0].payload| + |Frames(es[1..][..k - 1])|
    ensures Records(decode, limit, es[..k], offset) ==
            [WalRecord(offset, es[0].kind, decode(es[0].payload).value)] +
            Records(decode, limit, es[1..][..k - 1], offset + FRAME_HEADER + |es[0].payload|)
  {
    hide Frame;
    assert es[..k][1..] == es[1..][..k - 1];
  }

  lemma {:induction false} ScanCut<Doc>(decode: Bytes -> Option<Doc>, limit: nat, es: seq<Entry>, d: nat, offset: nat,
                                       strict: bool)
    requires AllWritable(decode, limit, es) && d <= |Frames(es)|
    ensures var k := Whole(es, d);
            Scan(decode, limit, Frames(es)[..d], offset, strict) ==
            Replayed(Records(decode, limit, es[..k], offset),
                     if d == |Frames(es[..k])| then Finished else Torn(strict, offset + |Frames(es[..k])|))
    decreases |es|
  {
    hide Frame, Scan, Frames, Records;
    var k := Whole(es, d);
    NoneWritten(es);
    if es == [] {
      NoRecords(decode, limit, es, offset);
      assert Frames(es)[..d] == [];
      ScanEmpty(decode, limit, offset, strict);
    } else if d < |Frame(es[0])| {
      NoRecords(decode, limit, es, offset);
      CutInFirst(es, d);
      ScanTorn(decode, limit, es[0], d, offset, strict);
    } else {
      var d' := d - |Frame(es[0])|;
      CutBehindFirst(es, d);
      PrefixUnfolds(decode, limit, es, k, offset);
      ScanFrame(decode, limit, es[0], Frames(es[1..])[..d'], offset, strict);
      ScanCut(decode, limit, es[1..], d', offset + FRAME_HEADER + |es[0].payload|, strict);
    }
  }

  lemma CutInFirst(es: seq<Entry>, d: nat)
    requires forall i | 0 <= i < |es| :: |es[i].payload| < U32
    requires es != [] && d < |Frame(es[0])| && d <= |Frames(es)|
    ensures Frames(es)[..d] == Frame(es[0])[..d]
  {
    hide Frame;
  }

  lemma ScanEmpty<Doc>(decode: Bytes -> Option<Doc>, limit: nat, offset: nat, strict: bool)
    ensures Scan(decode, limit, [], offset, strict) == Stop(Finished)
  {}

  /**
    The torn-tail theorem. However the file is cut, a non-strict replay returns
    exactly the records whose frames lie wholly before the cut, and never raises.
    A strict replay of a file cut behind its header succeeds if and only if the
    cut is on a frame boundary.
   */
  lemma TornTail<Doc>(decode: Bytes -> Option<Doc>, limit: nat, es: seq<Entry>, cut: nat)
    requires AllWritable(decode, limit, es) && cut <= |FileOf(es)|
    ensures var k := if cut < 8 then 0 else Whole(es, cut - 8);
            && ReplayFile(decode, limit, FileOf(es)[..cut], false) == Replayed(Records(decode, limit, es[..k], 8), Finished)
            && (forall j | 0 <= j <= |es| :: j <= k <==> j == 0 || 8 + |Frames(es[..j])| <= cut)
    ensures cut >= 8 ==>
            (ReplayFile(decode, limit, FileOf(es)[..cut], true).ending == Finished <==>
             exists j :: 0 <= j <= |es| && cut == 8 + |Frames(es[..j])|)
    ensures cut < 8 ==> ReplayFile(decode, limit, FileOf(es)[..cut], true) == Stop(Corrupt(0))
  {
    hide Scan, Frame, Frames, Whole, Records;
    if cut >= 8 {
      var k, d := Whole(es, cut - 8), cut - 8;
      CutFile(es, cut);
      ScanCut(decode, limit, es, d, 8, false);
      ScanCut(decode, limit, es, d, 8, true);
      forall j | 0 <= j <= |es| ensures j <= k <==> |Frames(es[..j])| <= d { WholeIsMaximal(es, d, j); }
      NoneWritten(es);
      if j :| 0 <= j <= |es| && cut == 8 + |Frames(es[..j])| { OneBoundary(es, d, j); }
    } else {
      NoneWritten(es);
      NoRecords(decode, limit, es, 8);
    }
  }

  lemma CutFile(es: seq<Entry>, cut: nat)
    requires forall i | 0 <= i < |es| :: |es[i].payload| < U32
    requires 8 <= cut <= |FileOf(es)|
    ensures FileOf(es)[..cut][8..] == Frames(es)[..cut - 8] && ValidHeader(FileOf(es)[..cut])
  {
    hide Frames;
    assert FileOf(es)[..cut][..4] == MAGIC[..4];
  }

  lemma NoneWritten(es: seq<Entry>)
    ensures es[..0] == [] && |Frames(es[..0])| == 0
  {}

  lemma NoRecords<Doc>(decode: Bytes -> Option<Doc>, limit: nat, es: seq<Entry>, offset: nat)
    ensures Records(decode, limit, es[..0], offset) == []
  {}

  /** Two boundaries at the same byte are the same: every frame is at least a header long. */
  lemma {:induction false} OneBoundary(es: seq<Entry>, d: nat, j: nat)
    requires forall i | 0 <= i < |es| :: |es[i].payload| < U32
    requires j <= |es| && d == |Frames(es[..j])|
    ensures j == Whole(es, d)
    decreases |es|
  {
    hide Frame;
    if j > 0 {
      assert es[..j][1..] == es[1..][..j - 1];
      OneBoundary(es[1..], d - |Frame(es[0])|, j - 1);
    }
  }

  /** Append, then replay: every record comes back, in order, in both modes. */
  lemma ReplayReturnsAppended<Doc>(decode: Bytes -> Option<Doc>, limit: nat, es: seq<Entry>, strict: bool)
    requires AllWritable(decode, limit, es)
    ensures ReplayFile(decode, limit, FileOf(es), strict) == Replayed(Records(decode, limit, es, 8), Finished)
  {
    hide Scan, Frames;
    var file := FileOf(es);
    assert file[..|file|] == file;
    CutFile(es, |file|);
    assert file[8..] == Frames(es) + [];
    ScanFrames(decode, limit, es, [], 8, strict);
    ScanEmpty(decode, limit, 8 + |Frames(es)|, strict);
    assert Records(decode, limit, es, 8) + [] == Records(decode, limit, es, 8);
  }

  // ---------- What replay accepts ----------

  /** The bytes of a frame: length and checksum with the highest byte first, then the type, then the payload. */
  lemma FrameLayout(e: Entry)
    requires |e.payload| < U32
    ensures var f := Frame(e);
            && |f| == 9 + |e.payload|
            && (f[0] as int) * 0x100_0000 + (f[1] as int) * 0x1_0000 + (f[2] as int) * 0x100 + (f[3] as int) == |e.payload|
            && (((f[4] as bv32) << 24) | ((f[5] as bv32) << 16) | ((f[6] as bv32) << 8) | (f[7] as bv32))
               == Crc([e.kind] + e.payload)
            && f[8] == e.kind && f[9..] == e.payload
  {
    hide Frame, PackLength, PackCrc, Crc;
    var f := Frame(e);
    FrameFields(e);
    LengthRoundTrip(|e.payload|);
    CrcRoundTrip(Checksum(e));
    LengthBytes(f[..4]);
    assert f[..4][0] == f[0] && f[..4][1] == f[1] && f[..4][2] == f[2] && f[..4][3] == f[3];
    assert f[4..8][0] == f[4] && f[4..8][1] == f[5] && f[4..8][2] == f[6] && f[4..8][3] == f[7];
  }

  lemma LengthBytes(b: Bytes)
    requires |b| == 4
    ensures UnpackLength(b) ==
            (b[0] as int) * 0x100_0000 + (b[1] as int) * 0x1_0000 + (b[2] as int) * 0x100 + (b[3] as int)
  {}

  /** A new log starts with the letters PQWL, version one and three zero bytes. */
  lemma FileStart(es: seq<Entry>)
    requires forall i | 0 <= i < |es| :: |es[i].payload| < U32
    ensures FileOf(es)[..8] == ['P' as int as bv8, 'Q' as int as bv8, 'W' as int as bv8, 'L' as int as bv8, 1, 0, 0, 0]
  {
    hide Frames;
    assert MAGIC == ['P' as int as bv8, 'Q' as int as bv8, 'W' as int as bv8, 'L' as int as bv8, 1, 0, 0, 0];
  }

  lemma UnpackedFits(b: Bytes)
    requires |b| == 4
    ensures UnpackLength(b) < U32 && PackLength(UnpackLength(b)) == b
  {
    hide ByteOf, PackLength, UnpackLength;
    var x, y, z, w := ByteAt(b, 0), ByteAt(b, 1), ByteAt(b, 2), ByteAt(b, 3);
    LengthBytes(b);
    PackDigits(x, y, z, w);
    assert b == [b[0], b[1], b[2], b[3]];
  }

  function ByteAt(b: Bytes, i: nat): (x: nat)
    requires i < |b|
    ensures x < 0x100 && x == b[i] as int && ByteOf(x) == b[i]
  {
    ValueOfByte(b[i]);
    b[i] as int
  }

  lemma PackDigits(x: nat, y: nat, z: nat, w: nat)
    requires x < 0x100 && y < 0x100 && z < 0x100 && w < 0x100
    ensures var n := x * 0x100_0000 + y * 0x1_0000 + z * 0x100 + w;
            n < U32 && PackLength(n) == [ByteOf(x), ByteOf(y), ByteOf(z), ByteOf(w)]
  {
    hide ByteOf;
    DigitsOf(x, y, z, w);
  }

  lemma DigitsOf(x: nat, y: nat, z: nat, w: nat)
    requires x < 0x100 && y < 0x100 && z < 0x100 && w < 0x100
    ensures var n := x * 0x100_0000 + y * 0x1_0000 + z * 0x100 + w;
            && n < U32 && n / 0x100_0000 == x && n / 0x1_0000 % 0x100 == y && n / 0x100 % 0x100 == z && n % 0x100 == w
  {
    var n := x * 0x100_0000 + y * 0x1_0000 + z * 0x100 + w;
    assert n / 0x1_0000 == x * 0x100 + y && n / 0x100 == x * 0x1_0000 + y * 0x100 + z;
  }

  lemma RepackCrc(b: Bytes)
    requires |b| == 4
    ensures PackCrc(UnpackCrc(b)) == b
  {
    hide PackCrc, UnpackCrc;
    CrcRoundTrip(UnpackCrc(b));
    UnpackCrcInjective(PackCrc(UnpackCrc(b)), b);
  }

  /** Whatever is read as a frame is the frame of a writable entry. */
  lemma ReadIsFrame<Doc>(decode: Bytes -> Option<Doc>, limit: nat, rest: Bytes, offset: nat, strict: bool)
    requires ReadFrame(decode, limit, rest, offset, strict).Next?
    ensures var r := ReadFrame(decode, limit, rest, offset, strict);
            var e := Entry(r.kind, rest[9..r.size]);
            Writable(decode, limit, e) && r.size == FRAME_HEADER + |e.payload| &&
            decode(e.payload).value == r.doc && rest[..r.size] == Frame(e)
  {
    hide PackLength, UnpackLength, PackCrc, UnpackCrc, Checksum;
    UnpackedFits(rest[..4]);
    RepackCrc(rest[4..8]);
    var r := ReadFrame(decode, limit, rest, offset, strict);
    assert rest[..r.size] == rest[..4] + rest[4..8] + [rest[8]] + rest[9..r.size];
  }

  /** The entries of the frames a scan goes through. */
  ghost function Parsed<Doc>(decode: Bytes -> Option<Doc>, limit: nat, rest: Bytes, offset: nat, strict: bool): seq<Entry>
    decreases |rest|
  {
    match ReadFrame(decode, limit, rest, offset, strict)
    case End(_) => []
    case Next(kind, _, size) => [Entry(kind, rest[9..size])] + Parsed(decode, limit, rest[size..], offset + size, strict)
  }

  lemma ParsedOnce<Doc>(decode: Bytes -> Option<Doc>, limit: nat, rest: Bytes, offset: nat, strict: bool)
    ensures Parsed(decode, limit, rest, offset, strict) ==
            match ReadFrame(decode, limit, rest, offset, strict)
            case End(_) => []
            case Next(kind, _, size) => [Entry(kind, rest[9..size])] + Parsed(decode, limit, rest[size..], offset + size, strict)
  {
    hide ReadFrame;
  }

  /** `es` are the entries of whole frames at the start of `rest`, and the replay ends with `ending` behind them. */
  ghost predicate Framed<Doc>(decode: Bytes -> Option<Doc>, limit: nat, rest: Bytes, offset: nat, strict: bool,
                              es: seq<Entry>, ending: Ending)
  {
    && AllWritable(decode, limit, es) && |Frames(es)| <= |rest| && rest[..|Frames(es)|] == Frames(es)
    && ReadFrame(decode, limit, rest[|Frames(es)|..], offset + |Frames(es)|, strict) == End(ending)
  }

  lemma FramedStep<Doc>(decode: Bytes -> Option<Doc>, limit: nat, rest: Bytes, offset: nat, strict: bool, e: Entry,
                        es: seq<Entry>, ending: Ending)
    requires Writable(decode, limit, e) && |Frame(e)| <= |rest| && rest[..|Frame(e)|] == Frame(e)
    requires Framed(decode, limit, rest[|Frame(e)|..], offset + |Frame(e)|, strict, es, ending)
    ensures Framed(decode, limit, rest, offset, strict, [e] + es, ending)
  {
    hide ReadFrame, Frame;
    var more, all := rest[|Frame(e)|..], [e] + es;
    WritableStep(decode, limit, e, es);
    assert all[0] == e && all[1..] == es;
    assert Frames(all) == Frame(e) + Frames(es);
    assert more[|Frames(es)|..] == rest[|Frames(all)|..];
    assert rest[..|Frames(all)|] == rest[..|Frame(e)|] + more[..|Frames(es)|];
  }

  lemma WritableStep<Doc>(decode: Bytes -> Option<Doc>, limit: nat, e: Entry, es: seq<Entry>)
    requires Writable(decode, limit, e) && AllWritable(decode, limit, es)
    ensures AllWritable(decode, limit, [e] + es)
  {
    hide Writable;
  }

  lemma RecordsStep<Doc>(decode: Bytes -> Option<Doc>, limit: nat, e: Entry, es: seq<Entry>, offset: nat)
    requires Writable(decode, limit, e) && AllWritable(decode, limit, es) && AllWritable(decode, limit, [e] + es)
    ensures Records(decode, limit, [e] + es, offset) ==
            [WalRecord(offset, e.kind, decode(e.payload).value)] +
            Records(decode, limit, es, offset + FRAME_HEADER + |e.payload|)
  {
    hide AllWritable, KnownKind;
    var all := [e] + es;
    assert all[0] == e && all[1..] == es;
  }

  lemma FramedNone<Doc>(decode: Bytes -> Option<Doc>, limit: nat, rest: Bytes, offset: nat, strict: bool, ending: Ending)
    requires ReadFrame(decode, limit, rest, offset, strict) == End(ending)
    ensures Framed(decode, limit, rest, offset, strict, [], ending) && Records(decode, limit, [], offset) == []
  {
    hide ReadFrame;
    assert rest[0..] == rest && rest[..0] == [];
  }

  lemma FramedWritable<Doc>(decode: Bytes -> Option<Doc>, limit: nat, rest: Bytes, offset: nat, strict: bool,
                            es: seq<Entry>, ending: Ending)
    requires Framed(decode, limit, rest, offset, strict, es, ending)
    ensures AllWritable(decode, limit, es)
  {}

  /** What a scan yields is the records of frames that are there, and it stops right behind them. */
  lemma {:induction false} ScanIsParsed<Doc>(decode: Bytes -> Option<Doc>, limit: nat, rest: Bytes, offset: nat, strict: bool)
    ensures var es, out := Parsed(decode, limit, rest, offset, strict), Scan(decode, limit, rest, offset, strict);
            && AllWritable(decode, limit, es) && Framed(decode, limit, rest, offset, strict, es, out.ending)
            && out.records == Records(decode, limit, es, offset)
    decreases |rest|
  {
    hide ReadFrame, Frame, Framed, Parsed, Scan, Records, AllWritable, Writable;
    ParsedOnce(decode, limit, rest, offset, strict);
    ScanOnce(decode, limit, rest, offset, strict);
    match ReadFrame(decode, limit, rest, offset, strict) {
      case End(ending) =>
        FramedNone(decode, limit, rest, offset, strict, ending);
        FramedWritable(decode, limit, rest, offset, strict, [], ending);
      case Next(kind, doc, size) =>
        ReadIsFrame(decode, limit, rest, offset, strict);
        var e, more := Entry(kind, rest[9..size]), rest[size..];
        ScanIsParsed(decode, limit, more, offset + size, strict);
        var es, out := Parsed(decode, limit, more, offset + size, strict), Scan(decode, limit, more, offset + size, strict);
        EntrySize(decode, limit, e);
        FramedStep(decode, limit, rest, offset, strict, e, es, out.ending);
        WritableStep(decode, limit, e, es);
        RecordsStep(decode, limit, e, es, offset);
    }
  }

  lemma EntrySize<Doc>(decode: Bytes -> Option<Doc>, limit: nat, e: Entry)
    requires Writable(decode, limit, e)
    ensures |e.payload| < U32 && decode(e.payload).Some?
  {}

  /** An unfinished frame: part of a header, or a header of a known type and allowed length with part of its payload. */
  predicate Unfinished(limit: nat, tail: Bytes) {
    || |tail| < 9
    || ((tail[8] == 1 || tail[8] == 2 || tail[8] == 3) && UnpackLength(tail[..4]) <= limit && |tail| < 9 + UnpackLength(tail[..4]))
  }

  lemma EndsByItself<Doc>(decode: Bytes -> Option<Doc>, limit: nat, rest: Bytes, offset: nat, strict: bool)
    ensures ReadFrame(decode, limit, rest, offset, strict) == End(Finished) <==>
            rest == [] || (!strict && Unfinished(limit, rest))
    ensures rest != [] && Unfinished(limit, rest) ==> ReadFrame(decode, limit, rest, offset, true) == End(Corrupt(offset))
  {
    hide UnpackLength, UnpackCrc, Checksum;
  }

  ghost predicate MadeOf<Doc>(decode: Bytes -> Option<Doc>, limit: nat, bytes: Bytes, es: seq<Entry>, tail: Bytes) {
    AllWritable(decode, limit, es) && bytes == Frames(es) + tail
  }

  ghost predicate WellMade<Doc>(decode: Bytes -> Option<Doc>, limit: nat, bytes: Bytes, strict: bool) {
    exists es, tail :: MadeOf(decode, limit, bytes, es, tail) && (tail == [] || (!strict && Unfinished(limit, tail)))
  }

  lemma FinishedIsWellMade<Doc>(decode: Bytes -> Option<Doc>, limit: nat, rest: Bytes, offset: nat, strict: bool)
    requires Scan(decode, limit, rest, offset, strict).ending == Finished
    ensures WellMade(decode, limit, rest, strict)
  {
    hide Scan, ReadFrame, Frames, Unfinished, Parsed;
    ScanIsParsed(decode, limit, rest, offset, strict);
    var es := Parsed(decode, limit, rest, offset, strict);
    var tail := rest[|Frames(es)|..];
    assert rest == rest[..|Frames(es)|] + tail;
    assert MadeOf(decode, limit, rest, es, tail);
    EndsByItself(decode, limit, tail, offset + |Frames(es)|, strict);
  }

  lemma WellMadeFinishes<Doc>(decode: Bytes -> Option<Doc>, limit: nat, es: seq<Entry>, tail: Bytes, offset: nat, strict: bool)
    requires AllWritable(decode, limit, es) && (tail == [] || (!strict && Unfinished(limit, tail)))
    ensures Scan(decode, limit, Frames(es) + tail, offset, strict).ending == Finished
  {
    hide Scan, ReadFrame, Frames, Unfinished, Records;
    ScanFrames(decode, limit, es, tail, offset, strict);
    EndsByItself(decode, limit, tail, offset + |Frames(es)|, strict);
    ScanOnce(decode, limit, tail, offset + |Frames(es)|, strict);
  }

  /**
    Replay accepts exactly the well-formed files. On any bytes at all, a strict
    replay ends by itself if and only if they are a header and whole frames of
    writable entries; a lenient one also if the header is cut short, or if an
    unfinished frame follows the whole ones.
   */
  lemma ReplayAcceptsExactly<Doc>(decode: Bytes -> Option<Doc>, limit: nat, file: Bytes, strict: bool)
    ensures ReplayFile(decode, limit, file, strict).ending == Finished <==>
            if |file| < 8 then !strict
            else file[..5] == ['P' as int as bv8, 'Q' as int as bv8, 'W' as int as bv8, 'L' as int as bv8, 1] &&
                 WellMade(decode, limit, file[8..], strict)
  {
    hide Scan, WellMade;
    if |file| >= 8 {
      HeaderBytes(file);
      if ValidHeader(file) { ScanAcceptsExactly(decode, limit, file[8..], 8, strict); }
    }
  }

  lemma HeaderBytes(file: Bytes)
    requires |file| >= 8
    ensures ValidHeader(file) <==>
            file[..5] == ['P' as int as bv8, 'Q' as int as bv8, 'W' as int as bv8, 'L' as int as bv8, 1]
  {
    assert file[..5] == file[..4] + [file[4]];
    assert MAGIC[..4] == ['P' as int as bv8, 'Q' as int as bv8, 'W' as int as bv8, 'L' as int as bv8];
    assert file[..5][..4] == file[..4] && file[..5][4] == file[4];
  }

  lemma ScanAcceptsExactly<Doc>(decode: Bytes -> Option<Doc>, limit: nat, rest: Bytes, offset: nat, strict: bool)
    ensures Scan(decode, limit, rest, offset, strict).ending == Finished <==> WellMade(decode, limit, rest, strict)
  {
    hide Scan, Frames, Unfinished;
    if WellMade(decode, limit, rest, strict) {
      var es, tail :| MadeOf(decode, limit, rest, es, tail) && (tail == [] || (!strict && Unfinished(limit, tail)));
      WellMadeFinishes(decode, limit, es, tail, offset, strict);
    }
    if Scan(decode, limit, rest, offset, strict).ending == Finished {
      FinishedIsWellMade(decode, limit, rest, offset, strict);
    }
  }

  // ---------- Corruption ----------

  /** One changed byte of a frame, outside its length field. */
  function Damaged(e: Entry, i: nat, b: bv8): Bytes
    requires |e.payload| < U32 && i < |Frame(e)|
  {
    Frame(e)[i := b]
  }

  lemma ScanDamaged<Doc>(decode: Bytes -> Option<Doc>, limit: nat, e: Entry, i: nat, b: bv8, tail: Bytes, offset: nat,
                         strict: bool)
    requires Writable(decode, limit, e) && 4 <= i < |Frame(e)| && b != Frame(e)[i]
    ensures Scan(decode, limit, Damaged(e, i, b) + tail, offset, strict) == Stop(Corrupt(offset))
  {
    hide UnpackLength, UnpackCrc, Checksum, PackLength, PackCrc, Frame;
    var f, g := Frame(e), Damaged(e, i, b);
    var rest := g + tail;
    FrameFields(e);
    LengthRoundTrip(|e.payload|);
    CrcRoundTrip(Checksum(e));
    assert rest[..4] == f[..4];
    assert rest[4..8] == g[4..8] && rest[9..9 + |e.payload|] == g[9..];
    if i < 8 {
      assert g[4..8] != f[4..8] by { assert g[4..8][i - 4] == b && f[4..8][i - 4] == f[i]; }
      assert g[9..] == f[9..];
      if UnpackCrc(g[4..8]) == Checksum(e) { UnpackCrcInjective(g[4..8], f[4..8]); }
    } else {
      assert g[4..8] == f[4..8];
      DamagedBody(e, i, b);
    }
  }

  lemma DamagedBody(e: Entry, i: nat, b: bv8)
    requires |e.payload| < U32 && 8 <= i < |Frame(e)| && b != Frame(e)[i]
    ensures Checksum(Entry(Damaged(e, i, b)[8], Damaged(e, i, b)[9..])) != Checksum(e)
  {
    hide PackLength, PackCrc, Crc;
    var data := [e.kind] + e.payload;
    var f, g := Frame(e), Damaged(e, i, b);
    FrameFields(e);
    assert f[8..] == data;
    assert [g[8]] + g[9..] == g[8..] == data[i - 8 := b];
    SingleByteChangeDetected(data, i - 8, b);
  }

  /**
    Damage to any one byte of a frame's checksum, type or payload makes the replay
    raise at that frame, after yielding the records before it, in both modes.
   */
  lemma SingleByteDamageDetected<Doc>(decode: Bytes -> Option<Doc>, limit: nat, before: seq<Entry>, e: Entry, i: nat,
                                      b: bv8, tail: Bytes, strict: bool)
    requires AllWritable(decode, limit, before) && Writable(decode, limit, e)
    requires 4 <= i < |Frame(e)| && b != Frame(e)[i]
    ensures ReplayFile(decode, limit, FileOf(before) + Damaged(e, i, b) + tail, strict) ==
            Replayed(Records(decode, limit, before, 8), Corrupt(8 + |Frames(before)|))
  {
    hide Scan, Frame, Frames, Damaged;
    var file := FileOf(before) + Damaged(e, i, b) + tail;
    assert file[8..] == Frames(before) + (Damaged(e, i, b) + tail);
    assert file[..4] == MAGIC[..4] && file[4] == 1;
    ScanFrames(decode, limit, before, Damaged(e, i, b) + tail, 8, strict);
    ScanDamaged(decode, limit, e, i, b, tail, 8 + |Frames(before)|, strict);
    assert Records(decode, limit, before, 8) + [] == Records(decode, limit, before, 8);
  }

  // ---------- The log object ----------

  lemma {:induction false} FramesAppend(es: seq<Entry>, e: Entry)
    requires forall i | 0 <= i < |es| :: |es[i].payload| < U32
    requires |e.payload| < U32
    ensures Frames(es + [e]) == Frames(es) + Frame(e)
    decreases |es|
  {
    hide Frame;
    if es == [] {
      assert [e][1..] == [] && [] + [e] == [e];
    } else {
      var rest := es[1..];
      assert (es + [e])[1..] == rest + [e];
      FramesAppend(rest, e);
      assert Frame(es[0]) + (Frames(rest) + Frame(e)) == Frame(es[0]) + Frames(rest) + Frame(e);
    }
  }

  /** Appending a frame to the file of `es` gives the file of the longer list. */
  lemma AppendExtends(es: seq<Entry>, e: Entry)
    requires forall i | 0 <= i < |es| :: |es[i].payload| < U32
    requires |e.payload| < U32
    ensures FileOf(es + [e]) == FileOf(es) + Frame(e)
  {
    hide Frame, Frames;
    FramesAppend(es, e);
    assert MAGIC + (Frames(es) + Frame(e)) == MAGIC + Frames(es) + Frame(e);
  }

  /** The replay has yielded `records` and stands at `offset`. */
  ghost predicate SoFar<Doc>(decode: Bytes -> Option<Doc>, limit: nat, file: Bytes, offset: nat, strict: bool,
                             records: seq<WalRecord<Doc>>, all: Replayed<Doc>)
    requires offset <= |file|
  {
    var rest := Scan(decode, limit, file[offset..], offset, strict);
    all == Replayed(records + rest.records, rest.ending)
  }

  /** One turn of the replay loop: it ends with the whole result, or moves on behind a frame. */
  lemma LoopStep<Doc>(decode: Bytes -> Option<Doc>, limit: nat, file: Bytes, offset: nat, strict: bool,
                      records: seq<WalRecord<Doc>>, all: Replayed<Doc>)
    requires offset <= |file| && SoFar(decode, limit, file, offset, strict, records, all)
    ensures match ReadFrame(decode, limit, file[offset..], offset, strict)
            case End(ending) => all == Replayed(records, ending)
            case Next(kind, doc, size) =>
              SoFar(decode, limit, file, offset + size, strict, records + [WalRecord(offset, kind, doc)], all)
  {
    hide ReadFrame, Scan;
    var rest := file[offset..];
    ScanOnce(decode, limit, rest, offset, strict);
    match ReadFrame(decode, limit, rest, offset, strict) {
      case End(ending) => assert records + [] == records;
      case Next(kind, doc, size) =>
        assert rest[size..] == file[offset + size..];
        var r, more := WalRecord(offset, kind, doc), Scan(decode, limit, rest[size..], offset + size, strict);
        assert records + ([r] + more.records) == records + [r] + more.records;
    }
  }

  lemma ScanOnce<Doc>(decode: Bytes -> Option<Doc>, limit: nat, rest: Bytes, offset: nat, strict: bool)
    ensures Scan(decode, limit, rest, offset, strict) ==
            match ReadFrame(decode, limit, rest, offset, strict)
            case End(ending) => Stop(ending)
            case Next(kind, doc, size) =>
              Follow(WalRecord(offset, kind, doc), Scan(decode, limit, rest[size..], offset + size, strict))
  {
    hide ReadFrame;
  }

  /** `WriteAheadLog`: the bytes of its file, and whether the file is open. */
  class WriteAheadLog<Doc(!new)> {
    const codec: Codec<Doc>
    const maxRecordBytes: nat
    var file: Bytes
    var isOpen: bool

    /** Opening an absent or empty file writes the header; a foreign file is refused. */
    constructor (codec: Codec<Doc>, maxRecordBytes: nat, contents: Bytes)
      ensures this.codec == codec && this.maxRecordBytes == maxRecordBytes
      ensures file == if contents == [] then MAGIC else contents
      ensures isOpen <==> ValidHeader(file)
      ensures contents == [] ==> isOpen
    {
      this.codec, this.maxRecordBytes := codec, maxRecordBytes;
      var bytes := if contents == [] then MAGIC else contents;
      file := bytes;
      isOpen := |bytes| >= 8 && bytes[..4] == MAGIC[..4] && bytes[4] == 1;
    }

    /** `append`: the offset of the new frame, or a refusal that leaves the file alone. */
    method Append(kind: bv8, doc: Doc) returns (offset: Option<nat>)
      modifies this`file
      ensures offset.Some? <==>
              isOpen && KnownKind(kind) && codec.encode(doc).Some? &&
              |codec.encode(doc).value| <= maxRecordBytes && |codec.encode(doc).value| < U32
      ensures offset.Some? ==>
              offset.value == |old(file)| && file == old(file) + Frame(Entry(kind, codec.encode(doc).value))
      ensures offset.None? ==> file == old(file)
    {
      if !isOpen || !KnownKind(kind) { return None; }
      var bytes := codec.encode(doc);
      if bytes.None? || |bytes.value| > maxRecordBytes || |bytes.value| >= U32 { return None; }
      var crc := Crc([kind] + bytes.value);
      var header := PackLength(|bytes.value|) + PackCrc(crc) + [kind];
      offset := Some(|file|);
      file := file + header;
      file := file + bytes.value;
      assert file == old(file) + (header + bytes.value);
    }

    /** The body of the replay loop at one offset. */
    method ReadAt(offset: nat, strict: bool) returns (r: Reading<Doc>)
      requires offset <= |file|
      ensures r == ReadFrame(codec.decode, maxRecordBytes, file[offset..], offset, strict)
    {
      hide UnpackLength, UnpackCrc, Checksum;
      ghost var rest := file[offset..];
      if offset == |file| { return End(Finished); }
      if |file| - offset < FRAME_HEADER { return End(Torn(strict, offset)); }
      assert file[offset..offset + 4] == rest[..4] && file[offset + 4..offset + 8] == rest[4..8];
      var length, crc := UnpackLength(file[offset..offset + 4]), UnpackCrc(file[offset + 4..offset + 8]);
      var kind := file[offset + 8];
      if !KnownKind(kind) { return End(Corrupt(offset)); }
      if length > maxRecordBytes { return End(Corrupt(offset)); }
      if |file| - offset < FRAME_HEADER + length { return End(Torn(strict, offset)); }
      var payload := file[offset + 9..offset + 9 + length];
      assert payload == rest[9..9 + length];
      if Checksum(Entry(kind, payload)) != crc { return End(Corrupt(offset)); }
      var doc := codec.decode(payload);
      if doc.None? { return End(Corrupt(offset)); }
      return Next(kind, doc.value, FRAME_HEADER + length);
    }

    /** `replay`: the loop over a moving offset computes the scan of the whole file. */
    method Replay(strict: bool) returns (out: Replayed<Doc>)
      ensures out == ReplayFile(codec.decode, maxRecordBytes, file, strict)
    {
      hide ReadFrame, Scan, Follow;
      if |file| < 8 { return Stop(Torn(strict, 0)); }
      if !ValidHeader(file) { return Stop(Corrupt(0)); }
      ghost var all := ReplayFile(codec.decode, maxRecordBytes, file, strict);
      var records: seq<WalRecord<Doc>> := [];
      var offset := 8;
      assert [] + all.records == all.records;
      while true
        invariant 8 <= offset <= |file|
        invariant SoFar(codec.decode, maxRecordBytes, file, offset, strict, records, all)
        decreases |file| - offset
      {
        var reading := ReadAt(offset, strict);
        LoopStep(codec.decode, maxRecordBytes, file, offset, strict, records, all);
        match reading {
          case End(ending) => return Replayed(records, ending);
          case Next(kind, doc, size) =>
            records := records + [WalRecord(offset, kind, doc)];
            offset := offset + size;
        }
      }
    }

    /** `checkpoint`: one atomic replacement of the whole file by a single checkpoint frame. */
    method Checkpoint(doc: Doc) returns (done: bool)
      modifies this
      ensures done <==> codec.encode(doc).Some? &&
                        |codec.encode(doc).value| <= maxRecordBytes && |codec.encode(doc).value| < U32
      ensures done ==> isOpen && file == FileOf([Entry(RECORD_CHECKPOINT, codec.encode(doc).value)])
      ensures !done ==> file == old(file) && isOpen == old(isOpen)
    {
      var bytes := codec.encode(doc);
      if bytes.None? || |bytes.value| > maxRecordBytes || |bytes.value| >= U32 { return false; }
      var e := Entry(RECORD_CHECKPOINT, bytes.value);
      file := MAGIC + PackLength(|bytes.value|) + PackCrc(Checksum(e)) + [RECORD_CHECKPOINT] + bytes.value;
      isOpen := true;
      assert [e][1..] == [];
      assert file == MAGIC + Frame(e) == MAGIC + Frames([e]);
      return true;
    }

    method Close()
      modifies this`isOpen
      ensures !isOpen
    {
      isOpen := false;
    }
  }
}
