/**
  From the bytes of the log file back to the node: the documents of log entries,
  recovery over documents, and recovery from a whole or a cut file.
 */
module Recovery {
  import opened Orders
  import opened Octets
  import opened VectorClocks
  import opened Consensus
  import opened NodeSpec
  import opened RecordCodec
  import opened Wal

  /** The JSON objects the node logs. Snapshot items are in file order. */
  datatype LogDoc =
    | TaskDoc(doc: Document)
    | CountersDoc(counters: map<string, Value>)
    | SnapshotDoc(items: seq<(TaskId, Document)>, snapshotCounters: map<string, Value>)

  function Kind(d: LogDoc): bv8 {
    match d
    case TaskDoc(_) => RECORD_TASK
    case CountersDoc(_) => RECORD_CLOCK
    case SnapshotDoc(_, _) => RECORD_CHECKPOINT
  }

  function ItemDocs(items: seq<(TaskId, TaskRecord)>): (docs: seq<(TaskId, Document)>)
    ensures |docs| == |items|
    ensures forall i | 0 <= i < |items| :: docs[i] == (items[i].0, ToDict(items[i].1))
  {
    seq(|items|, i requires 0 <= i < |items| => (items[i].0, ToDict(items[i].1)))
  }

  function EntryDoc(e: LogEntry): LogDoc {
    match e
    case TaskEntry(r) => TaskDoc(ToDict(r))
    case ClockEntry(c) => CountersDoc(ClockDoc(c))
    case CheckpointEntry(items, c) => SnapshotDoc(ItemDocs(items), ClockDoc(c))
  }

  // ---------- Recovery over documents ----------

  predicate IntegerCounters(m: map<string, Value>) { forall p | p in m :: m[p].Int? }

  function MergeCounters(c: Clock, m: map<string, Value>): Clock {
    if IntegerCounters(m) then Merge(c, ParseClock(m)) else c
  }

  function AbsorbDoc(maxTasks: nat, tasks: map<TaskId, TaskRecord>, id: TaskId, r: Option<TaskRecord>)
    : map<TaskId, TaskRecord>
  {
    if r.None? then tasks else Absorb(maxTasks, tasks, id, r.value)
  }

  function AbsorbDocs(maxTasks: nat, tasks: map<TaskId, TaskRecord>, items: seq<(TaskId, Document)>)
    : map<TaskId, TaskRecord>
  {
    if items == [] then tasks
    else
      var last := items[|items| - 1];
      AbsorbDoc(maxTasks, AbsorbDocs(maxTasks, tasks, items[..|items| - 1]), last.0, FromDict(last.1))
  }

  /** One logged document: malformed records are skipped, the rest are merged in. */
  function RecoverDoc(maxTasks: nat, s: Replica, d: LogDoc): Replica {
    match d
    case TaskDoc(doc) =>
      var r := FromDict(doc);
      if r.None? then s else s.(tasks := Absorb(maxTasks, s.tasks, r.value.taskId, r.value))
    case CountersDoc(m) => s.(clock := MergeCounters(s.clock, m))
    case SnapshotDoc(items, m) => Replica(AbsorbDocs(maxTasks, s.tasks, items), MergeCounters(s.clock, m))
  }

  /** `_recover_from_wal` over the records a replay yields. */
  function RecoverRecords(maxTasks: nat, s: Replica, records: seq<WalRecord<LogDoc>>): Replica {
    if records == [] then s
    else
      var last := records[|records| - 1];
      var before := RecoverRecords(maxTasks, s, records[..|records| - 1]);
      if last.kind == Kind(last.doc) then RecoverDoc(maxTasks, before, last.doc) else before
  }

  predicate Storable(e: LogEntry) {
    match e
    case TaskEntry(r) => WellFormed(r)
    case ClockEntry(_) => true
    case CheckpointEntry(items, _) => forall i | 0 <= i < |items| :: WellFormed(items[i].1)
  }

  lemma MergeClockDoc(c: Clock, d: Clock)
    ensures MergeCounters(c, ClockDoc(d)) == Merge(c, d)
  {
    ClockRoundTrip(d);
  }

  lemma {:induction false} AbsorbItemDocs(maxTasks: nat, tasks: map<TaskId, TaskRecord>, items: seq<(TaskId, TaskRecord)>)
    requires forall i | 0 <= i < |items| :: WellFormed(items[i].1)
    ensures AbsorbDocs(maxTasks, tasks, ItemDocs(items)) == AbsorbAll(maxTasks, tasks, items)
  {
    hide ToDict, FromDict, WellFormed, Absorb;
    if items != [] {
      var k := |items| - 1;
      assert ItemDocs(items)[..k] == ItemDocs(items[..k]);
      AbsorbItemDocs(maxTasks, tasks, items[..k]);
      RecordRoundTrip(items[k].1);
    }
  }

  /** Reading back a storable entry's document has the effect of the entry. */
  lemma RecoverEntryDoc(maxTasks: nat, s: Replica, e: LogEntry)
    requires Storable(e)
    ensures RecoverDoc(maxTasks, s, EntryDoc(e)) == ReplayEntry(maxTasks, s, e)
  {
    hide ToDict, FromDict, WellFormed, Absorb, AbsorbDocs, AbsorbAll, MergeCounters, Merge, ItemDocs, ClockDoc;
    match e {
      case TaskEntry(r) => RecordRoundTrip(r);
      case ClockEntry(c) => MergeClockDoc(s.clock, c);
      case CheckpointEntry(items, c) =>
        AbsorbItemDocs(maxTasks, s.tasks, items);
        MergeClockDoc(s.clock, c);
    }
  }

  // ---------- Recovery from bytes ----------

  predicate Fits(codec: Codec<LogDoc>, limit: nat, e: LogEntry) {
    codec.encode(EntryDoc(e)).Some? && |codec.encode(EntryDoc(e)).value| <= limit
  }

  function FrameOf(codec: Codec<LogDoc>, limit: nat, e: LogEntry): (f: Entry)
    requires Fits(codec, limit, e)
    ensures |f.payload| <= limit
  {
    Entry(Kind(EntryDoc(e)), codec.encode(EntryDoc(e)).value)
  }

  /** The frames the node appended, one per log entry. */
  function LogFrames(codec: Codec<LogDoc>, limit: nat, log: seq<LogEntry>): (es: seq<Entry>)
    requires limit < U32 && forall e | e in log :: Fits(codec, limit, e)
    ensures |es| == |log|
    ensures forall i | 0 <= i < |log| :: es[i] == FrameOf(codec, limit, log[i]) && |es[i].payload| < U32
  {
    seq(|log|, i requires 0 <= i < |log| => FrameOf(codec, limit, log[i]))
  }

  lemma FramesWritable(codec: Codec<LogDoc>, limit: nat, log: seq<LogEntry>)
    requires Inverse(codec) && limit < U32 && forall e | e in log :: Fits(codec, limit, e)
    ensures AllWritable(codec.decode, limit, LogFrames(codec, limit, log))
  {
    hide EntryDoc;
    var es := LogFrames(codec, limit, log);
    forall i | 0 <= i < |es| ensures Writable(codec.decode, limit, es[i]) {
      assert Fits(codec, limit, log[i]);
      assert codec.decode(codec.encode(EntryDoc(log[i])).value) == Some(EntryDoc(log[i]));
    }
  }

  lemma {:induction false} RecoverYielded(codec: Codec<LogDoc>, limit: nat, maxTasks: nat, log: seq<LogEntry>,
                                          records: seq<WalRecord<LogDoc>>)
    requires forall e | e in log :: Storable(e)
    requires |records| == |log|
    requires forall i | 0 <= i < |log| :: records[i].doc == EntryDoc(log[i]) && records[i].kind == Kind(EntryDoc(log[i]))
    ensures RecoverRecords(maxTasks, EMPTY, records) == Replay(maxTasks, EMPTY, log)
  {
    hide EntryDoc, RecoverDoc, ReplayEntry, Storable;
    if log != [] {
      var k := |log| - 1;
      RecoverYielded(codec, limit, maxTasks, log[..k], records[..k]);
      RecoverEntryDoc(maxTasks, Replay(maxTasks, EMPTY, log[..k]), log[k]);
    }
  }

  /**
    Recovery from a log file cut at any byte is recovery from a prefix of the
    log's entries: those whose frames lie wholly before the cut. A file cut inside
    its header replays to nothing, and the log object refuses to open it unless it
    is empty.
   */
  lemma CutFileRecoversPrefix(codec: Codec<LogDoc>, limit: nat, maxTasks: nat, log: seq<LogEntry>, cut: nat)
    requires Inverse(codec) && limit < U32 && forall e | e in log :: Fits(codec, limit, e)
    requires forall e | e in log :: Storable(e)
    requires cut <= |FileOf(LogFrames(codec, limit, log))|
    ensures var es := LogFrames(codec, limit, log);
            var k := if cut < 8 then 0 else Whole(es, cut - 8);
            var out := ReplayFile(codec.decode, limit, FileOf(es)[..cut], false);
            out.ending == Finished && RecoverRecords(maxTasks, EMPTY, out.records) == Replay(maxTasks, EMPTY, log[..k])
    ensures ValidHeader(FileOf(LogFrames(codec, limit, log))[..cut]) <==> cut >= 8
    ensures cut == |FileOf(LogFrames(codec, limit, log))| ==>
            RecoverRecords(maxTasks, EMPTY,
                           ReplayFile(codec.decode, limit, FileOf(LogFrames(codec, limit, log))[..cut], false).records)
            == Replay(maxTasks, EMPTY, log)
  {
    hide EntryDoc, Scan, ReplayFile, FileOf, Storable, RecoverRecords, Replay, Frames, Whole;
    var es := LogFrames(codec, limit, log);
    var k := if cut < 8 then 0 else Whole(es, cut - 8);
    FramesWritable(codec, limit, log);
    TornTail(codec.decode, limit, es, cut);
    if cut >= 8 { CutFile(es, cut); }
    var records := Records(codec.decode, limit, es[..k], 8);
    YieldedAreEntries(codec, limit, log, k);
    RecoverYielded(codec, limit, maxTasks, log[..k], records);
    if cut == |FileOf(es)| {
      WholeFile(es);
      assert log[..|log|] == log;
    }
  }

  lemma WholeFile(es: seq<Entry>)
    requires forall i | 0 <= i < |es| :: |es[i].payload| < U32
    ensures |FileOf(es)| >= 8 && Whole(es, |FileOf(es)| - 8) == |es|
  {
    hide Frames, Whole;
    assert es[..|es|] == es;
    WholeIsMaximal(es, |Frames(es)|, |es|);
    assert |FileOf(es)| - 8 == |Frames(es)|;
  }

  lemma YieldedAreEntries(codec: Codec<LogDoc>, limit: nat, log: seq<LogEntry>, k: nat)
    requires Inverse(codec) && k <= |log| && limit < U32 && forall e | e in log :: Fits(codec, limit, e)
    requires AllWritable(codec.decode, limit, LogFrames(codec, limit, log))
    ensures var records := Records(codec.decode, limit, LogFrames(codec, limit, log)[..k], 8);
            forall i | 0 <= i < k :: records[i].doc == EntryDoc(log[i]) && records[i].kind == Kind(EntryDoc(log[i]))
  {
    hide EntryDoc;
    var es := LogFrames(codec, limit, log);
    var records := Records(codec.decode, limit, es[..k], 8);
    forall i | 0 <= i < k ensures records[i].doc == EntryDoc(log[i]) && records[i].kind == Kind(EntryDoc(log[i])) {
      assert es[..k][i] == es[i];
      assert Fits(codec, limit, log[i]);
      assert codec.decode(codec.encode(EntryDoc(log[i])).value) == Some(EntryDoc(log[i]));
    }
  }
}
