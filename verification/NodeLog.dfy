/**
  A node's log as an object: the write-ahead log of peerq/wal.py holding the
  entries a node appends (`append_task`, `append_clock`, `checkpoint`), with the
  bytes of its file tied to the list of entries.
 */
module NodeLogs {
  import opened Orders
  import opened Octets
  import opened VectorClocks
  import opened Consensus
  import opened NodeSpec
  import opened Mesh
  import opened MeshInvariant
  import opened RecordCodec
  import opened Wal
  import opened Recovery
  import opened Durability

  ghost predicate AllFit(codec: Codec<LogDoc>, limit: nat, log: seq<LogEntry>) {
    forall e | e in log :: Fits(codec, limit, e)
  }

  lemma FramesOfLonger(codec: Codec<LogDoc>, limit: nat, log: seq<LogEntry>, e: LogEntry)
    requires limit < U32 && AllFit(codec, limit, log) && Fits(codec, limit, e)
    ensures AllFit(codec, limit, log + [e])
    ensures FileOf(LogFrames(codec, limit, log + [e])) ==
            FileOf(LogFrames(codec, limit, log)) + Frame(FrameOf(codec, limit, e))
  {
    hide Fits, FileOf, Frame, EntryDoc;
    assert LogFrames(codec, limit, log + [e]) == LogFrames(codec, limit, log) + [FrameOf(codec, limit, e)];
    AppendExtends(LogFrames(codec, limit, log), FrameOf(codec, limit, e));
  }

  class NodeLog {
    const wal: WriteAheadLog<LogDoc>
    ghost var entries: seq<LogEntry>

    /** The file is exactly the header and the frames of the entries. */
    ghost predicate Valid() reads this, wal {
      && wal.isOpen && wal.maxRecordBytes < U32
      && AllFit(wal.codec, wal.maxRecordBytes, entries)
      && wal.file == FileOf(LogFrames(wal.codec, wal.maxRecordBytes, entries))
    }

    /** A log on a new file. */
    constructor (codec: Codec<LogDoc>, maxRecordBytes: nat)
      requires maxRecordBytes < U32
      ensures Valid() && fresh(wal) && entries == []
      ensures wal.codec == codec && wal.maxRecordBytes == maxRecordBytes
    {
      wal := new WriteAheadLog<LogDoc>(codec, maxRecordBytes, []);
      entries := [];
      new;
      assert wal.file == MAGIC + [];
    }

    /** `append` of an entry's document: it fits and goes to the end, or nothing changes. */
    method AppendEntry(e: LogEntry) returns (ok: bool)
      requires Valid()
      modifies this`entries, wal
      ensures Valid() && ok == Fits(wal.codec, wal.maxRecordBytes, e)
      ensures entries == if ok then old(entries) + [e] else old(entries)
      ensures !ok ==> wal.file == old(wal.file)
    {
      hide EntryDoc, FileOf, Frame, AllFit;
      var offset := wal.Append(Kind(EntryDoc(e)), EntryDoc(e));
      KindKnown(EntryDoc(e));
      if offset.None? { return false; }
      FramesOfLonger(wal.codec, wal.maxRecordBytes, entries, e);
      entries := entries + [e];
      return true;
    }

    /** `append_task` then `append_clock`, as every logged step of a node does. */
    method AppendPair(record: TaskRecord, clock: Clock) returns (ok: bool)
      requires Valid()
      modifies this`entries, wal
      ensures Valid()
      ensures ok <==> Fits(wal.codec, wal.maxRecordBytes, TaskEntry(record)) &&
                      Fits(wal.codec, wal.maxRecordBytes, ClockEntry(clock))
      ensures ok ==> entries == old(entries) + [TaskEntry(record), ClockEntry(clock)]
    {
      hide Fits, FileOf, AllFit;
      ok := AppendEntry(TaskEntry(record));
      if ok {
        ok := AppendEntry(ClockEntry(clock));
        assert old(entries) + [TaskEntry(record)] + [ClockEntry(clock)] ==
               old(entries) + [TaskEntry(record), ClockEntry(clock)];
      }
    }

    /** `checkpoint`: the snapshot becomes the only entry, or nothing changes. */
    method WriteCheckpoint(items: seq<(TaskId, TaskRecord)>, clock: Clock) returns (ok: bool)
      requires Valid()
      modifies this`entries, wal
      ensures Valid() && ok == Fits(wal.codec, wal.maxRecordBytes, CheckpointEntry(items, clock))
      ensures entries == if ok then [CheckpointEntry(items, clock)] else old(entries)
    {
      hide FileOf, Frame;
      var e := CheckpointEntry(items, clock);
      ok := wal.Checkpoint(EntryDoc(e));
      if ok {
        entries := [e];
        assert LogFrames(wal.codec, wal.maxRecordBytes, [e]) == [FrameOf(wal.codec, wal.maxRecordBytes, e)];
      }
    }

    /** What one step of a node writes to its log. */
    method PersistStep(c: Config, n: NodeState, now: real, a: Action) returns (ok: bool)
      requires Valid() && entries == n.log
      modifies this`entries, wal
      ensures Valid()
      ensures ok ==> entries == NodeStep(c, n, now, a).log
      ensures ok <==> AllFit(wal.codec, wal.maxRecordBytes, NodeStep(c, n, now, a).log)
    {
      hide Fits, FileOf, Enumerates, Logged, NodeStep;
      if a.Checkpointing? {
        CheckpointLog(c, n, now, a);
        if !Enumerates(a.items, n.tasks) { return true; }
        ok := WriteCheckpoint(a.items, n.clock);
      } else {
        StepLogs(c, n, now, a);
        var r := Logged(c, n, now, a);
        if r.None? { return true; }
        if a.Tearing? {
          FitOne(wal.codec, wal.maxRecordBytes, n.log, TaskEntry(r.value));
          ok := AppendEntry(TaskEntry(r.value));
          return ok;
        }
        var clock := NodeStep(c, n, now, a).clock;
        ok := AppendPair(r.value, clock);
        FitPair(wal.codec, wal.maxRecordBytes, n.log, TaskEntry(r.value), ClockEntry(clock));
      }
    }

    /** Everything a node writes to its log over a run: the object holds exactly the node's log. */
    method PersistRun(S: Setup, steps: seq<Step>, p: PeerId) returns (ok: bool)
      requires Valid() && entries == [] && ValidSetup(S) && p in S.peers
      modifies this`entries, wal
      ensures Valid() && p in Run(S, steps).nodes
      ensures ok ==> entries == Run(S, steps).nodes[p].log
      ensures !ok ==> exists k :: TooLarge(wal.codec, wal.maxRecordBytes, S, steps, p, k)
    {
      hide Run, AllFit, FileOf, Apply;
      NodeOf(S, steps, p);
      InitialLog(S, steps, p);
      var i := 0;
      while i < |steps|
        invariant 0 <= i <= |steps| && Valid()
        invariant p in Run(S, steps[..i]).nodes && entries == Run(S, steps[..i]).nodes[p].log
      {
        var m, s := Run(S, steps[..i]), steps[i];
        LogAfter(S, steps, i, p);
        NodeOf(S, steps[..i + 1], p);
        if s.At? && s.p == p && Allowed(m.network, m.nodes[p], s.action) {
          ok := PersistStep(S.peers[p], m.nodes[p], m.now, s.action);
          if !ok {
            assert TooLarge(wal.codec, wal.maxRecordBytes, S, steps, p, i + 1);
            return false;
          }
        }
        i := i + 1;
      }
      assert steps[..i] == steps;
      return true;
    }

    /** `_recover_from_wal`: replay the file and merge what it yields. */
    method Recover(maxTasks: nat) returns (s: Replica)
      requires Valid() && Inverse(wal.codec) && forall e | e in entries :: Storable(e)
      ensures s == Replay(maxTasks, EMPTY, entries)
    {
      hide FileOf, ReplayFile, AllFit, Replay, RecoverDoc, Storable, Fits, Frames;
      var out := wal.Replay(false);
      ghost var size := |wal.file|;
      assert wal.file[..size] == wal.file;
      CutFileRecoversPrefix(wal.codec, wal.maxRecordBytes, maxTasks, entries, size) by { FitEach(); }
      s := EMPTY;
      var i := 0;
      while i < |out.records|
        invariant 0 <= i <= |out.records| && s == RecoverRecords(maxTasks, EMPTY, out.records[..i])
      {
        var record := out.records[i];
        assert out.records[..i + 1][..i] == out.records[..i];
        if record.kind == Kind(record.doc) { s := RecoverDoc(maxTasks, s, record.doc); }
        i := i + 1;
      }
      assert out.records[..i] == out.records;
    }

    lemma FitEach()
      requires AllFit(wal.codec, wal.maxRecordBytes, entries)
      ensures forall e | e in entries :: Fits(wal.codec, wal.maxRecordBytes, e)
    {}
  }

  /** After `k` steps of the run, the node has logged something that does not fit. */
  ghost predicate TooLarge(codec: Codec<LogDoc>, limit: nat, S: Setup, steps: seq<Step>, p: PeerId, k: nat) {
    k <= |steps| && p in Run(S, steps[..k]).nodes && !AllFit(codec, limit, Run(S, steps[..k]).nodes[p].log)
  }

  lemma NodeOf(S: Setup, steps: seq<Step>, p: PeerId)
    requires ValidSetup(S) && p in S.peers
    ensures p in Run(S, steps).nodes
  {
    hide Run, NodeOk, HistoryOk;
    InvAlways(S, steps);
  }

  lemma InitialLog(S: Setup, steps: seq<Step>, p: PeerId)
    requires p in S.peers
    ensures p in Run(S, steps[..0]).nodes && Run(S, steps[..0]).nodes[p].log == []
  {
    assert steps[..0] == [];
  }

  lemma LogAfter(S: Setup, steps: seq<Step>, i: nat, p: PeerId)
    requires i < |steps| && p in S.peers && p in Run(S, steps[..i]).nodes
    ensures var m, s := Run(S, steps[..i]), steps[i];
            && p in Run(S, steps[..i + 1]).nodes
            && Run(S, steps[..i + 1]).nodes[p].log ==
               if s.At? && s.p == p && Allowed(m.network, m.nodes[p], s.action)
               then NodeStep(S.peers[p], m.nodes[p], m.now, s.action).log else m.nodes[p].log
  {
    hide NodeStep, Sent, Recorded, Allowed;
    assert steps[..i + 1][..i] == steps[..i];
  }

  lemma KindKnown(d: LogDoc)
    ensures KnownKind(Kind(d))
  {}

  lemma CheckpointLog(c: Config, n: NodeState, now: real, a: Action)
    requires a.Checkpointing?
    ensures NodeStep(c, n, now, a).log == if Enumerates(a.items, n.tasks) then [CheckpointEntry(a.items, n.clock)] else n.log
  {
    hide Enumerates;
  }

  lemma FitOne(codec: Codec<LogDoc>, limit: nat, log: seq<LogEntry>, e: LogEntry)
    requires AllFit(codec, limit, log)
    ensures AllFit(codec, limit, log + [e]) <==> Fits(codec, limit, e)
  {
    hide Fits;
    assert (log + [e])[|log|] == e;
  }

  lemma FitPair(codec: Codec<LogDoc>, limit: nat, log: seq<LogEntry>, e: LogEntry, f: LogEntry)
    requires AllFit(codec, limit, log)
    ensures AllFit(codec, limit, log + [e, f]) <==> Fits(codec, limit, e) && Fits(codec, limit, f)
  {
    hide Fits;
    var longer := log + [e, f];
    assert longer[|log|] == e && longer[|log| + 1] == f;
  }

  /**
    The loop is closed: a log object that holds what a node logged, after any step of
    any run, recovers the node's live state from the bytes of its file.
   */
  lemma LogObjectRebuildsLiveState(S: Setup, steps: seq<Step>, p: PeerId, log: NodeLog)
    requires ValidSetup(S) && p in S.peers && p in Run(S, steps).nodes
    requires log.Valid() && Inverse(log.wal.codec) && log.entries == Run(S, steps).nodes[p].log
    ensures forall e | e in log.entries :: Storable(e)
    ensures var n := Run(S, steps).nodes[p];
            var out := ReplayFile(log.wal.codec.decode, log.wal.maxRecordBytes, log.wal.file, false);
            out.ending == Finished &&
            Rebuilds(RecoverRecords(S.peers[p].maxTasks, EMPTY, out.records), n.tasks, n.clock)
  {
    hide Run, Fits, RecoverRecords, ReplayFile, FileOf, Storable, Rebuilds;
    LogsAreStorable(S, steps, p);
    FileRebuildsLiveState(S, steps, p, log.wal.codec, log.wal.maxRecordBytes);
  }
}
