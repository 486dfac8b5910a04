/** Crash recovery from the bytes on disk, after every step of every run. */
module Durability {
  import opened Orders
  import opened Octets
  import opened VectorClocks
  import opened Consensus
  import opened NodeSpec
  import opened Mesh
  import opened MeshInvariant
  import opened MeshTheorems
  import opened RecordCodec
  import opened Wal
  import opened Recovery

  // ---------- Every record of a run is well formed ----------

  lemma PeerClockOk(S: Setup, c: Clock)
    requires ValidSetup(S) && c.Keys <= S.peers.Keys
    ensures ClockOk(c)
  {
    SubsetSize(c.Keys, S.peers.Keys);
    assert |c| == |c.Keys| && |S.peers| == |S.peers.Keys|;
  }

  lemma ExplainedWellFormed(S: Setup, i: map<TokenKey, Origin>, r: TaskRecord)
    requires ValidSetup(S) && HistoryOk(S, i) && Explained(S, i, r)
    ensures WellFormed(r)
  {
    hide ClockOk;
    PeerClockOk(S, r.clock);
    if r.token.epoch > 0 {
      assert r.token.peer in S.peers && OriginBounded(i[Key1(r)]);
    }
  }

  /** The record a step appends to the log, if any. */
  function Logged(c: Config, n: NodeState, now: real, a: Action): Option<TaskRecord> {
    match a
    case Receiving(r) =>
      if ReceiveAccepted(c, n, r.taskId, r)
      then Some(if r.taskId in n.tasks then Join(n.tasks[r.taskId], r) else r) else None
    case Tearing(w) => OwnWrite(c, n, now, w)
    case _ => OwnWrite(c, n, now, a)
  }

  /** A step logs its record and then the clock; a torn one only the record. */
  lemma StepLogs(c: Config, n: NodeState, now: real, a: Action)
    requires !a.Checkpointing?
    ensures var r, n' := Logged(c, n, now, a), NodeStep(c, n, now, a);
            n'.log == if r.None? then n.log
                      else if a.Tearing? then n.log + [TaskEntry(r.value)]
                      else n.log + [TaskEntry(r.value), ClockEntry(n'.clock)]
  {
    hide Join, ClaimRecord, CommitRecord, ResetRecord, ClaimAccepted, CommitAccepted, ReclaimDue, Replay;
  }

  lemma LoggedInTable(c: Config, n: NodeState, now: real, a: Action)
    requires (a.Submitting? || a.Receiving?) && Logged(c, n, now, a).Some?
    ensures var r, n' := Logged(c, n, now, a).value, NodeStep(c, n, now, a);
            r.taskId in n'.tasks && n'.tasks[r.taskId] == r
  {
    hide Join;
  }

  lemma LoggedStorable(S: Setup, i: map<TokenKey, Origin>, network: set<TaskRecord>, p: PeerId, n: NodeState, now: real,
                       a: Action)
    requires ValidSetup(S) && p in S.peers && HistoryOk(S, i) && NodeOk(S, i, p, n) && Allowed(network, n, a)
    requires a.Receiving? ==> Explained(S, i, a.record)
    ensures Logged(S.peers[p], n, now, a).Some? ==> WellFormed(Logged(S.peers[p], n, now, a).value)
  {
    hide Explained, NodeInv, HistoryOk, NodeStep, Sent, Recorded, WellFormed, OwnTokensOk, ExecutionOk, OwnWrite;
    var c := S.peers[p];
    if a.Tearing? {
      if OwnWrite(c, n, now, a.write).Some? {
        OwnWriteLogged(c, n, now, a.write);
        LoggedStorable(S, i, network, p, n, now, a.write);
      }
    } else {
      ActionOk(S, i, network, p, n, now, a);
      var r, i', n' := Logged(c, n, now, a), Recorded(i, c, n, now, a), NodeStep(c, n, now, a);
      if r.Some? {
        if a.Submitting? || a.Receiving? {
          LoggedInTable(c, n, now, a);
          assert Explained(S, i', n'.tasks[r.value.taskId]);
        } else {
          OwnWriteSent(c, n, now, a);
        }
        ExplainedWellFormed(S, i', r.value);
      }
    }
  }

  lemma OwnWriteLogged(c: Config, n: NodeState, now: real, w: Action)
    requires OwnWrite(c, n, now, w).Some?
    ensures !w.Receiving? && Logged(c, n, now, w) == OwnWrite(c, n, now, w)
  {}

  lemma OwnWriteSent(c: Config, n: NodeState, now: real, a: Action)
    requires !a.Submitting? && !a.Receiving? && !a.Tearing? && Logged(c, n, now, a).Some?
    ensures Sent(c, n, now, a) == Logged(c, n, now, a)
  {}

  lemma CheckpointStorable(S: Setup, i: map<TokenKey, Origin>, p: PeerId, n: NodeState, items: seq<(TaskId, TaskRecord)>)
    requires ValidSetup(S) && p in S.peers && HistoryOk(S, i) && NodeOk(S, i, p, n) && Enumerates(items, n.tasks)
    ensures Storable(CheckpointEntry(items, n.clock))
  {
    hide Explained, NodeInv, HistoryOk, WellFormed, OwnTokensOk, ExecutionOk;
    forall k | 0 <= k < |items| ensures WellFormed(items[k].1) {
      assert Explained(S, i, n.tasks[items[k].0]);
      ExplainedWellFormed(S, i, items[k].1);
    }
  }

  ghost predicate LogStorable(n: NodeState) { forall e | e in n.log :: Storable(e) }

  lemma StepStorable(S: Setup, i: map<TokenKey, Origin>, network: set<TaskRecord>, p: PeerId, n: NodeState, now: real,
                     a: Action)
    requires ValidSetup(S) && p in S.peers && HistoryOk(S, i) && NodeOk(S, i, p, n) && Allowed(network, n, a)
    requires a.Receiving? ==> Explained(S, i, a.record)
    requires LogStorable(n)
    ensures LogStorable(NodeStep(S.peers[p], n, now, a))
  {
    hide Explained, NodeOk, HistoryOk, Logged, WellFormed, Submit, Receive, Claim, Finish, Reclaim, Restart;
    if a.Checkpointing? {
      if Enumerates(a.items, n.tasks) { CheckpointStorable(S, i, p, n, a.items); }
    } else {
      StepLogs(S.peers[p], n, now, a);
      LoggedStorable(S, i, network, p, n, now, a);
    }
  }

  /** Everything a node ever logged can be read back as written. */
  lemma {:induction false} LogsAreStorable(S: Setup, steps: seq<Step>, p: PeerId)
    requires ValidSetup(S) && p in S.peers
    ensures p in Run(S, steps).nodes && LogStorable(Run(S, steps).nodes[p])
  {
    hide LogStorable, NodeOk, HistoryOk, Explained, NodeStep, Sent, Recorded;
    InvAlways(S, steps);
    if steps == [] {
      EmptyLogStorable();
    } else {
      var prefix, s := steps[..|steps| - 1], steps[|steps| - 1];
      LogsAreStorable(S, prefix, p);
      InvAlways(S, prefix);
      var m := Run(S, prefix);
      if s.At? && s.p == p && Allowed(m.network, m.nodes[p], s.action) {
        StepStorable(S, m.issued, m.network, p, m.nodes[p], m.now, s.action);
      }
    }
  }

  lemma EmptyLogStorable()
    ensures LogStorable(NodeState(map[], map[], [], None))
  {}

  // ---------- The end-to-end theorem ----------

  /**
    After every step of every run, the bytes of a node's log file, replayed, parsed
    and merged, give back the node's clock and table, up to the one unlogged
    RUNNING write per task.
   */
  lemma FileRebuildsLiveState(S: Setup, steps: seq<Step>, p: PeerId, codec: Codec<LogDoc>, limit: nat)
    requires ValidSetup(S) && p in S.peers && Inverse(codec) && limit < U32
    requires p in Run(S, steps).nodes
    requires forall e | e in Run(S, steps).nodes[p].log :: Fits(codec, limit, e)
    ensures var n := Run(S, steps).nodes[p];
            var file := FileOf(LogFrames(codec, limit, n.log));
            var out := ReplayFile(codec.decode, limit, file, false);
            out.ending == Finished &&
            Rebuilds(RecoverRecords(S.peers[p].maxTasks, EMPTY, out.records), n.tasks, n.clock)
  {
    hide Run, Fits, RecoverRecords, ReplayFile, Replay, FileOf, Storable;
    var n := Run(S, steps).nodes[p];
    var file := FileOf(LogFrames(codec, limit, n.log));
    RecoveryRebuildsLiveState(S, steps, p);
    LogsAreStorable(S, steps, p);
    CutFileRecoversPrefix(codec, limit, S.peers[p].maxTasks, n.log, |file|);
    assert file[..|file|] == file;
  }
}
