/**
  Crashes inside a step. A step appends two frames to the log, a record and the
  clock, in two writes; recovery never merges a record's clock into the node's.
  A crash between the frames of an own write is a step of the mesh. Here a restart
  may find any prefix of the log, in entries or in bytes, received records included.
 */
module CrashPoints {
  import opened Orders
  import opened Octets
  import opened VectorClocks
  import opened Consensus
  import opened NodeSpec
  import opened Mesh
  import opened MeshInvariant
  import opened Boundaries
  import opened RecordCodec
  import opened Wal
  import opened Recovery
  import opened Durability

  // ---------- What a node's log looks like ----------

  ghost predicate SnapshotInTime(c: Config, items: seq<(TaskId, TaskRecord)>, clock: Clock) {
    forall j | 0 <= j < |items| :: items[j].1.taskId == items[j].0 && Leq(items[j].1.clock, Increment(clock, c.id))
  }

  function ClockAt(c: Config, log: seq<LogEntry>, k: nat): Clock
    requires k <= |log|
  {
    Replay(c.maxTasks, EMPTY, log[..k]).clock
  }

  /**
    A logged record is within one own tick of the clock recovered before it, or the
    next entry is a clock it is within one own tick of. So are a snapshot's records.
   */
  ghost predicate EntryInTime(c: Config, log: seq<LogEntry>, i: nat)
    requires i < |log|
  {
    match log[i]
    case TaskEntry(r) =>
      || Leq(r.clock, Increment(ClockAt(c, log, i), c.id))
      || (i + 1 < |log| && log[i + 1].ClockEntry? && Leq(r.clock, Increment(log[i + 1].clock, c.id)))
    case ClockEntry(_) => true
    case CheckpointEntry(items, clock) => SnapshotInTime(c, items, clock)
  }

  ghost predicate LogInTime(c: Config, log: seq<LogEntry>) { forall i | 0 <= i < |log| :: EntryInTime(c, log, i) }

  lemma InTimeAt(c: Config, log: seq<LogEntry>, i: nat)
    requires LogInTime(c, log) && i < |log|
    ensures EntryInTime(c, log, i)
  {}

  /** Entries stay in time as the log grows. */
  lemma InTimeGrows(c: Config, log: seq<LogEntry>, more: seq<LogEntry>, i: nat)
    requires LogInTime(c, log) && i < |log|
    ensures EntryInTime(c, log + more, i)
  {
    hide Leq, Increment, Replay;
    assert EntryInTime(c, log, i) && (log + more)[..i] == log[..i];
  }

  lemma InTimeAppends(c: Config, log: seq<LogEntry>, r: TaskRecord, clock: Clock)
    requires LogInTime(c, log) && Leq(r.clock, Increment(clock, c.id))
    ensures LogInTime(c, log + [TaskEntry(r), ClockEntry(clock)])
  {
    hide Leq, Increment, Replay;
    var more := [TaskEntry(r), ClockEntry(clock)];
    forall i | 0 <= i < |log + more| ensures EntryInTime(c, log + more, i) {
      if i < |log| { InTimeGrows(c, log, more, i); }
    }
  }

  lemma InTimeTears(c: Config, log: seq<LogEntry>, r: TaskRecord)
    requires LogInTime(c, log) && Leq(r.clock, Increment(Replay(c.maxTasks, EMPTY, log).clock, c.id))
    ensures LogInTime(c, log + [TaskEntry(r)])
  {
    hide Leq, Increment, Replay;
    var more := [TaskEntry(r)];
    forall i | 0 <= i < |log + more| ensures EntryInTime(c, log + more, i) {
      if i < |log| { InTimeGrows(c, log, more, i); } else { assert (log + more)[..i] == log; }
    }
  }

  lemma LoggedInTime(c: Config, n: NodeState, now: real, a: Action)
    requires Filed(c, n) && !a.Tearing? && Logged(c, n, now, a).Some?
    ensures Leq(Logged(c, n, now, a).value.clock, Increment(NodeStep(c, n, now, a).clock, c.id))
  {
    hide Filed, Replay, Increment, Leq, Merge, Join;
    var r, n' := Logged(c, n, now, a).value, NodeStep(c, n, now, a);
    IncrementAbove(n'.clock, c.id);
    if a.Receiving? {
      var next := Increment(n'.clock, c.id);
      MergeAbove(n.clock, a.record.clock);
      LeqTrans(a.record.clock, n'.clock, next);
      if a.record.taskId in n.tasks {
        FiledBelow(c, n, a.record.taskId);
        IncrementMonotone(n.clock, n'.clock, c.id);
        LeqTrans(n.tasks[a.record.taskId].clock, Increment(n.clock, c.id), next);
        MergeIsLeastUpperBound(n.tasks[a.record.taskId].clock, a.record.clock, next);
      }
    } else {
      OwnWriteLogged(c, n, now, a);
      OwnStep(c, n, now, a);
    }
  }

  lemma FiledBelow(c: Config, n: NodeState, id: TaskId)
    requires Filed(c, n) && id in n.tasks
    ensures n.tasks[id].taskId == id && Leq(n.tasks[id].clock, Increment(n.clock, c.id))
  {}

  lemma OwnWriteTicks(c: Config, n: NodeState, now: real, w: Action)
    requires OwnWrite(c, n, now, w).Some?
    ensures OwnWrite(c, n, now, w).value.clock == Increment(n.clock, c.id)
  {}

  lemma CheckpointInTime(c: Config, n: NodeState, items: seq<(TaskId, TaskRecord)>)
    requires Filed(c, n) && Enumerates(items, n.tasks)
    ensures LogInTime(c, [CheckpointEntry(items, n.clock)])
  {
    hide Leq, Increment;
  }

  lemma StepInTime(c: Config, n: NodeState, now: real, a: Action)
    requires NodeInv(c, n) && LogInTime(c, n.log)
    ensures LogInTime(c, NodeStep(c, n, now, a).log)
  {
    hide Filed, LogInTime, Logged, Submit, Receive, Claim, Finish, Reclaim, Restart, Enumerates, TornWrite, OwnWrite, Leq, Replay,
         Increment;
    if a.Checkpointing? {
      if Enumerates(a.items, n.tasks) { CheckpointInTime(c, n, a.items); }
    } else {
      StepLogs(c, n, now, a);
      if Logged(c, n, now, a).Some? {
        var r := Logged(c, n, now, a).value;
        if a.Tearing? {
          TearingLogged(c, n, now, a);
          OwnWriteTicks(c, n, now, a.write);
          LeqReflexive(r.clock);
          InTimeTears(c, n.log, r);
        } else {
          LoggedInTime(c, n, now, a);
          InTimeAppends(c, n.log, r, NodeStep(c, n, now, a).clock);
        }
      }
    }
  }

  lemma TearingLogged(c: Config, n: NodeState, now: real, a: Action)
    requires a.Tearing?
    ensures Logged(c, n, now, a) == OwnWrite(c, n, now, a.write)
  {}

  lemma {:induction false} LogsAreInTime(S: Setup, steps: seq<Step>, p: PeerId)
    requires ValidSetup(S) && p in S.peers
    ensures p in Run(S, steps).nodes && LogInTime(S.peers[p], Run(S, steps).nodes[p].log)
  {
    hide LogInTime, TableOk, ExecutionOk, OwnTokensOk, HistoryOk, Explained, NodeStep, Sent, Recorded, NodeInv;
    InvAlways(S, steps);
    if steps == [] {
      NothingInTime(S.peers[p]);
    } else {
      var prefix, s := steps[..|steps| - 1], steps[|steps| - 1];
      LogsAreInTime(S, prefix, p);
      InvAlways(S, prefix);
      var m := Run(S, prefix);
      assert NodeOk(S, m.issued, p, m.nodes[p]);
      if s.At? && s.p == p && Allowed(m.network, m.nodes[p], s.action) {
        StepInTime(S.peers[p], m.nodes[p], m.now, s.action);
      }
    }
  }

  lemma NothingInTime(c: Config)
    ensures LogInTime(c, [])
  {}

  // ---------- Recovering from a prefix ----------

  /** Every record is under its own id and within one own tick of the replica's clock. */
  ghost predicate InTime(c: Config, s: Replica) {
    forall id :: id in s.tasks ==> s.tasks[id].taskId == id && Leq(s.tasks[id].clock, Increment(s.clock, c.id))
  }

  ghost predicate IdsFiled(s: Replica) { forall id :: id in s.tasks ==> s.tasks[id].taskId == id }

  lemma AbsorbInTime(c: Config, s: Replica, id: TaskId, r: TaskRecord, clock: Clock)
    requires InTime(c, s) && r.taskId == id && Leq(s.clock, clock) && Leq(r.clock, Increment(clock, c.id))
    ensures InTime(c, Replica(Absorb(c.maxTasks, s.tasks, id, r), clock))
  {
    hide Increment, Leq, Merge, Join, Absorb;
    var t, next := Absorb(c.maxTasks, s.tasks, id, r), Increment(clock, c.id);
    IncrementMonotone(s.clock, clock, c.id);
    forall k | k in t ensures t[k].taskId == k && Leq(t[k].clock, next) {
      AbsorbedAt(c.maxTasks, s.tasks, id, r, k);
      if k in s.tasks {
        LeqTrans(s.tasks[k].clock, Increment(s.clock, c.id), next);
        MergeIsLeastUpperBound(s.tasks[k].clock, r.clock, next);
      }
    }
  }

  /** Absorbing a record changes at most the record of its id, to itself or the join. */
  lemma AbsorbedAt(maxTasks: nat, tasks: map<TaskId, TaskRecord>, id: TaskId, r: TaskRecord, k: TaskId)
    requires r.taskId == id && (id in tasks ==> tasks[id].taskId == id) && k in Absorb(maxTasks, tasks, id, r)
    ensures k in tasks || (k == id && Absorb(maxTasks, tasks, id, r)[k] == r)
    ensures k in tasks ==> Absorb(maxTasks, tasks, id, r)[k] == if k == id then Join(tasks[id], r) else tasks[k]
  {
    hide Join;
  }

  lemma LaterClockInTime(c: Config, s: Replica, clock: Clock)
    requires InTime(c, s) && Leq(s.clock, clock)
    ensures InTime(c, Replica(s.tasks, clock))
  {
    hide Increment, Leq;
    IncrementMonotone(s.clock, clock, c.id);
    forall k | k in s.tasks ensures Leq(s.tasks[k].clock, Increment(clock, c.id)) {
      LeqTrans(s.tasks[k].clock, Increment(s.clock, c.id), Increment(clock, c.id));
    }
  }

  lemma {:induction false} AbsorbAllInTime(c: Config, s: Replica, items: seq<(TaskId, TaskRecord)>, clock: Clock)
    requires InTime(c, s) && SnapshotInTime(c, items, clock)
    ensures InTime(c, Replica(AbsorbAll(c.maxTasks, s.tasks, items), Merge(s.clock, clock)))
  {
    hide InTime, Absorb, Increment, Leq, Merge;
    var top := Merge(s.clock, clock);
    MergeAbove(s.clock, clock);
    LeqReflexive(top);
    if items == [] {
      LaterClockInTime(c, s, top);
    } else {
      var rest, last := items[..|items| - 1], items[|items| - 1];
      AbsorbAllInTime(c, s, rest, clock);
      IncrementMonotone(clock, top, c.id);
      LeqTrans(last.1.clock, Increment(clock, c.id), Increment(top, c.id));
      AbsorbInTime(c, Replica(AbsorbAll(c.maxTasks, s.tasks, rest), top), last.0, last.1, top);
    }
  }

  /** The cut is not behind a record that is more than one own tick ahead of the clock recovered so far. */
  ghost predicate Settled(c: Config, log: seq<LogEntry>, k: nat)
    requires k <= |log|
  {
    k == 0 || !log[k - 1].TaskEntry? || Leq(log[k - 1].record.clock, Increment(ClockAt(c, log, k - 1), c.id))
  }

  lemma ReplayUpTo(c: Config, log: seq<LogEntry>, k: nat)
    requires 0 < k <= |log|
    ensures Replay(c.maxTasks, EMPTY, log[..k]) == ReplayEntry(c.maxTasks, Replay(c.maxTasks, EMPTY, log[..k - 1]), log[k - 1])
  {
    assert log[..k][..k - 1] == log[..k - 1];
  }

  lemma UnsettledNext(c: Config, log: seq<LogEntry>, k: nat)
    requires LogInTime(c, log) && 0 < k < |log| && !Settled(c, log, k)
    ensures log[k - 1].TaskEntry? && log[k].ClockEntry? && Leq(log[k - 1].record.clock, Increment(log[k].clock, c.id))
  {
    hide Leq, Increment, Replay;
    InTimeAt(c, log, k - 1);
  }

  lemma MergeAbove(a: Clock, b: Clock)
    ensures Leq(a, Merge(a, b)) && Leq(b, Merge(a, b))
  {
    MergeIsLeastUpperBound(a, b, a);
  }

  /** A record and its clock, replayed together, keep the replica in time. */
  lemma PairInTime(c: Config, s: Replica, r: TaskRecord, clock: Clock)
    requires InTime(c, s) && Leq(r.clock, Increment(clock, c.id))
    ensures InTime(c, ReplayEntry(c.maxTasks, ReplayEntry(c.maxTasks, s, TaskEntry(r)), ClockEntry(clock)))
  {
    hide InTime, Absorb, Merge, Increment, Leq;
    var top := Merge(s.clock, clock);
    MergeAbove(s.clock, clock);
    IncrementMonotone(clock, top, c.id);
    LeqTrans(r.clock, Increment(clock, c.id), Increment(top, c.id));
    AbsorbInTime(c, s, r.taskId, r, top);
  }

  lemma EntryKeepsInTime(c: Config, s: Replica, e: LogEntry)
    requires InTime(c, s)
    requires e.TaskEntry? ==> Leq(e.record.clock, Increment(s.clock, c.id))
    requires e.CheckpointEntry? ==> SnapshotInTime(c, e.items, e.snapshotClock)
    ensures InTime(c, ReplayEntry(c.maxTasks, s, e))
  {
    hide InTime, Absorb, Merge, Increment, Leq, SnapshotInTime, AbsorbAll;
    match e {
      case TaskEntry(r) =>
        LeqReflexive(s.clock);
        AbsorbInTime(c, s, r.taskId, r, s.clock);
      case ClockEntry(clock) =>
        MergeAbove(s.clock, clock);
        LaterClockInTime(c, s, Merge(s.clock, clock));
      case CheckpointEntry(items, clock) => AbsorbAllInTime(c, s, items, clock);
    }
  }

  lemma {:induction false} SettledCutInTime(c: Config, log: seq<LogEntry>, k: nat)
    requires LogInTime(c, log) && k <= |log| && Settled(c, log, k)
    ensures InTime(c, Replay(c.maxTasks, EMPTY, log[..k]))
  {
    hide InTime, Replay, LogInTime, Absorb, Merge, AbsorbAll, Increment, Leq, SnapshotInTime, ReplayEntry, Settled;
    if k == 0 {
      NothingRecovered(c, log);
    } else {
      ReplayUpTo(c, log, k);
      if Settled(c, log, k - 1) {
        SettledCutInTime(c, log, k - 1);
        SettledEntry(c, log, k);
        EntryKeepsInTime(c, Replay(c.maxTasks, EMPTY, log[..k - 1]), log[k - 1]);
      } else {
        UnsettledPositive(c, log, k - 1);
        UnsettledNext(c, log, k - 1);
        SettledBefore(c, log, k - 1);
        SettledCutInTime(c, log, k - 2);
        ReplayUpTo(c, log, k - 1);
        PairInTime(c, Replay(c.maxTasks, EMPTY, log[..k - 2]), log[k - 2].record, log[k - 1].clock);
      }
    }
  }

  lemma UnsettledPositive(c: Config, log: seq<LogEntry>, k: nat)
    requires k <= |log| && !Settled(c, log, k)
    ensures k > 0
  {}

  /** Before a record the log is settled: behind an unsettled one comes a clock. */
  lemma SettledBefore(c: Config, log: seq<LogEntry>, k: nat)
    requires LogInTime(c, log) && 0 < k <= |log| && log[k - 1].TaskEntry?
    ensures Settled(c, log, k - 1)
  {
    hide LogInTime, Settled;
    if !Settled(c, log, k - 1) {
      UnsettledPositive(c, log, k - 1);
      UnsettledNext(c, log, k - 1);
    }
  }

  lemma SettledEntry(c: Config, log: seq<LogEntry>, k: nat)
    requires LogInTime(c, log) && 0 < k <= |log| && Settled(c, log, k)
    ensures log[k - 1].TaskEntry? ==> Leq(log[k - 1].record.clock, Increment(ClockAt(c, log, k - 1), c.id))
    ensures log[k - 1].CheckpointEntry? ==> SnapshotInTime(c, log[k - 1].items, log[k - 1].snapshotClock)
  {
    hide Leq, Increment, Replay, SnapshotInTime;
    InTimeAt(c, log, k - 1);
  }

  lemma NothingRecovered(c: Config, log: seq<LogEntry>)
    ensures InTime(c, Replay(c.maxTasks, EMPTY, log[..0]))
  {
    assert log[..0] == [];
  }

  lemma AbsorbOneInTimeIff(c: Config, s: Replica, r: TaskRecord)
    requires InTime(c, s)
    ensures var t := ReplayEntry(c.maxTasks, s, TaskEntry(r));
            IdsFiled(t) && (InTime(c, t) <==> r.taskId !in t.tasks || Leq(r.clock, Increment(t.clock, c.id)))
  {
    hide Increment, Leq, Merge;
    var t, next := ReplayEntry(c.maxTasks, s, TaskEntry(r)), Increment(s.clock, c.id);
    if r.taskId in s.tasks { MergeIsLeastUpperBound(s.tasks[r.taskId].clock, r.clock, next); }
    if Leq(r.clock, next) {
      LeqReflexive(s.clock);
      AbsorbInTime(c, s, r.taskId, r, s.clock);
    }
  }

  /** The cut is not behind a record, or that record was refused, or is within one own tick of the recovered clock. */
  ghost predicate Covered(c: Config, log: seq<LogEntry>, k: nat, s: Replica)
    requires k <= |log|
  {
    || k == 0 || !log[k - 1].TaskEntry?
    || log[k - 1].record.taskId !in s.tasks || Leq(log[k - 1].record.clock, Increment(s.clock, c.id))
  }

  lemma PrefixInTimeIff(c: Config, log: seq<LogEntry>, k: nat)
    requires LogInTime(c, log) && k <= |log|
    ensures var s := Replay(c.maxTasks, EMPTY, log[..k]); InTime(c, s) <==> Covered(c, log, k, s)
  {
    hide Replay, LogInTime, Leq, InTime, Increment, Absorb;
    if k == 0 || !log[k - 1].TaskEntry? {
      SettledCutInTime(c, log, k);
    } else {
      SettledBefore(c, log, k);
      SettledCutInTime(c, log, k - 1);
      ReplayUpTo(c, log, k);
      AbsorbOneInTimeIff(c, Replay(c.maxTasks, EMPTY, log[..k - 1]), log[k - 1].record);
    }
  }

  // ---------- Restarting from a prefix ----------

  function Truncated(n: NodeState, k: nat): NodeState
    requires k <= |n.log|
  {
    n.(log := n.log[..k])
  }

  lemma RestartSoundIffInTime(c: Config, n: NodeState, k: nat)
    requires k <= |n.log|
    ensures NodeInv(c, Restart(c, Truncated(n, k))) <==> InTime(c, Replay(c.maxTasks, EMPTY, n.log[..k]))
  {
    hide Replay, Leq, Increment;
    var s := Replay(c.maxTasks, EMPTY, n.log[..k]);
    RebuildsItself(s);
    ReplayBounded(c.maxTasks, EMPTY, n.log[..k]);
  }

  lemma RecoverableInTime(c: Config, n: NodeState)
    requires NodeInv(c, n)
    ensures InTime(c, Replay(c.maxTasks, EMPTY, n.log))
  {
    hide Replay, Leq, Increment;
    var s := Replay(c.maxTasks, EMPTY, n.log);
    forall id | id in s.tasks ensures s.tasks[id].taskId == id && Leq(s.tasks[id].clock, Increment(s.clock, c.id)) {
      assert Mirrors(n.tasks[id], s.tasks[id]);
    }
  }

  lemma LoggedHasRoom(c: Config, n: NodeState, now: real, a: Action)
    requires (n.running.Some? ==> n.running.value.taskId in n.tasks) && Logged(c, n, now, a).Some?
    ensures Logged(c, n, now, a).value.taskId in n.tasks || |n.tasks| < c.maxTasks
  {
    hide Leq;
  }

  /**
    A crash between the two frames of a step is harmless exactly when the logged
    record is within one own tick of the clock from before. A node's own writes
    always are; a received record is exactly when its clock is.
   */
  lemma StepCrashSoundIff(c: Config, n: NodeState, now: real, a: Action)
    requires NodeInv(c, n) && (n.running.Some? ==> n.running.value.taskId in n.tasks)
    requires !a.Tearing? && Logged(c, n, now, a).Some?
    ensures |NodeStep(c, n, now, a).log| == |n.log| + 2
    ensures var sound := NodeInv(c, Restart(c, Truncated(NodeStep(c, n, now, a), |n.log| + 1)));
            && (!a.Receiving? ==> sound)
            && (a.Receiving? ==> (sound <==> Leq(a.record.clock, Increment(n.clock, c.id))))
  {
    hide NodeInv, NodeStep, Replay, Leq, Logged, Restart, Increment, OwnWrite;
    var r, n' := Logged(c, n, now, a).value, NodeStep(c, n, now, a);
    NoCheckpointLogged(c, n, now, a);
    StepLogs(c, n, now, a);
    LoggedHasRoom(c, n, now, a);
    CutInsideStep(c, n, n', r);
    if a.Receiving? {
      ReceivedWithinTick(c, n, now, a);
    } else {
      OwnLoggedTicks(c, n, now, a);
      LeqReflexive(r.clock);
    }
  }

  lemma NoCheckpointLogged(c: Config, n: NodeState, now: real, a: Action)
    requires Logged(c, n, now, a).Some?
    ensures !a.Checkpointing?
  {}

  lemma OwnLoggedTicks(c: Config, n: NodeState, now: real, a: Action)
    requires !a.Receiving? && Logged(c, n, now, a).Some?
    ensures Logged(c, n, now, a).value.clock == Increment(n.clock, c.id)
  {
    OwnWriteTicks(c, n, now, Intent(a));
  }

  lemma ReceivedWithinTick(c: Config, n: NodeState, now: real, a: Action)
    requires NodeInv(c, n) && a.Receiving? && Logged(c, n, now, a).Some?
    ensures Leq(Logged(c, n, now, a).value.clock, Increment(n.clock, c.id)) <==>
            Leq(a.record.clock, Increment(n.clock, c.id))
  {
    hide Leq, Increment, Recoverable, Merge;
    var id := a.record.taskId;
    if id in n.tasks { MergeIsLeastUpperBound(n.tasks[id].clock, a.record.clock, Increment(n.clock, c.id)); }
  }

  lemma CutInsideStep(c: Config, n: NodeState, n': NodeState, r: TaskRecord)
    requires NodeInv(c, n) && n'.log == n.log + [TaskEntry(r), ClockEntry(n'.clock)]
    requires r.taskId in n.tasks || |n.tasks| < c.maxTasks
    ensures NodeInv(c, Restart(c, Truncated(n', |n.log| + 1))) <==> Leq(r.clock, Increment(n.clock, c.id))
  {
    hide Leq, Filed, Mirrors, InTime, Join, Increment;
    var s := Replay(c.maxTasks, EMPTY, n.log);
    RecoverableInTime(c, n);
    assert n'.log[..|n.log| + 1] == n.log + [TaskEntry(r)];
    ReplaySnoc(c.maxTasks, EMPTY, n.log, TaskEntry(r));
    RestartSoundIffInTime(c, n', |n.log| + 1);
    SameKeysSameSize(s.tasks, n.tasks);
    AbsorbOneInTimeIff(c, s, r);
  }

  /**
    Over every run and every prefix of a node's log, a restart from it is sound if
    and only if the prefix does not end in a record, or that record was refused, or
    its clock is at most the recovered clock with one own tick.
   */
  lemma CrashPointSoundIff(S: Setup, steps: seq<Step>, p: PeerId, n: NodeState, k: nat)
    requires ValidSetup(S) && p in S.peers && p in Run(S, steps).nodes && n == Run(S, steps).nodes[p] && k <= |n.log|
    ensures NodeInv(S.peers[p], Restart(S.peers[p], Truncated(n, k))) <==>
            Covered(S.peers[p], n.log, k, Replay(S.peers[p].maxTasks, EMPTY, n.log[..k]))
  {
    hide Run, Replay, NodeInv, Restart, Leq, LogInTime, InTime, Covered;
    LogsAreInTime(S, steps, p);
    RestartSoundIffInTime(S.peers[p], n, k);
    PrefixInTimeIff(S.peers[p], n.log, k);
  }

  /** What recovery from a file cut at a byte yields, as a node. */
  ghost predicate RestartsAs(c: Config, codec: Codec<LogDoc>, limit: nat, file: Bytes, log: seq<LogEntry>, n: NodeState) {
    var out := ReplayFile(codec.decode, limit, file, false);
    var s := RecoverRecords(c.maxTasks, EMPTY, out.records);
    out.ending == Finished && n == NodeState(s.tasks, s.clock, log, None)
  }

  /**
    The same in bytes: a node's log file, cut anywhere behind its header, restarts
    the node from the entries wholly before the cut, and soundly exactly as above.
   */
  lemma CutFileSoundIff(S: Setup, steps: seq<Step>, p: PeerId, n: NodeState, codec: Codec<LogDoc>, limit: nat, cut: nat)
    requires ValidSetup(S) && p in S.peers && p in Run(S, steps).nodes && n == Run(S, steps).nodes[p]
    requires Inverse(codec) && limit < U32 && forall e | e in n.log :: Fits(codec, limit, e)
    requires 8 <= cut <= |FileOf(LogFrames(codec, limit, n.log))|
    ensures var file, k := FileOf(LogFrames(codec, limit, n.log)), Whole(LogFrames(codec, limit, n.log), cut - 8);
            var n' := Restart(S.peers[p], Truncated(n, k));
            && ValidHeader(file[..cut]) && RestartsAs(S.peers[p], codec, limit, file[..cut], n.log[..k], n')
            && (NodeInv(S.peers[p], n') <==> Covered(S.peers[p], n.log, k, Replica(n'.tasks, n'.clock)))
  {
    hide Run, Replay, NodeInv, Fits, FileOf, ReplayFile, RecoverRecords, Storable, ValidHeader, Whole, Covered;
    LogsAreStorable(S, steps, p);
    CutFileRecoversPrefix(codec, limit, S.peers[p].maxTasks, n.log, cut);
    CrashPointSoundIff(S, steps, p, n, Whole(LogFrames(codec, limit, n.log), cut - 8));
  }

  // ---------- What goes wrong otherwise ----------

  /** The live state is what the log rebuilds, to the letter: so it is after a restart. */
  ghost predicate Exact(c: Config, n: NodeState) { Replay(c.maxTasks, EMPTY, n.log) == Replica(n.tasks, n.clock) }

  lemma RestartExact(c: Config, n: NodeState)
    ensures Exact(c, Restart(c, n)) && Restart(c, n).running.None?
  {}

  /**
    After a restart, the next claim of a task can be rebuilt from the log exactly
    when the clock of the record it claims is covered by the clock it is stamped with.
   */
  lemma ClaimAfterRestartRecoverableIff(c: Config, n: NodeState, id: TaskId, now: real, duration: real, suspected: bool)
    requires Exact(c, n) && ClaimAccepted(c, n, id, now, suspected) && n.tasks[id].taskId == id
    ensures Recoverable(c, Claim(c, n, id, now, duration, suspected)) <==>
            Leq(n.tasks[id].clock, Increment(n.clock, c.id))
  {
    hide Replay, Increment, Join, Merge, Leq, Mirrors;
    var r, claim, n' := n.tasks[id], ClaimRecord(c, n, id, now + duration), Claim(c, n, id, now, duration, suspected);
    ReplayTwo(c.maxTasks, EMPTY, n.log, TaskEntry(claim), ClockEntry(claim.clock));
    IncrementAbove(n.clock, c.id);
    MergeAbsorbs(n.clock, claim.clock);
    var s' := Replica(n.tasks[id := Join(r, claim)], claim.clock);
    assert Replay(c.maxTasks, EMPTY, n'.log) == s';
    RebuiltClaim(c, r, claim);
    if Mirrors(n'.tasks[id], s'.tasks[id]) {
      forall k | k in n'.tasks ensures Mirrors(n'.tasks[k], s'.tasks[k]) { MirrorsItself(n.tasks, k); }
    }
  }

  lemma MirrorsItself(tasks: map<TaskId, TaskRecord>, k: TaskId)
    ensures k in tasks ==> Mirrors(tasks[k], tasks[k])
  {}

  lemma RebuiltClaim(c: Config, r: TaskRecord, claim: TaskRecord)
    requires claim.taskId == r.taskId && !r.state.Terminal() && claim.state == CLAIMED
    requires claim.token == r.token.NextFor(c.id)
    ensures Mirrors(claim.(state := RUNNING), Join(r, claim)) <==> Leq(r.clock, claim.clock)
  {
    hide Join, Merge, Leq;
    ClaimWins(c, r, claim);
    MergeIsEither(r.clock, claim.clock);
  }

  lemma MergeIsEither(a: Clock, b: Clock)
    ensures Merge(a, b) == b <==> Leq(a, b)
  {
    MergeIsLeastUpperBound(a, b, b);
    if Leq(a, b) { MergeAbsorbs(a, b); }
  }

  /** A claim's key is above the claimed record's, so the merge is the claim under the merged clock. */
  lemma ClaimWins(c: Config, r: TaskRecord, claim: TaskRecord)
    requires claim.taskId == r.taskId && !r.state.Terminal() && claim.state == CLAIMED
    requires claim.token == r.token.NextFor(c.id)
    ensures Join(r, claim) == claim.(clock := Merge(r.clock, claim.clock))
  {
    KeyOrderIsPrecedence(r, claim);
    KeyOrderIsPrecedence(claim, r);
  }

  const SUBMIT_B := At("b", Submitting("t", []))
  const SEND_B := At("b", Sending("t"))

  lemma SentRun() returns (r: TaskRecord)
    ensures var m := Run(RACE, [SUBMIT_B, SEND_B]);
            && m.nodes.Keys == {"a", "b"} && r in m.network && m.nodes["a"] == NodeState(map[], map[], [], None)
            && r.taskId == "t" && r.state == PENDING && Get(r.clock, "b") == 1
  {
    hide Run, Increment, Recorded;
    var submit, sent := [SUBMIT_B], [SUBMIT_B, SEND_B];
    assert [] + [SUBMIT_B] == submit && submit + [SEND_B] == sent;
    RunEmpty(RACE);
    RunSnoc(RACE, [], SUBMIT_B);
    RunSnoc(RACE, submit, SEND_B);
    r := Run(RACE, submit).nodes["b"].tasks["t"];
    IncrementEmpty("b");
  }

  /** `b` submits a task and tells `a`, which logs the record and then the clock. */
  lemma ReceivedRun() returns (r: TaskRecord)
    ensures var m := Run(RACE, [SUBMIT_B, SEND_B, At("a", Receiving(r))]);
            && m.nodes.Keys == {"a", "b"} && m.nodes["a"].log == [TaskEntry(r), ClockEntry(m.nodes["a"].clock)]
            && r.taskId == "t" && r.state == PENDING && Get(r.clock, "b") == 1
  {
    hide Run, Merge, Recorded;
    r := SentRun();
    assert [SUBMIT_B, SEND_B] + [At("a", Receiving(r))] == [SUBMIT_B, SEND_B, At("a", Receiving(r))];
    RunSnoc(RACE, [SUBMIT_B, SEND_B], At("a", Receiving(r)));
  }

  lemma RunEmpty(S: Setup)
    ensures Run(S, []) == Initial(S)
  {}

  lemma IncrementEmpty(p: PeerId)
    ensures Get(Increment(map[], p), p) == 1
  {}

  /**
    A run in which a crash between the two frames of a received record breaks
    recovery: the restarted node holds a record its clock does not cover, and the
    claim it makes next is not what its log rebuilds.
   */
  lemma CrashBetweenFrames() returns (steps: seq<Step>)
    ensures var c, m := RACE.peers["a"], Run(RACE, steps);
            && "a" in m.nodes && |m.nodes["a"].log| == 2
            && var n := Restart(c, Truncated(m.nodes["a"], 1));
            && !Filed(c, n) && !NodeInv(c, n)
            && ClaimAccepted(c, n, "t", 0.0, false)
            && !Recoverable(c, Claim(c, n, "t", 0.0, 1.0, false))
  {
    hide Run, Recoverable, Increment, Replay;
    var r := ReceivedRun();
    steps := [SUBMIT_B, SEND_B, At("a", Receiving(r))];
    var c, a := RACE.peers["a"], Run(RACE, steps).nodes["a"];
    assert a.log[..1] == [TaskEntry(r)];
    OnlyRecord(c, r);
    var n := Restart(c, Truncated(a, 1));
    assert Get(n.tasks["t"].clock, "b") > Get(n.clock, "b");
    IncrementOther(n.clock, "a", "b");
    RestartExact(c, Truncated(a, 1));
    ClaimAfterRestartRecoverableIff(c, n, "t", 0.0, 1.0, false);
  }

  lemma OnlyRecord(c: Config, r: TaskRecord)
    requires c.maxTasks > 0
    ensures Replay(c.maxTasks, EMPTY, [TaskEntry(r)]) == Replica(map[r.taskId := r], map[])
  {
    ReplaySnoc(c.maxTasks, EMPTY, [], TaskEntry(r));
    assert [] + [TaskEntry(r)] == [TaskEntry(r)];
  }

  lemma IncrementOther(clock: Clock, p: PeerId, q: PeerId)
    requires p != q
    ensures Get(Increment(clock, p), q) == Get(clock, q)
  {}
}
