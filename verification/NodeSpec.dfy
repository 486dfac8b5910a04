/**
  One mesh node as a state and the atomic steps of its loops (peerq/node.py,
  with `security.enabled` false). A step runs from one suspension point of the
  event loop to the next; sends are taken not to suspend.
 */
module NodeSpec {
  import opened Orders
  import opened Octets
  import opened VectorClocks
  import opened Consensus

  const MAX_TASK_PAYLOAD: nat := 64 * 1024
  const MAX_TASK_RESULT: nat := 64 * 1024
  const MAX_TASK_ID_LENGTH: nat := 128
  const MAX_PEER_ID_LENGTH: nat := 128
  const MAX_ERROR_LENGTH: nat := 4 * 1024

  /** What the node writes to its log, in file order. */
  datatype LogEntry =
    | TaskEntry(record: TaskRecord)
    | ClockEntry(clock: Clock)
    | CheckpointEntry(items: seq<(TaskId, TaskRecord)>, snapshotClock: Clock)

  /** The worker's local variables while its handler runs. */
  datatype Execution = Execution(taskId: TaskId, payload: Bytes, token: FenceToken, leaseExpiry: real)

  datatype Outcome = Success(result: Bytes) | Failure(error: string) {
    function State(): TaskState { if Success? then DONE else FAILED }
    function Result(): Option<Bytes> { if Success? then Some(result) else None }
    function Error(): Option<string> { if Success? then None else Some(error) }
  }

  datatype Config = Config(id: PeerId, maxTasks: nat, hasWorker: bool)

  datatype Replica = Replica(tasks: map<TaskId, TaskRecord>, clock: Clock)

  const EMPTY := Replica(map[], map[])

  datatype NodeState = NodeState(
    tasks: map<TaskId, TaskRecord>,
    clock: Clock,
    log: seq<LogEntry>,
    running: Option<Execution>)

  // ---------- Recovery ----------

  /** Insert a record, or merge it into the one held; a full table takes no new task. */
  function Absorb(maxTasks: nat, tasks: map<TaskId, TaskRecord>, id: TaskId, r: TaskRecord): map<TaskId, TaskRecord> {
    if id !in tasks then (if |tasks| >= maxTasks then tasks else tasks[id := r])
    else match MergeRecords(tasks[id], r)
      case None => tasks
      case Some(m) => tasks[id := m]
  }

  function AbsorbAll(maxTasks: nat, tasks: map<TaskId, TaskRecord>, items: seq<(TaskId, TaskRecord)>)
    : map<TaskId, TaskRecord>
  {
    if items == [] then tasks
    else
      var last := items[|items| - 1];
      Absorb(maxTasks, AbsorbAll(maxTasks, tasks, items[..|items| - 1]), last.0, last.1)
  }

  function ReplayEntry(maxTasks: nat, s: Replica, e: LogEntry): Replica {
    match e
    case TaskEntry(r) => s.(tasks := Absorb(maxTasks, s.tasks, r.taskId, r))
    case ClockEntry(c) => s.(clock := Merge(s.clock, c))
    case CheckpointEntry(items, c) => Replica(AbsorbAll(maxTasks, s.tasks, items), Merge(s.clock, c))
  }

  /** `_recover_from_wal`: the fold of the log over a starting replica. */
  function Replay(maxTasks: nat, s: Replica, log: seq<LogEntry>): Replica {
    if log == [] then s
    else ReplayEntry(maxTasks, Replay(maxTasks, s, log[..|log| - 1]), log[|log| - 1])
  }

  lemma {:induction false} ReplayAppend(maxTasks: nat, s: Replica, a: seq<LogEntry>, b: seq<LogEntry>)
    ensures Replay(maxTasks, s, a + b) == Replay(maxTasks, Replay(maxTasks, s, a), b)
  {
    if b == [] {
      assert a + b == a;
    } else {
      assert (a + b)[..|a + b| - 1] == a + b[..|b| - 1];
      ReplayAppend(maxTasks, s, a, b[..|b| - 1]);
    }
  }

  lemma ReplaySnoc(maxTasks: nat, s: Replica, log: seq<LogEntry>, e: LogEntry)
    ensures Replay(maxTasks, s, log + [e]) == ReplayEntry(maxTasks, Replay(maxTasks, s, log), e)
  {
    assert (log + [e])[..|log|] == log;
  }

  lemma ReplayTwo(maxTasks: nat, s: Replica, log: seq<LogEntry>, e: LogEntry, f: LogEntry)
    ensures Replay(maxTasks, s, log + [e, f]) ==
            ReplayEntry(maxTasks, ReplayEntry(maxTasks, Replay(maxTasks, s, log), e), f)
  {
    assert log + [e, f] == log + [e] + [f];
    ReplaySnoc(maxTasks, s, log + [e], f);
    ReplaySnoc(maxTasks, s, log, e);
  }

  // ---------- Atomic steps ----------

  /** Store a record, and log it with the clock. */
  function LoggedWrite(n: NodeState, clock: Clock, r: TaskRecord): NodeState {
    n.(tasks := n.tasks[r.taskId := r], clock := clock, log := n.log + [TaskEntry(r), ClockEntry(clock)])
  }

  function SubmittedRecord(c: Config, clock: Clock, id: TaskId, payload: Bytes): TaskRecord {
    TaskRecord(id, PENDING, payload, None, None, None, ZERO_TOKEN, 0.0, clock, c.id, None, None)
  }

  predicate SubmitAccepted(c: Config, n: NodeState, id: TaskId, payload: Bytes) {
    && 0 < |id| <= MAX_TASK_ID_LENGTH
    && |payload| <= MAX_TASK_PAYLOAD
    && (id in n.tasks || |n.tasks| < c.maxTasks)
  }

  /** `submit_task`: the record is overwritten if the id is already known. */
  function Submit(c: Config, n: NodeState, id: TaskId, payload: Bytes): NodeState {
    if !SubmitAccepted(c, n, id, payload) then n
    else
      var clock := Increment(n.clock, c.id);
      LoggedWrite(n, clock, SubmittedRecord(c, clock, id, payload))
  }

  predicate ReceiveAccepted(c: Config, n: NodeState, id: TaskId, r: TaskRecord) {
    r.taskId == id && (if id in n.tasks then n.tasks[id].taskId == id else |n.tasks| < c.maxTasks)
  }

  /** One record of a gossip message, filed under `id`. */
  function Receive(c: Config, n: NodeState, id: TaskId, r: TaskRecord): NodeState {
    if !ReceiveAccepted(c, n, id, r) then n
    else LoggedWrite(n, Merge(n.clock, r.clock), if id in n.tasks then Join(n.tasks[id], r) else r)
  }

  predicate Held(r: TaskRecord) { r.state == CLAIMED || r.state == RUNNING }

  /** A claim another live peer still holds. */
  predicate ActiveClaim(c: Config, r: TaskRecord, now: real, suspected: bool) {
    Held(r) && r.claimedBy != Some(c.id) && r.leaseExpiry > now && !suspected
  }

  predicate ClaimAccepted(c: Config, n: NodeState, id: TaskId, now: real, suspected: bool) {
    && n.running.None?
    && id in n.tasks && !n.tasks[id].state.Terminal()
    && !ActiveClaim(c, n.tasks[id], now, suspected)
  }

  function ClaimRecord(c: Config, n: NodeState, id: TaskId, lease: real): TaskRecord
    requires id in n.tasks
  {
    var r := n.tasks[id];
    TaskRecord(id, CLAIMED, r.payload, None, None, Some(c.id), r.token.NextFor(c.id), lease,
               Increment(n.clock, c.id), c.id, None, None)
  }

  /**
    One pass of `_worker_loop` up to the handler: claim with the next token, log
    and broadcast the claim, then mark the task running. The running record is
    neither logged nor broadcast.
   */
  function Claim(c: Config, n: NodeState, id: TaskId, now: real, duration: real, suspected: bool): NodeState {
    if !ClaimAccepted(c, n, id, now, suspected) then n
    else
      var r := ClaimRecord(c, n, id, now + duration);
      LoggedWrite(n, r.clock, r).(
        tasks := n.tasks[id := r.(state := RUNNING)],
        running := Some(Execution(id, r.payload, r.token, r.leaseExpiry)))
  }

  /** The fencing check: the lease has not run out and no higher token is known. */
  predicate CommitAccepted(n: NodeState, x: Execution, now: real) {
    now <= x.leaseExpiry && (x.taskId in n.tasks ==> TokenLeq(n.tasks[x.taskId].token, x.token))
  }

  function CommitRecord(c: Config, n: NodeState, x: Execution, outcome: Outcome): TaskRecord {
    TaskRecord(x.taskId, outcome.State(), x.payload, outcome.Result(), outcome.Error(), Some(c.id), x.token, 0.0,
               Increment(n.clock, c.id), c.id, None, None)
  }

  function Commit(c: Config, n: NodeState, x: Execution, outcome: Outcome): NodeState {
    var r := CommitRecord(c, n, x, outcome);
    LoggedWrite(n, r.clock, r)
  }

  function Idle(n: NodeState): NodeState { n.(running := None) }

  /** The worker resumes after its handler: commit, or drop a stale result. */
  function Finish(c: Config, n: NodeState, now: real, outcome: Outcome): NodeState {
    if n.running.None? then n
    else if CommitAccepted(n, n.running.value, now) then Idle(Commit(c, n, n.running.value, outcome))
    else Idle(n)
  }

  predicate ReclaimDue(c: Config, n: NodeState, id: TaskId, now: real, suspected: bool, elected: bool) {
    && id in n.tasks && Held(n.tasks[id]) && n.tasks[id].claimedBy != Some(c.id)
    && n.tasks[id].leaseExpiry <= now && suspected && elected
  }

  function ResetRecord(c: Config, n: NodeState, id: TaskId): TaskRecord
    requires id in n.tasks
  {
    var r := n.tasks[id];
    TaskRecord(id, PENDING, r.payload, None, None, None, r.token.NextFor(c.id), 0.0,
               Increment(n.clock, c.id), c.id, None, None)
  }

  /** One task of the reclaim audit. A node with a worker only queues the task. */
  function Reclaim(c: Config, n: NodeState, id: TaskId, now: real, suspected: bool, elected: bool): NodeState {
    if c.hasWorker || !ReclaimDue(c, n, id, now, suspected, elected) then n
    else
      var r := ResetRecord(c, n, id);
      LoggedWrite(n, r.clock, r)
  }

  /** Crash and restart: only the log survives. */
  function Restart(c: Config, n: NodeState): NodeState {
    var s := Replay(c.maxTasks, EMPTY, n.log);
    NodeState(s.tasks, s.clock, n.log, None)
  }

  predicate Enumerates(items: seq<(TaskId, TaskRecord)>, tasks: map<TaskId, TaskRecord>) {
    && (forall i | 0 <= i < |items| :: items[i].0 in tasks && tasks[items[i].0] == items[i].1)
    && (forall i, j | 0 <= i < j < |items| :: items[i].0 != items[j].0)
    && |items| == |tasks|
  }

  /** `checkpoint(tasks, vector_clock)`: one snapshot replaces the whole log. */
  function Checkpoint(n: NodeState, items: seq<(TaskId, TaskRecord)>): NodeState {
    if Enumerates(items, n.tasks) then n.(log := [CheckpointEntry(items, n.clock)]) else n
  }

  // ---------- The node invariant ----------

  /** A recovered record is the live one, or its CLAIMED form if the last write was the unlogged RUNNING. */
  predicate Mirrors(live: TaskRecord, recovered: TaskRecord) {
    recovered == live || (live.state == RUNNING && recovered == live.(state := CLAIMED))
  }

  /**
    Every record is under its own id, and its clock is at most the node's with one
    own tick: a crash between the two frames of an own write leaves it one behind.
   */
  ghost predicate Filed(c: Config, n: NodeState) {
    forall id :: id in n.tasks ==> n.tasks[id].taskId == id && Leq(n.tasks[id].clock, Increment(n.clock, c.id))
  }

  ghost predicate Rebuilds(s: Replica, tasks: map<TaskId, TaskRecord>, clock: Clock) {
    && s.clock == clock
    && s.tasks.Keys == tasks.Keys
    && forall id :: id in tasks ==> Mirrors(tasks[id], s.tasks[id])
  }

  /** Replaying the log rebuilds the clock exactly and every record up to `Mirrors`. */
  ghost predicate Recoverable(c: Config, n: NodeState) {
    Rebuilds(Replay(c.maxTasks, EMPTY, n.log), n.tasks, n.clock)
  }

  ghost predicate NodeInv(c: Config, n: NodeState) {
    Filed(c, n) && |n.tasks| <= c.maxTasks && Recoverable(c, n)
  }

  /** Every logged write only moves a record up the lattice. */
  ghost predicate Inflates(n: NodeState, r: TaskRecord) {
    r.taskId in n.tasks ==> Below(n.tasks[r.taskId], r)
  }

  lemma MirrorBelow(live: TaskRecord, recovered: TaskRecord)
    requires Mirrors(live, recovered)
    ensures Below(recovered, live)
  {
    BelowReflexive(live);
    KeyOrderIsPrecedence(recovered, live);
  }

  lemma SameKeysSameSize<V>(a: map<TaskId, V>, b: map<TaskId, V>)
    requires a.Keys == b.Keys
    ensures |a| == |b|
  {
    assert |a| == |a.Keys| && |b| == |b.Keys|;
  }

  lemma UpdateSize<V>(a: map<TaskId, V>, id: TaskId, v: V)
    ensures |a[id := v]| == if id in a then |a| else |a| + 1
  {
    var b := a[id := v];
    assert b.Keys == a.Keys + {id};
    assert |a| == |a.Keys| && |b| == |b.Keys|;
  }

  /** Replaying a record above the one held stores it unchanged. */
  lemma AbsorbInflation(maxTasks: nat, tasks: map<TaskId, TaskRecord>, r: TaskRecord)
    requires if r.taskId in tasks then Below(tasks[r.taskId], r) else |tasks| < maxTasks
    ensures Absorb(maxTasks, tasks, r.taskId, r) == tasks[r.taskId := r]
  {
    if r.taskId in tasks { JoinAbsorbs(tasks[r.taskId], r); }
  }

  lemma ReplayLoggedWrite(c: Config, n: NodeState, clock: Clock, r: TaskRecord)
    requires Recoverable(c, n) && Leq(n.clock, clock) && Inflates(n, r)
    requires r.taskId in n.tasks || |n.tasks| < c.maxTasks
    ensures Replay(c.maxTasks, EMPTY, LoggedWrite(n, clock, r).log) ==
            Replica(Replay(c.maxTasks, EMPTY, n.log).tasks[r.taskId := r], clock)
  {
    var s := Replay(c.maxTasks, EMPTY, n.log);
    ReplayTwo(c.maxTasks, EMPTY, n.log, TaskEntry(r), ClockEntry(clock));
    SameKeysSameSize(s.tasks, n.tasks);
    MergeAbsorbs(n.clock, clock);
    if r.taskId in n.tasks {
      MirrorBelow(n.tasks[r.taskId], s.tasks[r.taskId]);
      BelowTransitive(s.tasks[r.taskId], n.tasks[r.taskId], r);
    }
    AbsorbInflation(c.maxTasks, s.tasks, r);
  }

  lemma IncrementMonotone(a: Clock, b: Clock, p: PeerId)
    requires Leq(a, b)
    ensures Leq(Increment(a, p), Increment(b, p))
  {
    forall q ensures Get(Increment(a, p), q) <= Get(Increment(b, p), q) { assert Get(a, q) <= Get(b, q); }
  }

  lemma IncrementAbove(clock: Clock, p: PeerId)
    ensures Leq(clock, Increment(clock, p))
  {}

  lemma LoggedWriteFiled(c: Config, n: NodeState, clock: Clock, r: TaskRecord)
    requires Filed(c, n) && Leq(n.clock, clock) && Leq(r.clock, Increment(clock, c.id))
    ensures Filed(c, LoggedWrite(n, clock, r))
  {
    hide Increment, Leq;
    var m := LoggedWrite(n, clock, r);
    IncrementMonotone(n.clock, clock, c.id);
    forall id | id in m.tasks ensures m.tasks[id].taskId == id && Leq(m.tasks[id].clock, Increment(clock, c.id)) {
      if id != r.taskId { LeqTrans(n.tasks[id].clock, Increment(n.clock, c.id), Increment(clock, c.id)); }
    }
  }

  lemma RebuildsWrite(s: Replica, tasks: map<TaskId, TaskRecord>, clock: Clock, clock': Clock,
                      live: TaskRecord, logged: TaskRecord)
    requires Rebuilds(s, tasks, clock) && live.taskId == logged.taskId && Mirrors(live, logged)
    ensures Rebuilds(Replica(s.tasks[live.taskId := logged], clock'), tasks[live.taskId := live], clock')
  {
    var s', tasks' := s.tasks[live.taskId := logged], tasks[live.taskId := live];
    forall id | id in tasks' ensures Mirrors(tasks'[id], s'[id]) {
      if id != live.taskId { assert Mirrors(tasks[id], s.tasks[id]); }
    }
  }

  /** An inflating logged write keeps the node recoverable, and recovery then returns exactly that record. */
  lemma LoggedWriteKeepsInv(c: Config, n: NodeState, clock: Clock, r: TaskRecord)
    requires NodeInv(c, n) && Leq(n.clock, clock) && Leq(r.clock, Increment(clock, c.id)) && Inflates(n, r)
    requires r.taskId in n.tasks || |n.tasks| < c.maxTasks
    ensures NodeInv(c, LoggedWrite(n, clock, r))
  {
    ReplayLoggedWrite(c, n, clock, r);
    RebuildsWrite(Replay(c.maxTasks, EMPTY, n.log), n.tasks, n.clock, clock, r, r);
    LoggedWriteFiled(c, n, clock, r);
    UpdateSize(n.tasks, r.taskId, r);
  }

  lemma LeqReflexive(a: Clock)
    ensures Leq(a, a)
  {}

  lemma LeqTrans(a: Clock, b: Clock, c: Clock)
    requires Leq(a, b) && Leq(b, c)
    ensures Leq(a, c)
  {
    forall p ensures Get(a, p) <= Get(c, p) { assert Get(a, p) <= Get(b, p); }
  }

  lemma SubmitKeepsInv(c: Config, n: NodeState, id: TaskId, payload: Bytes)
    requires NodeInv(c, n) && id !in n.tasks
    ensures NodeInv(c, Submit(c, n, id, payload))
  {
    if SubmitAccepted(c, n, id, payload) {
      var clock := Increment(n.clock, c.id);
      IncrementAbove(clock, c.id);
      LoggedWriteKeepsInv(c, n, clock, SubmittedRecord(c, clock, id, payload));
    }
  }

  lemma ReceiveKeepsInv(c: Config, n: NodeState, id: TaskId, r: TaskRecord)
    requires NodeInv(c, n)
    ensures NodeInv(c, Receive(c, n, id, r))
  {
    if ReceiveAccepted(c, n, id, r) {
      var clock := Merge(n.clock, r.clock);
      var next := Increment(clock, c.id);
      MergeIsLeastUpperBound(n.clock, r.clock, clock);
      IncrementAbove(clock, c.id);
      LeqTrans(r.clock, clock, next);
      var w := if id in n.tasks then Join(n.tasks[id], r) else r;
      if id in n.tasks {
        JoinIsLeastUpperBound(n.tasks[id], r, w);
        IncrementMonotone(n.clock, clock, c.id);
        LeqTrans(n.tasks[id].clock, Increment(n.clock, c.id), next);
        MergeIsLeastUpperBound(n.tasks[id].clock, r.clock, next);
      }
      LoggedWriteKeepsInv(c, n, clock, w);
    }
  }

  /** Raising the token of a non-terminal record with a fresh clock inflates it. */
  lemma NextTokenInflates(c: Config, n: NodeState, r: TaskRecord)
    requires Filed(c, n) && r.taskId in n.tasks
    requires !n.tasks[r.taskId].state.Terminal()
    requires r.token == n.tasks[r.taskId].token.NextFor(c.id)
    requires r.clock == Increment(n.clock, c.id)
    ensures Inflates(n, r) && Leq(n.clock, r.clock)
  {
    var old_ := n.tasks[r.taskId];
    KeyOrderIsPrecedence(old_, r);
  }

  lemma ClaimKeepsInv(c: Config, n: NodeState, id: TaskId, now: real, duration: real, suspected: bool)
    requires NodeInv(c, n)
    ensures NodeInv(c, Claim(c, n, id, now, duration, suspected))
  {
    if ClaimAccepted(c, n, id, now, suspected) {
      var r := ClaimRecord(c, n, id, now + duration);
      NextTokenInflates(c, n, r);
      IncrementAbove(r.clock, c.id);
      ReplayLoggedWrite(c, n, r.clock, r);
      RebuildsWrite(Replay(c.maxTasks, EMPTY, n.log), n.tasks, n.clock, r.clock, r.(state := RUNNING), r);
      LoggedWriteFiled(c, n, r.clock, r.(state := RUNNING));
      UpdateSize(n.tasks, id, r.(state := RUNNING));
    }
  }

  lemma ReclaimKeepsInv(c: Config, n: NodeState, id: TaskId, now: real, suspected: bool, elected: bool)
    requires NodeInv(c, n)
    ensures NodeInv(c, Reclaim(c, n, id, now, suspected, elected))
  {
    if !c.hasWorker && ReclaimDue(c, n, id, now, suspected, elected) {
      var r := ResetRecord(c, n, id);
      NextTokenInflates(c, n, r);
      IncrementAbove(r.clock, c.id);
      LoggedWriteKeepsInv(c, n, r.clock, r);
    }
  }

  /** A commit inflates unless a terminal record already carries the worker's own token. */
  lemma CommitInflates(c: Config, n: NodeState, x: Execution, now: real, outcome: Outcome)
    requires Filed(c, n) && CommitAccepted(n, x, now)
    requires x.taskId in n.tasks && n.tasks[x.taskId].state.Terminal() ==> n.tasks[x.taskId].token != x.token
    ensures Inflates(n, CommitRecord(c, n, x, outcome))
  {
    if x.taskId in n.tasks {
      var old_, r := n.tasks[x.taskId], CommitRecord(c, n, x, outcome);
      KeyOrderIsPrecedence(old_, r);
    }
  }

  lemma CommitKeepsInv(c: Config, n: NodeState, x: Execution, now: real, outcome: Outcome)
    requires NodeInv(c, n) && x.taskId in n.tasks && CommitAccepted(n, x, now)
    requires n.tasks[x.taskId].state.Terminal() ==> n.tasks[x.taskId].token != x.token
    ensures NodeInv(c, Commit(c, n, x, outcome))
  {
    var r := CommitRecord(c, n, x, outcome);
    CommitInflates(c, n, x, now, outcome);
    IncrementAbove(r.clock, c.id);
    LoggedWriteKeepsInv(c, n, r.clock, r);
  }

  lemma FinishKeepsInv(c: Config, n: NodeState, now: real, outcome: Outcome)
    requires NodeInv(c, n)
    requires n.running.Some? ==> n.running.value.taskId in n.tasks
    requires n.running.Some? && n.tasks[n.running.value.taskId].state.Terminal()
             ==> n.tasks[n.running.value.taskId].token != n.running.value.token
    ensures NodeInv(c, Finish(c, n, now, outcome))
  {
    hide NodeInv, Commit, CommitAccepted;
    if n.running.Some? && CommitAccepted(n, n.running.value, now) {
      CommitKeepsInv(c, n, n.running.value, now, outcome);
      IdleKeepsInv(c, Commit(c, n, n.running.value, outcome));
    } else {
      IdleKeepsInv(c, n);
    }
  }

  lemma IdleKeepsInv(c: Config, n: NodeState)
    requires NodeInv(c, n)
    ensures NodeInv(c, Idle(n))
  {}

  lemma RestartKeepsInv(c: Config, n: NodeState)
    requires NodeInv(c, n)
    ensures NodeInv(c, Restart(c, n))
  {
    var s := Replay(c.maxTasks, EMPTY, n.log);
    SameKeysSameSize(s.tasks, n.tasks);
    forall id | id in s.tasks ensures s.tasks[id].taskId == id && Leq(s.tasks[id].clock, Increment(s.clock, c.id)) {
      assert Mirrors(n.tasks[id], s.tasks[id]);
    }
    RebuildsItself(s);
  }

  /** Restart after a crash that caught only the first frame of a write: the record, and not the clock. */
  function TornWrite(c: Config, n: NodeState, r: TaskRecord): NodeState {
    Restart(c, n.(log := n.log + [TaskEntry(r)]))
  }

  /** What a torn write recovers: the table with the record, under the clock from before. */
  lemma TornRecovers(c: Config, n: NodeState, r: TaskRecord)
    requires NodeInv(c, n) && Inflates(n, r) && (r.taskId in n.tasks || |n.tasks| < c.maxTasks)
    ensures TornWrite(c, n, r).clock == n.clock
    ensures TornWrite(c, n, r).tasks == Replay(c.maxTasks, EMPTY, n.log).tasks[r.taskId := r]
    ensures Replay(c.maxTasks, EMPTY, TornWrite(c, n, r).log) == Replica(TornWrite(c, n, r).tasks, n.clock)
  {
    hide Replay, Filed, Join, Merge, Leq;
    var s := Replay(c.maxTasks, EMPTY, n.log);
    ReplaySnoc(c.maxTasks, EMPTY, n.log, TaskEntry(r));
    SameKeysSameSize(s.tasks, n.tasks);
    if r.taskId in n.tasks {
      MirrorBelow(n.tasks[r.taskId], s.tasks[r.taskId]);
      BelowTransitive(s.tasks[r.taskId], n.tasks[r.taskId], r);
    }
    AbsorbInflation(c.maxTasks, s.tasks, r);
  }

  /** A torn write of the node's own keeps the node invariant. */
  lemma TornKeepsInv(c: Config, n: NodeState, r: TaskRecord)
    requires NodeInv(c, n) && Inflates(n, r) && (r.taskId in n.tasks || |n.tasks| < c.maxTasks)
    requires Leq(r.clock, Increment(n.clock, c.id))
    ensures NodeInv(c, TornWrite(c, n, r))
  {
    hide Replay, TornWrite, Leq, Increment, Inflates;
    var s, t := Replay(c.maxTasks, EMPTY, n.log), TornWrite(c, n, r);
    TornRecovers(c, n, r);
    SameKeysSameSize(s.tasks, n.tasks);
    UpdateSize(s.tasks, r.taskId, r);
    forall id | id in t.tasks ensures t.tasks[id].taskId == id && Leq(t.tasks[id].clock, Increment(t.clock, c.id)) {
      if id != r.taskId { assert Mirrors(n.tasks[id], s.tasks[id]); }
    }
    RebuildsItself(Replica(t.tasks, t.clock));
  }

  lemma RebuildsItself(s: Replica)
    ensures Rebuilds(s, s.tasks, s.clock)
  {}

  // ---------- Checkpoints ----------

  ghost predicate Snapshot(t: map<TaskId, TaskRecord>, items: seq<(TaskId, TaskRecord)>, k: nat)
    requires k <= |items|
  {
    && |t| == k
    && (forall i | 0 <= i < k :: items[i].0 in t && t[items[i].0] == items[i].1)
    && (forall id | id in t :: exists i :: 0 <= i < k && items[i].0 == id)
  }

  lemma {:induction false} AbsorbEnumerated(maxTasks: nat, items: seq<(TaskId, TaskRecord)>, k: nat)
    requires k <= |items| <= maxTasks
    requires forall i, j | 0 <= i < j < |items| :: items[i].0 != items[j].0
    ensures Snapshot(AbsorbAll(maxTasks, map[], items[..k]), items, k)
  {
    hide Absorb, Snapshot;
    if k > 0 {
      AbsorbEnumerated(maxTasks, items, k - 1);
      AbsorbLast(maxTasks, map[], items, k - 1);
      var t := AbsorbAll(maxTasks, map[], items[..k - 1]);
      SnapshotStep(t, items, k - 1);
      AbsorbNew(maxTasks, t, items[k - 1].0, items[k - 1].1);
    } else {
      assert items[..0] == [];
      SnapshotEmpty(items);
    }
  }

  lemma SnapshotEmpty(items: seq<(TaskId, TaskRecord)>)
    ensures Snapshot(map[], items, 0)
  {}

  lemma AbsorbNew(maxTasks: nat, t: map<TaskId, TaskRecord>, id: TaskId, r: TaskRecord)
    requires id !in t && |t| < maxTasks
    ensures Absorb(maxTasks, t, id, r) == t[id := r]
  {}

  lemma AbsorbLast(maxTasks: nat, tasks: map<TaskId, TaskRecord>, items: seq<(TaskId, TaskRecord)>, k: nat)
    requires k < |items|
    ensures AbsorbAll(maxTasks, tasks, items[..k + 1]) ==
            Absorb(maxTasks, AbsorbAll(maxTasks, tasks, items[..k]), items[k].0, items[k].1)
  {
    assert items[..k + 1][..k] == items[..k];
  }

  lemma SnapshotStep(t: map<TaskId, TaskRecord>, items: seq<(TaskId, TaskRecord)>, k: nat)
    requires k < |items| && Snapshot(t, items, k)
    requires forall i, j | 0 <= i < j < |items| :: items[i].0 != items[j].0
    ensures items[k].0 !in t && |t| == k
    ensures Snapshot(t[items[k].0 := items[k].1], items, k + 1)
  {
    UpdateSize(t, items[k].0, items[k].1);
  }

  lemma SnapshotIsTable(t: map<TaskId, TaskRecord>, tasks: map<TaskId, TaskRecord>, items: seq<(TaskId, TaskRecord)>)
    requires Enumerates(items, tasks) && Snapshot(t, items, |items|)
    ensures t == tasks
  {
    forall id | id in t ensures id in tasks && t[id] == tasks[id] {
      var i :| 0 <= i < |items| && items[i].0 == id;
    }
    assert t.Keys <= tasks.Keys;
    SubsetSameSize(t.Keys, tasks.Keys);
  }

  /** A checkpoint of a table, replayed from nothing, is that table. */
  lemma CheckpointRebuilds(maxTasks: nat, s: Replica, items: seq<(TaskId, TaskRecord)>)
    requires Enumerates(items, s.tasks) && |s.tasks| <= maxTasks
    ensures Replay(maxTasks, EMPTY, [CheckpointEntry(items, s.clock)]) == s
  {
    AbsorbEnumerated(maxTasks, items, |items|);
    assert items[..|items|] == items;
    SnapshotIsTable(AbsorbAll(maxTasks, map[], items), s.tasks, items);
    MergeAbsorbs(map[], s.clock);
    ReplaySnoc(maxTasks, EMPTY, [], CheckpointEntry(items, s.clock));
    assert [] + [CheckpointEntry(items, s.clock)] == [CheckpointEntry(items, s.clock)];
  }

  lemma SubsetSameSize<T>(a: set<T>, b: set<T>)
    requires a <= b && |a| == |b|
    ensures a == b
  {
    if a != b {
      var x :| x in b && x !in a;
      assert a <= b - {x};
      SubsetSize(a, b - {x});
    }
  }

  lemma {:induction false} SubsetSize<T>(a: set<T>, b: set<T>)
    requires a <= b
    ensures |a| <= |b|
  {
    if a != {} {
      var x :| x in a;
      SubsetSize(a - {x}, b - {x});
    }
  }

  /** Compaction: a checkpoint of the recovered state stands for the log it replaced, whatever follows. */
  lemma CompactionPreservesMeaning(maxTasks: nat, log: seq<LogEntry>, items: seq<(TaskId, TaskRecord)>,
                                   suffix: seq<LogEntry>)
    requires var s := Replay(maxTasks, EMPTY, log); Enumerates(items, s.tasks)
    ensures var s := Replay(maxTasks, EMPTY, log);
            Replay(maxTasks, EMPTY, [CheckpointEntry(items, s.clock)] + suffix) ==
            Replay(maxTasks, EMPTY, log + suffix)
  {
    var s := Replay(maxTasks, EMPTY, log);
    ReplayBounded(maxTasks, EMPTY, log);
    CheckpointRebuilds(maxTasks, s, items);
    ReplayAppend(maxTasks, EMPTY, [CheckpointEntry(items, s.clock)], suffix);
    ReplayAppend(maxTasks, EMPTY, log, suffix);
  }

  lemma {:induction false} AbsorbAllBounded(maxTasks: nat, tasks: map<TaskId, TaskRecord>,
                                            items: seq<(TaskId, TaskRecord)>)
    requires |tasks| <= maxTasks
    ensures |AbsorbAll(maxTasks, tasks, items)| <= maxTasks
  {
    if items != [] {
      AbsorbAllBounded(maxTasks, tasks, items[..|items| - 1]);
      AbsorbBounded(maxTasks, AbsorbAll(maxTasks, tasks, items[..|items| - 1]),
                    items[|items| - 1].0, items[|items| - 1].1);
    }
  }

  lemma AbsorbBounded(maxTasks: nat, tasks: map<TaskId, TaskRecord>, id: TaskId, r: TaskRecord)
    requires |tasks| <= maxTasks
    ensures |Absorb(maxTasks, tasks, id, r)| <= maxTasks
  {
    if id in tasks && MergeRecords(tasks[id], r).Some? {
      UpdateSize(tasks, id, MergeRecords(tasks[id], r).value);
    } else {
      UpdateSize(tasks, id, r);
    }
  }

  /** Recovery never overfills the table. */
  lemma {:induction false} ReplayBounded(maxTasks: nat, s: Replica, log: seq<LogEntry>)
    requires |s.tasks| <= maxTasks
    ensures |Replay(maxTasks, s, log).tasks| <= maxTasks
  {
    if log != [] {
      ReplayBounded(maxTasks, s, log[..|log| - 1]);
      var before, e := Replay(maxTasks, s, log[..|log| - 1]), log[|log| - 1];
      match e {
        case TaskEntry(r) => AbsorbBounded(maxTasks, before.tasks, r.taskId, r);
        case ClockEntry(_) =>
        case CheckpointEntry(items, _) => AbsorbAllBounded(maxTasks, before.tasks, items);
      }
    }
  }

  lemma CheckpointKeepsInv(c: Config, n: NodeState, items: seq<(TaskId, TaskRecord)>)
    requires NodeInv(c, n)
    ensures NodeInv(c, Checkpoint(n, items))
    ensures Enumerates(items, n.tasks) ==>
      Replay(c.maxTasks, EMPTY, Checkpoint(n, items).log) == Replica(n.tasks, n.clock)
  {
    if Enumerates(items, n.tasks) {
      CheckpointRebuilds(c.maxTasks, Replica(n.tasks, n.clock), items);
      RebuildsItself(Replica(n.tasks, n.clock));
    }
  }
}
