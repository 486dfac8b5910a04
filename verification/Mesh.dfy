/**
  The mesh: nodes, a lossy network that may duplicate and reorder records, a
  shared clock, and the history of issued tokens. A run is any list of steps;
  a step whose guard fails leaves the mesh as it is.
 */
module Mesh {
  import opened Orders
  import opened Octets
  import opened VectorClocks
  import opened Consensus
  import opened NodeSpec

  datatype Setup = Setup(peers: map<PeerId, Config>)

  /** Peer ids are the non-empty bounded strings the constructor accepts, and a record's clock can name them all. */
  ghost predicate ValidSetup(S: Setup) {
    && |S.peers| <= 128
    && forall p :: p in S.peers ==> S.peers[p].id == p && 0 < |p| <= MAX_PEER_ID_LENGTH
  }

  /** Where a token of positive epoch came from. A claim ends with at most one outcome. */
  datatype Origin =
    | Claimed(payload: Bytes, lease: real, outcome: Option<Outcome>)
    | Released(payload: Bytes)

  type TokenKey = (TaskId, FenceToken)

  datatype MeshState = MeshState(
    nodes: map<PeerId, NodeState>,
    network: set<TaskRecord>,      // every record ever sent; delivery may pick any of them, any number of times
    now: real,
    issued: map<TokenKey, Origin>) // history only: no step reads it

  datatype Action =
    | Submitting(id: TaskId, payload: Bytes)
    | Sending(id: TaskId)
    | Receiving(record: TaskRecord)
    | Claiming(id: TaskId, duration: real, suspected: bool)
    | Finishing(outcome: Outcome)
    | Reclaiming(id: TaskId, suspected: bool, elected: bool)
    | Restarting
    | Checkpointing(items: seq<(TaskId, TaskRecord)>)
    | Tearing(write: Action)  // a crash between the two frames of an own write, and the restart

  datatype Step = At(p: PeerId, action: Action) | Tick(elapsed: real)

  predicate BoundedOutcome(o: Outcome) {
    if o.Success? then |o.result| <= MAX_TASK_RESULT else |o.error| <= MAX_ERROR_LENGTH
  }

  /** What the environment is trusted with: ids new to the node, delivery of sent records, bounded outcomes. */
  predicate Allowed(network: set<TaskRecord>, n: NodeState, a: Action) {
    match a
    case Submitting(id, _) => id !in n.tasks
    case Receiving(r) => r in network
    case Finishing(o) => BoundedOutcome(o)
    case Tearing(w) => Allowed(network, n, w)
    case _ => true
  }

  /** The record of the node's own that an action writes, if any. */
  function OwnWrite(c: Config, n: NodeState, now: real, a: Action): Option<TaskRecord> {
    match a
    case Submitting(id, payload) =>
      if SubmitAccepted(c, n, id, payload)
      then Some(SubmittedRecord(c, Increment(n.clock, c.id), id, payload)) else None
    case Claiming(id, duration, suspected) =>
      if ClaimAccepted(c, n, id, now, suspected) then Some(ClaimRecord(c, n, id, now + duration)) else None
    case Finishing(o) =>
      if n.running.Some? && CommitAccepted(n, n.running.value, now)
      then Some(CommitRecord(c, n, n.running.value, o)) else None
    case Reclaiming(id, suspected, elected) =>
      if !c.hasWorker && ReclaimDue(c, n, id, now, suspected, elected) then Some(ResetRecord(c, n, id)) else None
    case _ => None
  }

  function NodeStep(c: Config, n: NodeState, now: real, a: Action): NodeState {
    match a
    case Submitting(id, payload) => Submit(c, n, id, payload)
    case Sending(_) => n
    case Receiving(r) => Receive(c, n, r.taskId, r)
    case Claiming(id, duration, suspected) => Claim(c, n, id, now, duration, suspected)
    case Finishing(o) => Finish(c, n, now, o)
    case Reclaiming(id, suspected, elected) => Reclaim(c, n, id, now, suspected, elected)
    case Restarting => Restart(c, n)
    case Checkpointing(items) => Checkpoint(n, items)
    case Tearing(w) =>
      var r := OwnWrite(c, n, now, w);
      if r.None? then n else TornWrite(c, n, r.value)
  }

  /** The record a step broadcasts or gossips, if any. Logging comes first, so a torn write is never sent. */
  function Sent(c: Config, n: NodeState, now: real, a: Action): Option<TaskRecord> {
    match a
    case Sending(id) => if id in n.tasks then Some(n.tasks[id]) else None
    case Submitting(_, _) => None
    case _ => OwnWrite(c, n, now, a)
  }

  /** What a step does, or was doing when it was torn. */
  function Intent(a: Action): Action { if a.Tearing? then a.write else a }

  function Key1(r: TaskRecord): TokenKey { (r.taskId, r.token) }

  /** The history entry a step makes: a new token, or the outcome of a claim. */
  function Recorded(issued: map<TokenKey, Origin>, c: Config, n: NodeState, now: real, a: Action)
    : map<TokenKey, Origin>
  {
    var w := Intent(a);
    var r := OwnWrite(c, n, now, w);
    if r.None? then issued
    else
      var r := r.value;
      match w
      case Submitting(_, _) => issued
      case Claiming(_, _, _) => issued[Key1(r) := Claimed(r.payload, r.leaseExpiry, None)]
      case Finishing(o) => issued[Key1(r) := Claimed(r.payload, n.running.value.leaseExpiry, Some(o))]
      case _ => issued[Key1(r) := Released(r.payload)]
  }

  function Apply(S: Setup, m: MeshState, s: Step): MeshState {
    match s
    case Tick(d) => if d >= 0.0 then m.(now := m.now + d) else m
    case At(p, a) =>
      if p !in S.peers || p !in m.nodes || !Allowed(m.network, m.nodes[p], a) then m
      else
        var c, n := S.peers[p], m.nodes[p];
        var sent := Sent(c, n, m.now, a);
        MeshState(m.nodes[p := NodeStep(c, n, m.now, a)],
                  if sent.None? then m.network else m.network + {sent.value},
                  m.now,
                  Recorded(m.issued, c, n, m.now, a))
  }

  function Initial(S: Setup): MeshState {
    MeshState(map p | p in S.peers :: NodeState(map[], map[], [], None), {}, 0.0, map[])
  }

  function Run(S: Setup, steps: seq<Step>): MeshState {
    if steps == [] then Initial(S)
    else Apply(S, Run(S, steps[..|steps| - 1]), steps[|steps| - 1])
  }

  // ---------- What every record says ----------

  /** The record of a token: everything but state and clock follows from the token's origin. */
  function Expected(id: TaskId, t: FenceToken, o: Origin, state: TaskState, clock: Clock): TaskRecord {
    match o
    case Released(payload) =>
      TaskRecord(id, PENDING, payload, None, None, None, t, 0.0, clock, t.peer, None, None)
    case Claimed(payload, lease, outcome) =>
      if outcome.Some? && state.Terminal() then
        TaskRecord(id, outcome.value.State(), payload, outcome.value.Result(), outcome.value.Error(),
                   Some(t.peer), t, 0.0, clock, t.peer, None, None)
      else
        TaskRecord(id, if state == RUNNING then RUNNING else CLAIMED, payload, None, None,
                   Some(t.peer), t, lease, clock, t.peer, None, None)
  }

  predicate Bounded(S: Setup, r: TaskRecord) {
    && 0 < |r.taskId| <= MAX_TASK_ID_LENGTH
    && |r.payload| <= MAX_TASK_PAYLOAD
    && r.clock.Keys <= S.peers.Keys
    && r.updatedBy in S.peers
  }

  predicate OriginBounded(o: Origin) {
    |o.payload| <= MAX_TASK_PAYLOAD && (o.Claimed? && o.outcome.Some? ==> BoundedOutcome(o.outcome.value))
  }

  predicate Explained(S: Setup, issued: map<TokenKey, Origin>, r: TaskRecord) {
    && Bounded(S, r)
    && if r.token.epoch == 0 then
         r == TaskRecord(r.taskId, PENDING, r.payload, None, None, None, ZERO_TOKEN, 0.0, r.clock, r.updatedBy, None, None)
       else
         Key1(r) in issued && r == Expected(r.taskId, r.token, issued[Key1(r)], r.state, r.clock)
  }

  /** History only grows, and a claim's outcome is set at most once. */
  predicate OriginGrows(o: Origin, o': Origin) {
    o' == o || (o.Claimed? && o.outcome.None? && o'.Claimed? && o'.payload == o.payload && o'.lease == o.lease)
  }

  ghost predicate HistoryGrows(i: map<TokenKey, Origin>, i': map<TokenKey, Origin>) {
    forall k :: k in i ==> k in i' && OriginGrows(i[k], i'[k])
  }

  lemma ExplainedGrows(S: Setup, i: map<TokenKey, Origin>, i': map<TokenKey, Origin>, r: TaskRecord)
    requires Explained(S, i, r) && HistoryGrows(i, i')
    ensures Explained(S, i', r)
  {
    if r.token.epoch > 0 { assert OriginGrows(i[Key1(r)], i'[Key1(r)]); }
  }

  // ---------- The mesh invariant ----------

  /** A running execution holds an unfinished claim of this node. */
  predicate ExecutionOk(issued: map<TokenKey, Origin>, p: PeerId, n: NodeState) {
    n.running.Some? ==>
      var x := n.running.value;
      && x.token.peer == p && x.token.epoch > 0 && x.taskId in n.tasks
      && (x.taskId, x.token) in issued && issued[(x.taskId, x.token)] == Claimed(x.payload, x.leaseExpiry, None)
  }

  predicate Overtakes(r: TaskRecord, t: FenceToken) { r.state.Terminal() || TokenLeq(t, r.token) }

  /** A node's own tokens never lead its table, unless the task is over. */
  ghost predicate OwnTokensOk(issued: map<TokenKey, Origin>, p: PeerId, n: NodeState) {
    forall k :: k in issued && k.1.peer == p ==> k.0 in n.tasks && Overtakes(n.tasks[k.0], k.1)
  }

  ghost predicate TableOk(S: Setup, issued: map<TokenKey, Origin>, n: NodeState) {
    n.clock.Keys <= S.peers.Keys && forall id :: id in n.tasks ==> Explained(S, issued, n.tasks[id])
  }

  ghost predicate NodeOk(S: Setup, issued: map<TokenKey, Origin>, p: PeerId, n: NodeState)
    requires p in S.peers
  {
    NodeInv(S.peers[p], n) && TableOk(S, issued, n) && ExecutionOk(issued, p, n) && OwnTokensOk(issued, p, n)
  }

  ghost predicate HistoryOk(S: Setup, issued: map<TokenKey, Origin>) {
    forall k :: k in issued ==> k.1.epoch > 0 && k.1.peer in S.peers && OriginBounded(issued[k])
  }

  ghost predicate Inv(S: Setup, m: MeshState) {
    && m.nodes.Keys == S.peers.Keys
    && HistoryOk(S, m.issued)
    && (forall p :: p in m.nodes ==> NodeOk(S, m.issued, p, m.nodes[p]))
    && (forall r :: r in m.network ==> Explained(S, m.issued, r))
  }

  // ---------- Progress of one record ----------

  /** Terminal is absorbing, and the token only falls when a terminal record replaces a live one. */
  predicate Rises(a: TaskRecord, b: TaskRecord) {
    && (a.state.Terminal() ==> b.state.Terminal() && TokenLeq(a.token, b.token))
    && (!b.state.Terminal() ==> TokenLeq(a.token, b.token))
  }

  ghost predicate TableRises(n: NodeState, n': NodeState) {
    forall id :: id in n.tasks ==> id in n'.tasks && Rises(n.tasks[id], n'.tasks[id])
  }

  lemma TokenLeqReflexive(t: FenceToken)
    ensures TokenLeq(t, t)
  {
    LexReflexive(IntLeq, CharCodes(t.peer));
  }

  lemma RisesReflexive(a: TaskRecord)
    ensures Rises(a, a)
  {
    TokenLeqReflexive(a.token);
  }

  lemma RisesTransitive(a: TaskRecord, b: TaskRecord, c: TaskRecord)
    requires Rises(a, b) && Rises(b, c)
    ensures Rises(a, c)
  {
    if TokenLeq(a.token, b.token) && TokenLeq(b.token, c.token) { TokenLeqTransitive(a.token, b.token, c.token); }
  }

  lemma BelowRises(a: TaskRecord, b: TaskRecord)
    requires Below(a, b)
    ensures Rises(a, b)
  {
    KeyOrderIsPrecedence(a, b);
    TokenLeqReflexive(a.token);
  }

  lemma OvertakesRises(a: TaskRecord, b: TaskRecord, t: FenceToken)
    requires Overtakes(a, t) && Rises(a, b)
    ensures Overtakes(b, t)
  {
    if !b.state.Terminal() { TokenLeqTransitive(t, a.token, b.token); }
  }

  lemma OwnTokensRise(issued: map<TokenKey, Origin>, p: PeerId, n: NodeState, n': NodeState)
    requires OwnTokensOk(issued, p, n) && TableRises(n, n')
    ensures OwnTokensOk(issued, p, n')
  {
    forall k | k in issued && k.1.peer == p ensures k.0 in n'.tasks && Overtakes(n'.tasks[k.0], k.1) {
      OvertakesRises(n.tasks[k.0], n'.tasks[k.0], k.1);
    }
  }

  lemma TableRisesUpdate(n: NodeState, n': NodeState, r: TaskRecord)
    requires n'.tasks == n.tasks[r.taskId := r]
    requires r.taskId in n.tasks ==> Rises(n.tasks[r.taskId], r)
    ensures TableRises(n, n')
  {
    forall id | id in n.tasks ensures id in n'.tasks && Rises(n.tasks[id], n'.tasks[id]) {
      RisesReflexive(n.tasks[id]);
    }
  }

  lemma TableRisesReflexive(n: NodeState, n': NodeState)
    requires n'.tasks == n.tasks
    ensures TableRises(n, n')
  {
    forall id | id in n.tasks ensures Rises(n.tasks[id], n'.tasks[id]) { RisesReflexive(n.tasks[id]); }
  }

  lemma RestartRises(c: Config, n: NodeState)
    requires NodeInv(c, n)
    ensures TableRises(n, Restart(c, n))
  {
    var n' := Restart(c, n);
    forall id | id in n.tasks ensures id in n'.tasks && Rises(n.tasks[id], n'.tasks[id]) {
      assert Mirrors(n.tasks[id], n'.tasks[id]);
      RisesReflexive(n.tasks[id]);
    }
  }

  /** A terminal record with the worker's own token cannot exist while the worker runs. */
  lemma OwnTerminalImpossible(S: Setup, issued: map<TokenKey, Origin>, p: PeerId, n: NodeState, r: TaskRecord)
    requires ExecutionOk(issued, p, n) && n.running.Some? && Explained(S, issued, r)
    requires r.taskId == n.running.value.taskId && r.token == n.running.value.token
    ensures !r.state.Terminal()
  {}

  lemma TableRisesTransitive(a: NodeState, b: NodeState, c: NodeState)
    requires TableRises(a, b) && TableRises(b, c)
    ensures TableRises(a, c)
  {
    forall id | id in a.tasks ensures id in c.tasks && Rises(a.tasks[id], c.tasks[id]) {
      RisesTransitive(a.tasks[id], b.tasks[id], c.tasks[id]);
    }
  }

  // ---------- Torn writes ----------

  /** An own write moves its record up, has room in the table, and carries one own tick. */
  lemma OwnWriteInflates(S: Setup, issued: map<TokenKey, Origin>, network: set<TaskRecord>, p: PeerId, n: NodeState,
                         now: real, w: Action)
    requires p in S.peers && NodeOk(S, issued, p, n) && Allowed(network, n, w)
    requires OwnWrite(S.peers[p], n, now, w).Some?
    ensures var r := OwnWrite(S.peers[p], n, now, w).value;
            && Inflates(n, r) && r.clock == Increment(n.clock, S.peers[p].id)
            && (r.taskId in n.tasks || |n.tasks| < S.peers[p].maxTasks)
  {
    hide Increment, Recoverable, OwnTokensOk, TableOk, ExecutionOk, CommitAccepted, Below, Filed;
    var c := S.peers[p];
    match w {
      case Submitting(_, _) =>
      case Claiming(id, duration, _) => NextTokenInflates(c, n, ClaimRecord(c, n, id, now + duration));
      case Reclaiming(id, _, _) => NextTokenInflates(c, n, ResetRecord(c, n, id));
      case Finishing(o) => CommitWriteInflates(S, issued, p, n, now, o);
    }
  }

  lemma CommitWriteInflates(S: Setup, issued: map<TokenKey, Origin>, p: PeerId, n: NodeState, now: real, o: Outcome)
    requires p in S.peers && NodeOk(S, issued, p, n) && n.running.Some? && CommitAccepted(n, n.running.value, now)
    ensures n.running.value.taskId in n.tasks && Inflates(n, CommitRecord(S.peers[p], n, n.running.value, o))
  {
    hide Increment, Recoverable, OwnTokensOk, TableOk, ExecutionOk, CommitAccepted, Inflates, Filed;
    CommitSafe(S, issued, p, n);
    CommitInflates(S.peers[p], n, n.running.value, now, o);
  }

  /** The task of a running worker is in the table, and is not over under the worker's token. */
  lemma CommitSafe(S: Setup, i: map<TokenKey, Origin>, p: PeerId, n: NodeState)
    requires p in S.peers && NodeOk(S, i, p, n) && n.running.Some?
    ensures n.running.value.taskId in n.tasks
    ensures n.tasks[n.running.value.taskId].state.Terminal()
            ==> n.tasks[n.running.value.taskId].token != n.running.value.token
  {
    hide NodeInv, OwnTokensOk;
    var r := n.tasks[n.running.value.taskId];
    assert Explained(S, i, r);
    assert r.taskId == n.running.value.taskId by { FiledAt(S.peers[p], n, n.running.value.taskId); }
    if r.token == n.running.value.token { OwnTerminalImpossible(S, i, p, n, r); }
  }

  lemma FiledAt(c: Config, n: NodeState, id: TaskId)
    requires NodeInv(c, n) && id in n.tasks
    ensures n.tasks[id].taskId == id
  {}

  /** A step that logs its own write `r` and stores it, or stores it as RUNNING. */
  lemma OwnStep(c: Config, n: NodeState, now: real, w: Action)
    requires OwnWrite(c, n, now, w).Some?
    ensures var r, n' := OwnWrite(c, n, now, w).value, NodeStep(c, n, now, w);
            && n'.log == n.log + [TaskEntry(r), ClockEntry(r.clock)] && n'.clock == r.clock
            && r.taskId in n'.tasks && n'.tasks == n.tasks[r.taskId := n'.tasks[r.taskId]]
            && Mirrors(n'.tasks[r.taskId], r)
  {
    hide Increment, CommitAccepted, ReclaimDue;
  }

  /** A torn write leaves the table that a restart after the whole write would. */
  lemma TornIsRestart(S: Setup, issued: map<TokenKey, Origin>, network: set<TaskRecord>, p: PeerId, n: NodeState,
                      now: real, w: Action)
    requires p in S.peers && NodeOk(S, issued, p, n) && Allowed(network, n, w)
    requires OwnWrite(S.peers[p], n, now, w).Some?
    ensures var c := S.peers[p];
            var t := TornWrite(c, n, OwnWrite(c, n, now, w).value);
            && NodeInv(c, t) && t.running.None? && t.clock == n.clock
            && t.tasks == Restart(c, NodeStep(c, n, now, w)).tasks
            && Replay(c.maxTasks, EMPTY, t.log).tasks == t.tasks
  {
    hide NodeInv, Replay, OwnWrite, NodeStep, Inflates, Increment, Leq, TableOk, ExecutionOk, OwnTokensOk, Allowed;
    var c := S.peers[p];
    var r := OwnWrite(c, n, now, w).value;
    OwnWriteInflates(S, issued, network, p, n, now, w);
    LeqReflexive(r.clock);
    TornKeepsInv(c, n, r);
    TornRecovers(c, n, r);
    OwnStep(c, n, now, w);
    IncrementAbove(n.clock, c.id);
    assert Recoverable(c, n) by { InvRecoverable(c, n); }
    ReplayLoggedWrite(c, n, r.clock, r);
  }

  lemma InvRecoverable(c: Config, n: NodeState)
    requires NodeInv(c, n)
    ensures Recoverable(c, n)
  {}

  lemma TearingRises(S: Setup, issued: map<TokenKey, Origin>, network: set<TaskRecord>, p: PeerId, n: NodeState,
                     now: real, w: Action)
    requires p in S.peers && NodeOk(S, issued, p, n) && Allowed(network, n, w)
    requires OwnWrite(S.peers[p], n, now, w).Some? && TableRises(n, NodeStep(S.peers[p], n, now, w))
    requires NodeInv(S.peers[p], NodeStep(S.peers[p], n, now, w))
    ensures TableRises(n, NodeStep(S.peers[p], n, now, Tearing(w)))
  {
    hide NodeInv, TableRises, OwnWrite, NodeOk, Allowed, TornWrite;
    var c := S.peers[p];
    var n', t := NodeStep(c, n, now, w), TornWrite(c, n, OwnWrite(c, n, now, w).value);
    TornIsRestart(S, issued, network, p, n, now, w);
    RestartRises(c, n');
    TableRisesReflexive(Restart(c, n'), t);
    TableRisesTransitive(n, n', Restart(c, n'));
    TableRisesTransitive(n, Restart(c, n'), t);
  }

  /** Every action moves every record of the node's table upwards. */
  lemma StepRises(S: Setup, issued: map<TokenKey, Origin>, network: set<TaskRecord>, p: PeerId, n: NodeState,
                  now: real, a: Action)
    requires p in S.peers && NodeOk(S, issued, p, n) && Allowed(network, n, a)
    ensures TableRises(n, NodeStep(S.peers[p], n, now, a))
  {
    hide TornWrite, OwnWrite, TableRises, TableOk, ExecutionOk, OwnTokensOk, NodeInv;
    var c := S.peers[p];
    match a {
      case Submitting(id, payload) => SubmitRises(c, n, id, payload);
      case Sending(_) => TableRisesReflexive(n, n);
      case Receiving(r) => ReceiveRises(c, n, r);
      case Claiming(id, duration, suspected) => ClaimRises(c, n, id, now, duration, suspected);
      case Finishing(o) => FinishRises(S, issued, p, n, now, o);
      case Reclaiming(id, suspected, elected) => ReclaimRises(c, n, id, now, suspected, elected);
      case Restarting => RestartRises(c, n);
      case Checkpointing(items) => TableRisesReflexive(n, Checkpoint(n, items));
      case Tearing(w) =>
        if OwnWrite(c, n, now, w).None? {
          TableRisesReflexive(n, n);
        } else {
          StepRises(S, issued, network, p, n, now, w);
          OwnStepKeepsInv(S, issued, network, p, n, now, w);
          TearingRises(S, issued, network, p, n, now, w);
        }
    }
  }

  lemma OwnStepKeepsInv(S: Setup, issued: map<TokenKey, Origin>, network: set<TaskRecord>, p: PeerId, n: NodeState,
                        now: real, w: Action)
    requires p in S.peers && NodeOk(S, issued, p, n) && Allowed(network, n, w)
    requires OwnWrite(S.peers[p], n, now, w).Some?
    ensures NodeInv(S.peers[p], NodeStep(S.peers[p], n, now, w))
  {
    hide NodeInv, TableOk, OwnTokensOk, ExecutionOk, Submit, Claim, Finish, Reclaim;
    var c := S.peers[p];
    match w {
      case Submitting(id, payload) => SubmitKeepsInv(c, n, id, payload);
      case Claiming(id, duration, suspected) => ClaimKeepsInv(c, n, id, now, duration, suspected);
      case Reclaiming(id, suspected, elected) => ReclaimKeepsInv(c, n, id, now, suspected, elected);
      case Finishing(o) =>
        CommitSafe(S, issued, p, n);
        FinishKeepsInv(c, n, now, o);
    }
  }

  lemma SubmitRises(c: Config, n: NodeState, id: TaskId, payload: Bytes)
    requires id !in n.tasks
    ensures TableRises(n, Submit(c, n, id, payload))
  {
    if SubmitAccepted(c, n, id, payload) {
      TableRisesUpdate(n, Submit(c, n, id, payload), SubmittedRecord(c, Increment(n.clock, c.id), id, payload));
    } else { TableRisesReflexive(n, n); }
  }

  lemma ReceiveRises(c: Config, n: NodeState, r: TaskRecord)
    requires NodeInv(c, n)
    ensures TableRises(n, Receive(c, n, r.taskId, r))
  {
    if ReceiveAccepted(c, n, r.taskId, r) && r.taskId in n.tasks {
      var w := Join(n.tasks[r.taskId], r);
      JoinIsLeastUpperBound(n.tasks[r.taskId], r, w);
      BelowRises(n.tasks[r.taskId], w);
      TableRisesUpdate(n, Receive(c, n, r.taskId, r), w);
    } else if ReceiveAccepted(c, n, r.taskId, r) {
      TableRisesUpdate(n, Receive(c, n, r.taskId, r), r);
    } else {
      TableRisesReflexive(n, n);
    }
  }

  lemma ClaimRises(c: Config, n: NodeState, id: TaskId, now: real, duration: real, suspected: bool)
    requires NodeInv(c, n)
    ensures TableRises(n, Claim(c, n, id, now, duration, suspected))
  {
    if ClaimAccepted(c, n, id, now, suspected) {
      var r := ClaimRecord(c, n, id, now + duration).(state := RUNNING);
      TableRisesUpdate(n, Claim(c, n, id, now, duration, suspected), r);
    } else { TableRisesReflexive(n, n); }
  }

  lemma ReclaimRises(c: Config, n: NodeState, id: TaskId, now: real, suspected: bool, elected: bool)
    requires NodeInv(c, n)
    ensures TableRises(n, Reclaim(c, n, id, now, suspected, elected))
  {
    if !c.hasWorker && ReclaimDue(c, n, id, now, suspected, elected) {
      TableRisesUpdate(n, Reclaim(c, n, id, now, suspected, elected), ResetRecord(c, n, id));
    } else { TableRisesReflexive(n, n); }
  }

  lemma FinishRises(S: Setup, issued: map<TokenKey, Origin>, p: PeerId, n: NodeState, now: real, o: Outcome)
    requires p in S.peers && NodeOk(S, issued, p, n)
    ensures TableRises(n, Finish(S.peers[p], n, now, o))
  {
    var c := S.peers[p];
    if n.running.Some? && CommitAccepted(n, n.running.value, now) {
      var x := n.running.value;
      var r := CommitRecord(c, n, x, o);
      assert Rises(n.tasks[x.taskId], r);
      TableRisesUpdate(n, Finish(c, n, now, o), r);
    } else { TableRisesReflexive(n, Idle(n)); }
  }
}
