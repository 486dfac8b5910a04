/**
  Strong eventual consistency: every write of a node is a merge, so its table is
  the join of the records it wrote or received, and nodes that saw the same
  records of a task hold the same record.
 */
module Convergence {
  import opened Orders
  import opened Octets
  import opened VectorClocks
  import opened Consensus
  import opened NodeSpec
  import opened Mesh
  import opened MeshInvariant

  // ---------- Every write is a merge ----------

  /** The record a step writes into the table or takes from the network. */
  function NewInformation(c: Config, n: NodeState, now: real, a: Action): Option<TaskRecord> {
    match a
    case Submitting(id, payload) =>
      if SubmitAccepted(c, n, id, payload)
      then Some(SubmittedRecord(c, Increment(n.clock, c.id), id, payload)) else None
    case Receiving(r) => if ReceiveAccepted(c, n, r.taskId, r) then Some(r) else None
    case Claiming(id, duration, suspected) =>
      if ClaimAccepted(c, n, id, now, suspected)
      then Some(ClaimRecord(c, n, id, now + duration).(state := RUNNING)) else None
    case Finishing(o) => OwnWrite(c, n, now, a)
    case Reclaiming(_, _, _) => OwnWrite(c, n, now, a)
    case _ => None
  }

  function Merged(tasks: map<TaskId, TaskRecord>, w: TaskRecord): map<TaskId, TaskRecord>
    requires w.taskId in tasks ==> tasks[w.taskId].taskId == w.taskId
  {
    tasks[w.taskId := if w.taskId in tasks then Join(tasks[w.taskId], w) else w]
  }

  ghost predicate FiledIds(n: NodeState) { forall id :: id in n.tasks ==> n.tasks[id].taskId == id }

  lemma NodeOkFiled(S: Setup, i: map<TokenKey, Origin>, p: PeerId, n: NodeState)
    requires p in S.peers && NodeOk(S, i, p, n)
    ensures Filed(S.peers[p], n) && FiledIds(n) && NodeInv(S.peers[p], n)
  {}

  lemma InflationIsMerge(n: NodeState, r: TaskRecord)
    requires FiledIds(n) && Inflates(n, r)
    ensures Merged(n.tasks, r) == n.tasks[r.taskId := r]
  {
    if r.taskId in n.tasks { JoinAbsorbs(n.tasks[r.taskId], r); }
  }

  lemma NextTokenStep(S: Setup, i: map<TokenKey, Origin>, p: PeerId, n: NodeState, now: real, a: Action)
    requires p in S.peers && NodeOk(S, i, p, n) && (a.Claiming? || a.Reclaiming?) && FiledIds(n)
    ensures var w := NewInformation(S.peers[p], n, now, a);
            NodeStep(S.peers[p], n, now, a).tasks == if w.None? then n.tasks else Merged(n.tasks, w.value)
  {
    hide NodeInv, TableOk, ExecutionOk, OwnTokensOk, Below, Merged;
    NodeOkFiled(S, i, p, n);
    var w := NewInformation(S.peers[p], n, now, a);
    if w.Some? {
      NextTokenInflates(S.peers[p], n, w.value);
      InflationIsMerge(n, w.value);
    }
  }

  lemma CommitStep(S: Setup, i: map<TokenKey, Origin>, p: PeerId, n: NodeState, now: real, o: Outcome)
    requires p in S.peers && NodeOk(S, i, p, n) && FiledIds(n)
    ensures var w := NewInformation(S.peers[p], n, now, Finishing(o));
            Finish(S.peers[p], n, now, o).tasks == if w.None? then n.tasks else Merged(n.tasks, w.value)
  {
    hide NodeOk, NodeInv, CommitAccepted, Inflates, Merged;
    if n.running.Some? && CommitAccepted(n, n.running.value, now) {
      NodeOkFiled(S, i, p, n);
      CommitSafe(S, i, p, n);
      CommitInflates(S.peers[p], n, n.running.value, now, o);
      InflationIsMerge(n, CommitRecord(S.peers[p], n, n.running.value, o));
    }
  }

  lemma SubmitStep(c: Config, n: NodeState, now: real, id: TaskId, payload: Bytes)
    requires FiledIds(n) && id !in n.tasks
    ensures var w := NewInformation(c, n, now, Submitting(id, payload));
            Submit(c, n, id, payload).tasks == if w.None? then n.tasks else Merged(n.tasks, w.value)
  {}

  lemma ReceiveStep(c: Config, n: NodeState, now: real, r: TaskRecord)
    requires FiledIds(n)
    ensures var w := NewInformation(c, n, now, Receiving(r));
            Receive(c, n, r.taskId, r).tasks == if w.None? then n.tasks else Merged(n.tasks, w.value)
  {
    hide Join;
  }

  /** Every submit, receive, claim, run, commit and reset equals `merge(old, new)`. */
  lemma StepIsMerge(S: Setup, i: map<TokenKey, Origin>, network: set<TaskRecord>, p: PeerId, n: NodeState,
                    now: real, a: Action)
    requires p in S.peers && NodeOk(S, i, p, n) && Allowed(network, n, a) && !a.Restarting? && !a.Tearing?
    ensures FiledIds(n)
    ensures var w := NewInformation(S.peers[p], n, now, a);
            NodeStep(S.peers[p], n, now, a).tasks == if w.None? then n.tasks else Merged(n.tasks, w.value)
  {
    hide NodeOk, Submit, Receive, Claim, Reclaim, Finish, Merged, FiledIds, Filed, NodeInv;
    NodeOkFiled(S, i, p, n);
    match a {
      case Submitting(id, payload) => SubmitStep(S.peers[p], n, now, id, payload);
      case Receiving(r) => ReceiveStep(S.peers[p], n, now, r);
      case Claiming(_, _, _) => NextTokenStep(S, i, p, n, now, a);
      case Reclaiming(_, _, _) => NextTokenStep(S, i, p, n, now, a);
      case Finishing(o) => CommitStep(S, i, p, n, now, o);
      case _ =>
    }
  }

  // ---------- What a node has seen ----------

  /** Records whose information the log holds, and unlogged RUNNING writes that a crash would lose. */
  datatype Seen = Seen(durable: set<TaskRecord>, volatile: set<TaskRecord>)

  function Of(s: set<TaskRecord>, id: TaskId): set<TaskRecord> { set x | x in s && x.taskId == id }

  function All(h: Seen, id: TaskId): set<TaskRecord> { Of(h.durable, id) + Of(h.volatile, id) }

  /** A logged write also makes the task's unlogged record durable, because the log receives the merged record. */
  function Persist(h: Seen, w: TaskRecord): Seen {
    Seen(h.durable + Of(h.volatile, w.taskId) + {w}, h.volatile - Of(h.volatile, w.taskId))
  }

  function SeenAfter(h: Seen, c: Config, n: NodeState, now: real, a: Action): Seen {
    match a
    case Restarting => Seen(h.durable, {})
    case Tearing(w) => if OwnWrite(c, n, now, w).None? then h else Seen(SeenAfter(h, c, n, now, w).durable, {})
    case Checkpointing(items) => if Enumerates(items, n.tasks) then Seen(h.durable + h.volatile, {}) else h
    case Claiming(id, duration, suspected) =>
      if !ClaimAccepted(c, n, id, now, suspected) then h
      else
        var r := ClaimRecord(c, n, id, now + duration);
        var h' := Persist(h, r);
        h'.(volatile := h'.volatile + {r.(state := RUNNING)})
    case _ =>
      var w := NewInformation(c, n, now, a);
      if w.None? then h else Persist(h, w.value)
  }

  /** What peer `p` has seen by the end of a run. */
  function SeenBy(S: Setup, steps: seq<Step>, p: PeerId): Seen {
    if steps == [] then Seen({}, {})
    else
      var prefix, s := steps[..|steps| - 1], steps[|steps| - 1];
      var h, m := SeenBy(S, prefix, p), Run(S, prefix);
      if s.At? && s.p == p && p in S.peers && p in m.nodes && Allowed(m.network, m.nodes[p], s.action)
      then SeenAfter(h, S.peers[p], m.nodes[p], m.now, s.action)
      else h
  }

  ghost predicate JoinedTo(s: set<TaskRecord>, r: TaskRecord, id: TaskId) { r.taskId == id && IsJoin(s, r) }

  /** The table is the join of everything seen; what the log rebuilds is the join of the durable part. */
  ghost predicate Accounted(h: Seen, live: map<TaskId, TaskRecord>, logged: map<TaskId, TaskRecord>, id: TaskId) {
    if id in live then
      && id in logged && Of(h.durable, id) != {}
      && JoinedTo(All(h, id), live[id], id)
      && JoinedTo(Of(h.durable, id), logged[id], id)
    else id !in logged && All(h, id) == {}
  }

  ghost predicate SeenOk(c: Config, h: Seen, n: NodeState) {
    var logged := Replay(c.maxTasks, EMPTY, n.log).tasks;
    forall id :: Accounted(h, n.tasks, logged, id)
  }

  /** A logged write of `w` merged into the table, as the log sees it. */
  lemma PersistAccounted(h: Seen, live: map<TaskId, TaskRecord>, logged: map<TaskId, TaskRecord>, w: TaskRecord, id: TaskId)
    requires Accounted(h, live, logged, id)
    requires w.taskId in live ==> live[w.taskId].taskId == w.taskId
    ensures var r := Merged(live, w)[w.taskId];
            Accounted(Persist(h, w), live[w.taskId := r], logged[w.taskId := r], id)
  {
    hide IsJoin, Join;
    var h' := Persist(h, w);
    if id == w.taskId {
      assert Of(h'.durable, id) == All(h, id) + {w};
      assert Of(h'.volatile, id) == {};
      assert All(h', id) == All(h, id) + {w};
      if id in live { JoinExtends(All(h, id), live[id], w); } else { JoinOfOne(w); assert {} + {w} == {w}; }
    } else {
      assert Of(h'.durable, id) == Of(h.durable, id) && Of(h'.volatile, id) == Of(h.volatile, id);
    }
  }

  /** An unlogged write on top of the table. */
  lemma VolatileAccounted(h: Seen, live: map<TaskId, TaskRecord>, logged: map<TaskId, TaskRecord>, w: TaskRecord, id: TaskId)
    requires Accounted(h, live, logged, id)
    requires w.taskId in live && live[w.taskId].taskId == w.taskId
    ensures Accounted(h.(volatile := h.volatile + {w}), Merged(live, w), logged, id)
  {
    hide IsJoin, Join;
    var h' := h.(volatile := h.volatile + {w});
    if id == w.taskId {
      assert All(h', id) == All(h, id) + {w};
      JoinExtends(All(h, id), live[id], w);
    } else {
      assert Of(h'.volatile, id) == Of(h.volatile, id);
    }
  }

  lemma LoggedSeen(c: Config, h: Seen, n: NodeState, clock: Clock, w: TaskRecord)
    requires NodeInv(c, n) && FiledIds(n) && SeenOk(c, h, n) && Leq(n.clock, clock)
    requires w.taskId in n.tasks || |n.tasks| < c.maxTasks
    ensures SeenOk(c, Persist(h, w), LoggedWrite(n, clock, Merged(n.tasks, w)[w.taskId]))
  {
    hide Join, Accounted, Persist, Filed, Replay;
    var r := Merged(n.tasks, w)[w.taskId];
    if w.taskId in n.tasks { JoinIsLeastUpperBound(n.tasks[w.taskId], w, r); }
    ReplayLoggedWrite(c, n, clock, r);
    var logged := Replay(c.maxTasks, EMPTY, n.log).tasks;
    var h', live', logged' := Persist(h, w), n.tasks[w.taskId := r], logged[w.taskId := r];
    forall id ensures Accounted(h', live', logged', id) {
      PersistAccounted(h, n.tasks, logged, w, id);
    }
  }

  lemma SubmitSeen(c: Config, h: Seen, n: NodeState, now: real, id: TaskId, payload: Bytes)
    requires NodeInv(c, n) && FiledIds(n) && SeenOk(c, h, n) && id !in n.tasks
    ensures SeenOk(c, SeenAfter(h, c, n, now, Submitting(id, payload)), Submit(c, n, id, payload))
  {
    hide NodeInv, SeenOk, FiledIds, Persist;
    if SubmitAccepted(c, n, id, payload) {
      var clock := Increment(n.clock, c.id);
      LoggedSeen(c, h, n, clock, SubmittedRecord(c, clock, id, payload));
    }
  }

  lemma ReceiveSeen(c: Config, h: Seen, n: NodeState, now: real, r: TaskRecord)
    requires NodeInv(c, n) && FiledIds(n) && SeenOk(c, h, n)
    ensures SeenOk(c, SeenAfter(h, c, n, now, Receiving(r)), Receive(c, n, r.taskId, r))
  {
    hide NodeInv, SeenOk, Persist, Join;
    if ReceiveAccepted(c, n, r.taskId, r) {
      var clock := Merge(n.clock, r.clock);
      MergeIsLeastUpperBound(n.clock, r.clock, clock);
      LoggedSeen(c, h, n, clock, r);
    }
  }

  lemma ReclaimSeen(c: Config, h: Seen, n: NodeState, now: real, id: TaskId, suspected: bool, elected: bool)
    requires NodeInv(c, n) && FiledIds(n) && Filed(c, n) && SeenOk(c, h, n)
    ensures SeenOk(c, SeenAfter(h, c, n, now, Reclaiming(id, suspected, elected)),
                   Reclaim(c, n, id, now, suspected, elected))
  {
    hide NodeInv, SeenOk, Persist, Join, Filed, Below;
    if !c.hasWorker && ReclaimDue(c, n, id, now, suspected, elected) {
      var r := ResetRecord(c, n, id);
      NextTokenInflates(c, n, r);
      InflationIsMerge(n, r);
      LoggedSeen(c, h, n, r.clock, r);
    }
  }

  lemma ClaimSeen(c: Config, h: Seen, n: NodeState, now: real, id: TaskId, duration: real, suspected: bool)
    requires NodeInv(c, n) && FiledIds(n) && Filed(c, n) && SeenOk(c, h, n)
    ensures SeenOk(c, SeenAfter(h, c, n, now, Claiming(id, duration, suspected)),
                   Claim(c, n, id, now, duration, suspected))
  {
    hide NodeInv, Persist, Join, Filed, Below, Accounted, Replay;
    if ClaimAccepted(c, n, id, now, suspected) {
      var r := ClaimRecord(c, n, id, now + duration);
      NextTokenInflates(c, n, r);
      InflationIsMerge(n, r);
      LoggedSeen(c, h, n, r.clock, r);
      var h', n' := Persist(h, r), LoggedWrite(n, r.clock, r);
      RunningInflates(n', r);
      InflationIsMerge(n', r.(state := RUNNING));
      var logged := Replay(c.maxTasks, EMPTY, n'.log).tasks;
      var h'', live' := h'.(volatile := h'.volatile + {r.(state := RUNNING)}), n'.tasks[id := r.(state := RUNNING)];
      forall k ensures Accounted(h'', live', logged, k) {
        VolatileAccounted(h', n'.tasks, logged, r.(state := RUNNING), k);
      }
      assert n'.tasks[id := r.(state := RUNNING)] == n.tasks[id := r.(state := RUNNING)];
    }
  }

  /** Marking a claimed record running, on the spot, moves it up the lattice. */
  lemma RunningInflates(n: NodeState, r: TaskRecord)
    requires r.taskId in n.tasks && n.tasks[r.taskId] == r && r.state == CLAIMED
    ensures Inflates(n, r.(state := RUNNING))
  {
    KeyOrderIsPrecedence(r, r.(state := RUNNING));
    LeqReflexive(r.clock);
  }

  lemma FinishSeen(S: Setup, i: map<TokenKey, Origin>, p: PeerId, h: Seen, n: NodeState, now: real, o: Outcome)
    requires p in S.peers && NodeOk(S, i, p, n) && SeenOk(S.peers[p], h, n)
    ensures SeenOk(S.peers[p], SeenAfter(h, S.peers[p], n, now, Finishing(o)), Finish(S.peers[p], n, now, o))
  {
    hide NodeOk, NodeInv, Persist, Join, Filed, Below, Accounted, CommitAccepted, Replay;
    if n.running.Some? && CommitAccepted(n, n.running.value, now) {
      var r := CommitRecord(S.peers[p], n, n.running.value, o);
      NodeOkFiled(S, i, p, n);
      CommitSafe(S, i, p, n);
      CommitInflates(S.peers[p], n, n.running.value, now, o);
      InflationIsMerge(n, r);
      LoggedSeen(S.peers[p], h, n, r.clock, r);
    }
  }

  lemma RestartSeen(c: Config, h: Seen, n: NodeState)
    requires SeenOk(c, h, n)
    ensures SeenOk(c, Seen(h.durable, {}), Restart(c, n))
  {
    hide JoinedTo, Replay;
    var n', h' := Restart(c, n), Seen(h.durable, {});
    var logged := Replay(c.maxTasks, EMPTY, n.log).tasks;
    forall id ensures Accounted(h', n'.tasks, logged, id) {
      assert Accounted(h, n.tasks, logged, id);
      assert Of(h'.volatile, id) == {};
      assert All(h', id) == Of(h.durable, id);
    }
  }

  /** A torn write is seen as the write and a restart: its record is in the log. */
  lemma TearingSeen(S: Setup, i: map<TokenKey, Origin>, network: set<TaskRecord>, p: PeerId, h: Seen, n: NodeState,
                    now: real, w: Action)
    requires p in S.peers && NodeOk(S, i, p, n) && Allowed(network, n, w) && OwnWrite(S.peers[p], n, now, w).Some?
    requires SeenOk(S.peers[p], h, NodeStep(S.peers[p], n, now, w))
    ensures SeenOk(S.peers[p], Seen(h.durable, {}), NodeStep(S.peers[p], n, now, Tearing(w)))
  {
    hide NodeOk, NodeInv, Accounted, Replay, OwnWrite, Allowed;
    var c := S.peers[p];
    var q := Restart(c, NodeStep(c, n, now, w));
    RestartSeen(c, h, NodeStep(c, n, now, w));
    TornIsRestart(S, i, network, p, n, now, w);
    RestartLogs(c, NodeStep(c, n, now, w));
  }

  lemma RestartLogs(c: Config, n: NodeState)
    ensures Replay(c.maxTasks, EMPTY, Restart(c, n).log).tasks == Restart(c, n).tasks
  {}

  lemma CheckpointSeen(c: Config, h: Seen, n: NodeState, items: seq<(TaskId, TaskRecord)>)
    requires SeenOk(c, h, n) && NodeInv(c, n) && Enumerates(items, n.tasks)
    ensures SeenOk(c, Seen(h.durable + h.volatile, {}), Checkpoint(n, items))
  {
    hide JoinedTo, Replay, NodeInv, Enumerates;
    var h' := Seen(h.durable + h.volatile, {});
    CheckpointKeepsInv(c, n, items);
    forall id ensures Accounted(h', n.tasks, n.tasks, id) {
      assert Accounted(h, n.tasks, Replay(c.maxTasks, EMPTY, n.log).tasks, id);
      assert Of(h'.durable, id) == All(h, id);
      assert All(h', id) == All(h, id);
    }
  }

  lemma StepSeen(S: Setup, i: map<TokenKey, Origin>, network: set<TaskRecord>, p: PeerId, h: Seen, n: NodeState,
                 now: real, a: Action)
    requires p in S.peers && NodeOk(S, i, p, n) && Allowed(network, n, a) && SeenOk(S.peers[p], h, n)
    ensures SeenOk(S.peers[p], SeenAfter(h, S.peers[p], n, now, a), NodeStep(S.peers[p], n, now, a))
  {
    hide NodeOk, NodeInv, SeenOk, FiledIds, Filed, Submit, Receive, Claim, Reclaim, Finish, Restart, Persist,
         NewInformation, ClaimAccepted, OwnWrite, TornWrite;
    var c := S.peers[p];
    NodeOkFiled(S, i, p, n);
    match a {
      case Submitting(id, payload) => SubmitSeen(c, h, n, now, id, payload);
      case Sending(_) => assert NewInformation(c, n, now, a).None? by { SendingIsQuiet(c, n, now, a); }
      case Receiving(r) => ReceiveSeen(c, h, n, now, r);
      case Claiming(id, duration, suspected) => ClaimSeen(c, h, n, now, id, duration, suspected);
      case Finishing(o) => FinishSeen(S, i, p, h, n, now, o);
      case Reclaiming(id, suspected, elected) => ReclaimSeen(c, h, n, now, id, suspected, elected);
      case Restarting => RestartSeen(c, h, n);
      case Checkpointing(items) => if Enumerates(items, n.tasks) { CheckpointSeen(c, h, n, items); }
      case Tearing(w) =>
        if OwnWrite(c, n, now, w).Some? {
          StepSeen(S, i, network, p, h, n, now, w);
          TearingSeen(S, i, network, p, SeenAfter(h, c, n, now, w), n, now, w);
        }
    }
  }

  lemma SendingIsQuiet(c: Config, n: NodeState, now: real, a: Action)
    requires a.Sending?
    ensures NewInformation(c, n, now, a).None?
  {}

  /** After every step of every run, a node's table is the join of what it wrote or received. */
  lemma {:induction false} TableIsJoinOfSeen(S: Setup, steps: seq<Step>, p: PeerId)
    requires ValidSetup(S) && p in S.peers
    ensures p in Run(S, steps).nodes && SeenOk(S.peers[p], SeenBy(S, steps, p), Run(S, steps).nodes[p])
  {
    hide NodeOk, SeenOk, Inv, SeenAfter, NodeStep, Sent, Recorded;
    InvAlways(S, steps);
    assert p in Run(S, steps).nodes by { InvNodes(S, Run(S, steps)); }
    if steps == [] {
      InitialSeen(S.peers[p]);
    } else {
      var prefix, s := steps[..|steps| - 1], steps[|steps| - 1];
      TableIsJoinOfSeen(S, prefix, p);
      InvAlways(S, prefix);
      var m := Run(S, prefix);
      InvNodes(S, m);
      if s.At? && s.p == p && Allowed(m.network, m.nodes[p], s.action) {
        StepSeen(S, m.issued, m.network, p, SeenBy(S, prefix, p), m.nodes[p], m.now, s.action);
      }
    }
  }

  lemma InvNodes(S: Setup, m: MeshState)
    requires Inv(S, m)
    ensures forall p :: p in S.peers ==> p in m.nodes && NodeOk(S, m.issued, p, m.nodes[p])
  {}

  lemma InitialSeen(c: Config)
    ensures SeenOk(c, Seen({}, {}), NodeState(map[], map[], [], None))
  {}

  /**
    Strong eventual consistency: two replicas, even of different runs, that have
    seen the same records of a task hold the same record, whatever the order,
    duplication or loss of messages.
   */
  lemma SameRecordsSameState(S: Setup, steps: seq<Step>, p: PeerId, S': Setup, steps': seq<Step>, q: PeerId, id: TaskId)
    requires ValidSetup(S) && p in S.peers && ValidSetup(S') && q in S'.peers
    requires All(SeenBy(S, steps, p), id) == All(SeenBy(S', steps', q), id)
    ensures p in Run(S, steps).nodes && q in Run(S', steps').nodes
    ensures var n, n' := Run(S, steps).nodes[p], Run(S', steps').nodes[q];
            && (id in n.tasks <==> id in n'.tasks)
            && (id in n.tasks ==> n.tasks[id] == n'.tasks[id])
  {
    hide Run, SeenBy, Of, Replay, IsJoin;
    TableIsJoinOfSeen(S, steps, p);
    TableIsJoinOfSeen(S', steps', q);
    var n, n' := Run(S, steps).nodes[p], Run(S', steps').nodes[q];
    var s := All(SeenBy(S, steps, p), id);
    assert Accounted(SeenBy(S, steps, p), n.tasks, Replay(S.peers[p].maxTasks, EMPTY, n.log).tasks, id);
    assert Accounted(SeenBy(S', steps', q), n'.tasks, Replay(S'.peers[q].maxTasks, EMPTY, n'.log).tasks, id);
    if id in n.tasks && id in n'.tasks { JoinUnique(s, n.tasks[id], n'.tasks[id]); }
  }

  // ---------- Exchanging records ----------

  /** What a node holds of a task, after a run. */
  function Holding(S: Setup, steps: seq<Step>, p: PeerId, id: TaskId): Option<TaskRecord> {
    var m := Run(S, steps);
    if p in m.nodes && id in m.nodes[p].tasks then Some(m.nodes[p].tasks[id]) else None
  }

  /** At step `k` the node, holding `a`, receives `b`, and does not write the task again. */
  ghost predicate TakesLast(S: Setup, steps: seq<Step>, p: PeerId, k: nat, a: TaskRecord, b: TaskRecord) {
    && k < |steps| && steps[k] == At(p, Receiving(b)) && b in Run(S, steps[..k]).network
    && Holding(S, steps[..k], p, b.taskId) == Some(a)
    && Holding(S, steps, p, b.taskId) == Holding(S, steps[..k + 1], p, b.taskId)
  }

  lemma TakenIsJoin(S: Setup, steps: seq<Step>, p: PeerId, k: nat, a: TaskRecord, b: TaskRecord)
    requires ValidSetup(S) && p in S.peers && TakesLast(S, steps, p, k, a, b)
    ensures a.taskId == b.taskId && Holding(S, steps, p, b.taskId) == Some(Join(a, b))
  {
    hide Join, NodeInv, TableOk, ExecutionOk, OwnTokensOk, HistoryOk, Explained, Recorded;
    InvAlways(S, steps[..k]);
    var m := Run(S, steps[..k]);
    assert NodeOk(S, m.issued, p, m.nodes[p]);
    NodeOkFiled(S, m.issued, p, m.nodes[p]);
    assert steps[..k + 1][..k] == steps[..k];
  }

  /**
    Anti-entropy: if each of two nodes receives the record the other held, at any
    two points of a run with anything else going on around, and neither writes the
    task after that, they end up with the same record.
   */
  lemma ExchangeConverges(S: Setup, steps: seq<Step>, p: PeerId, i: nat, q: PeerId, j: nat, a: TaskRecord, b: TaskRecord)
    requires ValidSetup(S) && p in S.peers && q in S.peers
    requires TakesLast(S, steps, p, i, a, b) && TakesLast(S, steps, q, j, b, a)
    ensures a.taskId == b.taskId
    ensures Holding(S, steps, p, a.taskId) == Holding(S, steps, q, a.taskId) == Some(Join(a, b))
  {
    hide TakesLast, Holding, Join;
    TakenIsJoin(S, steps, p, i, a, b);
    TakenIsJoin(S, steps, q, j, b, a);
    JoinCommutative(a, b);
  }
}
