/**
  How far the guarantees reach: exactly when a step outside the assumptions of
  the mesh still keeps them, and a run on the edge of the lease-safety theorem.
 */
module Boundaries {
  import opened Orders
  import opened Octets
  import opened VectorClocks
  import opened Consensus
  import opened NodeSpec
  import opened Mesh
  import opened MeshTheorems

  // ---------- Submitting an id that is already known ----------

  /** Nothing is below a fresh submission but an unclaimed record. */
  lemma ZeroTokenIsLeast(t: FenceToken)
    ensures TokenLeq(t, ZERO_TOKEN) <==> t == ZERO_TOKEN
  {
    TokenLeqReflexive(t);
    if TokenLeq(t, ZERO_TOKEN) {
      assert CharCodes(ZERO_TOKEN.peer) == [];
      assert CharCodes(t.peer) == [];
    }
  }

  /** A second submission keeps the record rising exactly when nobody has claimed, reset or finished the task. */
  lemma ResubmitRisesIffUnclaimed(c: Config, n: NodeState, id: TaskId, payload: Bytes)
    requires id in n.tasks && SubmitAccepted(c, n, id, payload)
    ensures Rises(n.tasks[id], Submit(c, n, id, payload).tasks[id]) <==>
            !n.tasks[id].state.Terminal() && n.tasks[id].token == ZERO_TOKEN
  {
    ZeroTokenIsLeast(n.tasks[id].token);
  }

  /** Overwriting a record with a PENDING one under a fresh clock can be rebuilt exactly when its key is not below. */
  lemma OverwriteRecoverableIffAbove(c: Config, n: NodeState, r: TaskRecord)
    requires NodeInv(c, n) && r.taskId in n.tasks && r.state == PENDING && r.clock == Increment(n.clock, c.id)
    ensures Recoverable(c, LoggedWrite(n, r.clock, r)) <==> KeyLeq(Key(n.tasks[r.taskId]), Key(r))
    ensures NodeInv(c, LoggedWrite(n, r.clock, r)) <==> KeyLeq(Key(n.tasks[r.taskId]), Key(r))
  {
    hide KeyLeq, Key, Replay, Join, Increment, Leq, Mirrors;
    var id, s, n' := r.taskId, Replay(c.maxTasks, EMPTY, n.log), LoggedWrite(n, r.clock, r);
    ReplayTwo(c.maxTasks, EMPTY, n.log, TaskEntry(r), ClockEntry(r.clock));
    IncrementAbove(n.clock, c.id);
    MergeAbsorbs(n.clock, r.clock);
    SameTaskMirrors(n.tasks[id], s.tasks[id]);
    MirrorBelowPending(n.tasks[id], s.tasks[id], r);
    JoinIsAbove(s.tasks[id], r);
    PendingMirrorsOnlyItself(r, Join(s.tasks[id], r));
    var s' := Replica(s.tasks[id := Join(s.tasks[id], r)], r.clock);
    assert Replay(c.maxTasks, EMPTY, n'.log) == s';
    if Mirrors(r, s'.tasks[id]) {
      forall i | i in n'.tasks ensures Mirrors(n'.tasks[i], s'.tasks[i]) {}
    }
    IncrementAbove(r.clock, c.id);
    LoggedWriteFiled(c, n, r.clock, r);
    UpdateSize(n.tasks, id, r);
  }

  lemma SameTaskMirrors(live: TaskRecord, recovered: TaskRecord)
    requires Mirrors(live, recovered)
    ensures recovered.taskId == live.taskId
  {}

  lemma PendingMirrorsOnlyItself(r: TaskRecord, recovered: TaskRecord)
    requires r.state == PENDING
    ensures Mirrors(r, recovered) <==> recovered == r
  {}

  /**
    And it keeps the log a faithful copy of the live state exactly when the new
    record's lattice key is not below the key of the record it overwrites.
   */
  lemma ResubmitRecoverableIffAbove(c: Config, n: NodeState, id: TaskId, payload: Bytes)
    requires NodeInv(c, n) && id in n.tasks && SubmitAccepted(c, n, id, payload)
    ensures Recoverable(c, Submit(c, n, id, payload)) <==>
            KeyLeq(Key(n.tasks[id]), Key(SubmittedRecord(c, Increment(n.clock, c.id), id, payload)))
  {
    hide KeyLeq, Key, NodeInv, Recoverable, Increment;
    OverwriteRecoverableIffAbove(c, n, SubmittedRecord(c, Increment(n.clock, c.id), id, payload));
  }

  /** A submission keeps the node invariant exactly when it is refused, brings a new id, or writes a key not below. */
  lemma SubmitKeepsInvIff(c: Config, n: NodeState, id: TaskId, payload: Bytes)
    requires NodeInv(c, n)
    ensures NodeInv(c, Submit(c, n, id, payload)) <==>
            || !SubmitAccepted(c, n, id, payload) || id !in n.tasks
            || KeyLeq(Key(n.tasks[id]), Key(SubmittedRecord(c, Increment(n.clock, c.id), id, payload)))
  {
    hide KeyLeq, Key, NodeInv, Recoverable, Increment;
    if id !in n.tasks {
      SubmitKeepsInv(c, n, id, payload);
    } else if SubmitAccepted(c, n, id, payload) {
      OverwriteRecoverableIffAbove(c, n, SubmittedRecord(c, Increment(n.clock, c.id), id, payload));
    }
  }

  lemma JoinIsAbove(a: TaskRecord, b: TaskRecord)
    requires a.taskId == b.taskId
    ensures Join(a, b) == b <==> Below(a, b)
  {
    JoinIsLeastUpperBound(a, b, b);
    if Below(a, b) { JoinAbsorbs(a, b); }
  }

  /** The unlogged RUNNING record and its logged CLAIMED form are below the same PENDING records. */
  lemma MirrorBelowPending(live: TaskRecord, recovered: TaskRecord, r: TaskRecord)
    requires Mirrors(live, recovered) && live.taskId == r.taskId && r.state == PENDING
    requires Leq(live.clock, r.clock)
    ensures Below(recovered, r) <==> KeyLeq(Key(live), Key(r))
  {
    KeyOrderIsPrecedence(live, r);
    KeyOrderIsPrecedence(recovered, r);
  }

  // ---------- A send that suspends ----------

  /** The RUNNING write of the worker, made on whatever the table holds when its broadcast returns. */
  function LateRunning(n: NodeState, claim: TaskRecord): NodeState {
    n.(tasks := n.tasks[claim.taskId := claim.(state := RUNNING, clock := n.clock)])
  }

  /**
    Had the broadcast suspended, the write would keep the record rising exactly
    when no terminal record and no higher token was merged in the meantime.
   */
  lemma LateRunningRisesIffUndisturbed(n: NodeState, claim: TaskRecord)
    requires claim.taskId in n.tasks
    ensures Rises(n.tasks[claim.taskId], LateRunning(n, claim).tasks[claim.taskId]) <==>
            !n.tasks[claim.taskId].state.Terminal() && TokenLeq(n.tasks[claim.taskId].token, claim.token)
  {}

  lemma MirrorsLate(live: TaskRecord, recovered: TaskRecord, claim: TaskRecord, clock: Clock)
    requires Mirrors(live, recovered)
    ensures Mirrors(claim.(state := RUNNING, clock := clock), recovered) <==>
            Held(live) && live.(state := CLAIMED) == claim.(state := CLAIMED, clock := clock)
  {}

  /**
    And it would keep the log a faithful copy exactly when the table still holds
    the claim, stamped with the clock the node has by then: the RUNNING record is
    not logged, so whatever else it carries is lost.
   */
  lemma LateRunningSoundIffUndisturbed(c: Config, n: NodeState, claim: TaskRecord)
    requires NodeInv(c, n) && claim.taskId in n.tasks
    ensures NodeInv(c, LateRunning(n, claim)) <==>
            && Held(n.tasks[claim.taskId])
            && n.tasks[claim.taskId].(state := CLAIMED) == claim.(state := CLAIMED, clock := n.clock)
  {
    hide Replay, Mirrors, Held;
    var id, late := claim.taskId, LateRunning(n, claim);
    var s, live, running := Replay(c.maxTasks, EMPTY, n.log), n.tasks[id], late.tasks[id];
    IncrementAbove(n.clock, c.id);
    UpdateSize(n.tasks, id, running);
    MirrorsLate(live, s.tasks[id], claim, n.clock);
    if Mirrors(running, s.tasks[id]) {
      forall k | k in late.tasks ensures Mirrors(late.tasks[k], s.tasks[k]) {
        assert k != id ==> Mirrors(n.tasks[k], s.tasks[k]);
      }
    }
  }

  /**
    For instance: gossip about another task that raises the node's clock during the
    broadcast leaves the claim in place and the record rising, and the late write
    still cannot be rebuilt from the log.
   */
  lemma GossipDuringBroadcastLosesTheLog(c: Config, n: NodeState, claim: TaskRecord, r: TaskRecord)
    requires NodeInv(c, n) && claim.taskId in n.tasks && n.tasks[claim.taskId] == claim && claim.state == CLAIMED
    requires claim.clock == n.clock && r.taskId != claim.taskId
    requires ReceiveAccepted(c, n, r.taskId, r) && !Leq(r.clock, n.clock)
    ensures var n' := Receive(c, n, r.taskId, r);
            && n'.tasks[claim.taskId] == claim && NodeInv(c, n')
            && Rises(claim, LateRunning(n', claim).tasks[claim.taskId])
            && !Recoverable(c, LateRunning(n', claim))
  {
    hide NodeInv, Join;
    var n' := Receive(c, n, r.taskId, r);
    ReceiveKeepsInv(c, n, r.taskId, r);
    MergeIsLeastUpperBound(n.clock, r.clock, n.clock);
    LeqReflexive(n.clock);
    assert n'.clock != claim.clock;
    LateRunningSoundIffUndisturbed(c, n', claim);
    LateRunningInvIffRecoverable(c, n', claim);
    TokenLeqReflexive(claim.token);
  }

  lemma LateRunningInvIffRecoverable(c: Config, n: NodeState, claim: TaskRecord)
    requires NodeInv(c, n) && claim.taskId in n.tasks
    ensures NodeInv(c, LateRunning(n, claim)) <==> Recoverable(c, LateRunning(n, claim))
  {
    hide Recoverable;
    IncrementAbove(n.clock, c.id);
    UpdateSize(n.tasks, claim.taskId, LateRunning(n, claim).tasks[claim.taskId]);
  }

  /** The reset of the reclaim audit, built from the record of its snapshot and written whatever the table holds by then. */
  function LateReset(c: Config, n: NodeState, old_: TaskRecord): TaskRecord {
    TaskRecord(old_.taskId, PENDING, old_.payload, None, None, None, old_.token.NextFor(c.id), 0.0,
               Increment(n.clock, c.id), c.id, None, None)
  }

  /**
    Had an earlier send of the audit suspended, a reset would keep the record
    rising exactly when no terminal record and no token above the new one was
    merged in the meantime; and the log faithful exactly when its key is not below.
    The two agree unless the new token is in the table already.
   */
  lemma LateResetSoundIffUndisturbed(c: Config, n: NodeState, old_: TaskRecord)
    requires NodeInv(c, n) && old_.taskId in n.tasks
    ensures var live, r := n.tasks[old_.taskId], LateReset(c, n, old_);
            var n' := LoggedWrite(n, r.clock, r);
            && (Rises(live, n'.tasks[r.taskId]) <==> !live.state.Terminal() && TokenLeq(live.token, r.token))
            && (NodeInv(c, n') <==> KeyLeq(Key(live), Key(r)))
            && (live.token != r.token ==> (NodeInv(c, n') <==> Rises(live, r)))
  {
    hide NodeInv, Increment, KeyLeq, Key;
    var live, r := n.tasks[old_.taskId], LateReset(c, n, old_);
    OverwriteRecoverableIffAbove(c, n, r);
    KeyOrderIsPrecedence(live, r);
  }

  // ---------- The instant of expiry ----------

  const RACE := Setup(map["a" := Config("a", 1, true), "b" := Config("b", 1, false)])

  lemma RunSnoc(S: Setup, steps: seq<Step>, s: Step)
    ensures Run(S, steps + [s]) == Apply(S, Run(S, steps), s)
  {
    assert (steps + [s])[..|steps|] == steps;
  }

  const SUBMIT := At("a", Submitting("t", []))
  const CLAIM := At("a", Claiming("t", 1.0, false))
  const RECLAIM := Reclaiming("t", true, true)

  /** `a` runs the task under the claim `r`, whose lease lasts until one second. */
  ghost predicate Underway(m: MeshState, r: TaskRecord) {
    && m.nodes.Keys == {"a", "b"} && r in m.network
    && r.taskId == "t" && r.state == CLAIMED && r.claimedBy == Some("a") && r.leaseExpiry == 1.0
    && m.nodes["a"].tasks == map["t" := r.(state := RUNNING)]
    && m.nodes["a"].running == Some(Execution("t", r.payload, r.token, 1.0))
  }

  lemma SubmittedRun()
    ensures var m := Run(RACE, [SUBMIT]);
            && m.nodes.Keys == {"a", "b"} && m.now == 0.0
            && m.nodes["a"].tasks.Keys == {"t"} && m.nodes["a"].running.None?
            && m.nodes["a"].tasks["t"].state == PENDING && m.nodes["b"].tasks == map[]
  {
    hide Increment, Recorded;
    RunSnoc(RACE, [], SUBMIT);
    assert [] + [SUBMIT] == [SUBMIT];
  }

  lemma ClaimedRun() returns (r: TaskRecord)
    ensures var m := Run(RACE, [SUBMIT, CLAIM]);
            Underway(m, r) && m.now == 0.0 && m.nodes["b"].tasks == map[]
  {
    hide Run, Increment, Recorded;
    SubmittedRun();
    RunSnoc(RACE, [SUBMIT], CLAIM);
    assert [SUBMIT] + [CLAIM] == [SUBMIT, CLAIM];
    var m := Run(RACE, [SUBMIT]);
    r := ClaimRecord(RACE.peers["a"], m.nodes["a"], "t", 1.0);
    assert Sent(RACE.peers["a"], m.nodes["a"], 0.0, CLAIM.action) == Some(r);
    assert m.nodes["a"].tasks["t" := r.(state := RUNNING)] == map["t" := r.(state := RUNNING)];
  }

  lemma ClaimHeard(m: MeshState, r: TaskRecord)
    requires Underway(m, r) && m.nodes["b"].tasks == map[]
    ensures var heard := Apply(RACE, m, At("b", Receiving(r)));
            Underway(heard, r) && heard.now == m.now && heard.nodes["b"].tasks == map["t" := r]
  {
    hide Merge, Recorded;
  }

  lemma ResetAtExpiry(m: MeshState, r: TaskRecord)
    requires Underway(m, r) && m.nodes["b"].tasks == map["t" := r] && m.now == 1.0
    ensures Issues(RACE.peers["b"], m.nodes["b"], m.now, RECLAIM).Some?
    ensures Underway(Apply(RACE, m, At("b", RECLAIM)), r) && Apply(RACE, m, At("b", RECLAIM)).now == 1.0
  {
    hide Increment, Recorded;
  }

  lemma CommitAtExpiry(m: MeshState, r: TaskRecord)
    requires Underway(m, r) && m.now == 1.0
    ensures var commit := Sent(RACE.peers["a"], m.nodes["a"], m.now, Finishing(Success([])));
            commit.Some? && Key1(commit.value) == Key1(r)
  {
    hide Increment;
    TokenLeqReflexive(r.token);
  }

  /**
    Lease safety needs the clock to be strictly past the expiry. At the very
    instant of expiry one peer may reset the task and the holder may still commit
    under the old token, as this run does.
   */
  lemma AtExpiryBothMayAct() returns (steps: seq<Step>, r: TaskRecord)
    ensures var m, m' := Run(RACE, steps), Run(RACE, steps + [At("b", RECLAIM)]);
            && m.nodes.Keys == m'.nodes.Keys == {"a", "b"}
            && Held(r) && r in m.network && m.now == m'.now == r.leaseExpiry
            && Issues(RACE.peers["b"], m.nodes["b"], m.now, RECLAIM).Some?
            && var commit := Sent(RACE.peers["a"], m'.nodes["a"], m'.now, Finishing(Success([])));
            commit.Some? && Key1(commit.value) == Key1(r)
  {
    hide Run, Issues, Sent, NodeStep, Recorded, Allowed;
    r := ClaimedRun();
    var claimed, hear, wait := [SUBMIT, CLAIM], At("b", Receiving(r)), Tick(1.0);
    steps := claimed + [hear] + [wait];
    RunSnoc(RACE, claimed, hear);
    RunSnoc(RACE, claimed + [hear], wait);
    RunSnoc(RACE, steps, At("b", RECLAIM));
    ClaimHeard(Run(RACE, claimed), r);
    ResetAtExpiry(Run(RACE, steps), r);
    CommitAtExpiry(Run(RACE, steps + [At("b", RECLAIM)]), r);
  }
}
