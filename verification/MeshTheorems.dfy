/**
  What holds over whole runs of the mesh: recovery rebuilds the live state,
  tokens are never reused, terminal records are absorbing, and an expired lease
  can no longer commit.
 */
module MeshTheorems {
  import opened Orders
  import opened Octets
  import opened VectorClocks
  import opened Consensus
  import opened NodeSpec
  import opened Mesh
  import opened MeshInvariant

  // ---------- Crash recovery ----------

  /**
    After every step of every run, replaying a node's log rebuilds its clock and its
    table exactly, except that a record whose last write was RUNNING comes back as
    the CLAIMED record with the same token and lease.
   */
  lemma RecoveryRebuildsLiveState(S: Setup, steps: seq<Step>, p: PeerId)
    requires ValidSetup(S) && p in S.peers
    ensures p in Run(S, steps).nodes
    ensures var n := Run(S, steps).nodes[p];
            var s := Replay(S.peers[p].maxTasks, EMPTY, n.log);
            && s.clock == n.clock
            && s.tasks.Keys == n.tasks.Keys
            && forall id :: id in n.tasks ==>
                 s.tasks[id] == n.tasks[id] ||
                 (n.tasks[id].state == RUNNING && s.tasks[id] == n.tasks[id].(state := CLAIMED))
  {
    hide Run, TableOk, ExecutionOk, OwnTokensOk, Replay;
    InvAlways(S, steps);
    var n := Run(S, steps).nodes[p];
    assert NodeOk(S, Run(S, steps).issued, p, n);
  }

  // ---------- Tokens ----------

  /** Every place a record can be: in flight, in a table, or in what a restart would rebuild. */
  ghost predicate Anywhere(S: Setup, m: MeshState, r: TaskRecord) {
    || r in m.network
    || (exists p :: p in m.nodes && InTable(m.nodes[p], r))
    || (exists p :: p in m.nodes && p in S.peers && InTable(Restart(S.peers[p], m.nodes[p]), r))
  }

  ghost predicate InTable(n: NodeState, r: TaskRecord) { r.taskId in n.tasks && n.tasks[r.taskId] == r }

  lemma AnywhereExplained(S: Setup, m: MeshState, r: TaskRecord)
    requires Inv(S, m) && Anywhere(S, m, r)
    ensures Explained(S, m.issued, r)
  {
    hide Explained, NodeInv, ExecutionOk, OwnTokensOk, HistoryOk, Restart;
    if p :| p in m.nodes && InTable(m.nodes[p], r) {
      assert NodeOk(S, m.issued, p, m.nodes[p]);
    } else if p :| p in m.nodes && p in S.peers && InTable(Restart(S.peers[p], m.nodes[p]), r) {
      RestartOk(S, m.issued, p, m.nodes[p]);
    }
  }

  /** The record by which step `a` at `p` issues a token: a claim or a reset, torn by a crash or not. */
  function Issues(c: Config, n: NodeState, now: real, a: Action): Option<TaskRecord> {
    var w := Intent(a);
    if w.Claiming? || w.Reclaiming? then OwnWrite(c, n, now, w) else None
  }

  /**
    A claim or reset takes a token that no record anywhere carries, and that lies
    strictly above every token this node issued for the task before.
   */
  lemma TokensNeverReused(S: Setup, steps: seq<Step>, p: PeerId, a: Action)
    requires ValidSetup(S) && p in S.peers
    ensures var m := Run(S, steps);
            && p in m.nodes
            && var issue := Issues(S.peers[p], m.nodes[p], m.now, a);
            issue.Some? ==>
              && issue.value.token.peer == p
              && Key1(issue.value) !in m.issued
              && (forall k :: k in m.issued && k.0 == issue.value.taskId && k.1.peer == p
                    ==> k.1.epoch < issue.value.token.epoch)
              && (forall r :: Anywhere(S, m, r) ==> Key1(r) != Key1(issue.value))
  {
    hide Run, NodeInv, TableOk, ExecutionOk, HistoryOk, Anywhere, Explained;
    var m := Run(S, steps);
    InvAlways(S, steps);
    assert NodeOk(S, m.issued, p, m.nodes[p]);
    var issue := Issues(S.peers[p], m.nodes[p], m.now, a);
    if issue.Some? {
      TokenFresh(m.issued, p, m.nodes[p], Intent(a).id);
      forall r | Anywhere(S, m, r) ensures Key1(r) != Key1(issue.value) {
        AnywhereExplained(S, m, r);
        ExplainedIssued(S, m.issued, r);
      }
    }
  }

  lemma ExplainedIssued(S: Setup, i: map<TokenKey, Origin>, r: TaskRecord)
    requires Explained(S, i, r)
    ensures r.token.epoch > 0 ==> Key1(r) in i
  {}

  /**
    Two records anywhere with the same positive token come from one claim or one
    reset: in the same state they are equal up to clocks, and two terminal ones
    always agree on state, result and error.
   */
  lemma SameTokenSameClaim(S: Setup, steps: seq<Step>, a: TaskRecord, b: TaskRecord)
    requires ValidSetup(S)
    requires Anywhere(S, Run(S, steps), a) && Anywhere(S, Run(S, steps), b)
    requires Key1(a) == Key1(b) && a.token.epoch > 0
    ensures a.payload == b.payload && a.claimedBy == b.claimedBy
    ensures a.updatedBy == b.updatedBy == a.token.peer
    ensures a.state == b.state ==> a == b.(clock := a.clock)
    ensures a.state.Terminal() && b.state.Terminal() ==> a.state == b.state && a.result == b.result && a.error == b.error
    ensures Held(a) && Held(b) ==> a.leaseExpiry == b.leaseExpiry
  {
    hide Run, Anywhere, Inv;
    InvAlways(S, steps);
    AnywhereExplained(S, Run(S, steps), a);
    AnywhereExplained(S, Run(S, steps), b);
  }

  // ---------- Monotone progress ----------

  lemma ApplyRises(S: Setup, m: MeshState, s: Step, p: PeerId)
    requires ValidSetup(S) && Inv(S, m) && p in m.nodes
    ensures p in Apply(S, m, s).nodes && TableRises(m.nodes[p], Apply(S, m, s).nodes[p])
  {
    hide TableRises, NodeOk, HistoryOk, Explained, Allowed, NodeStep, Sent, Recorded;
    TableRisesReflexive(m.nodes[p], m.nodes[p]);
    if s.At? && s.p == p && Allowed(m.network, m.nodes[p], s.action) {
      StepRises(S, m.issued, m.network, p, m.nodes[p], m.now, s.action);
    }
  }

  /**
    Per node over any stretch of any run: a terminal record stays terminal, its
    token never falls, and a record that is still live never carries a lower token.
   */
  lemma {:induction false} TerminalIsAbsorbing(S: Setup, steps: seq<Step>, k: nat, p: PeerId, id: TaskId)
    requires ValidSetup(S) && p in S.peers && k <= |steps|
    requires p in Run(S, steps[..k]).nodes && id in Run(S, steps[..k]).nodes[p].tasks
    ensures p in Run(S, steps).nodes && id in Run(S, steps).nodes[p].tasks
    ensures var a, b := Run(S, steps[..k]).nodes[p].tasks[id], Run(S, steps).nodes[p].tasks[id];
            && (a.state.Terminal() ==> b.state.Terminal() && TokenLeq(a.token, b.token))
            && (!b.state.Terminal() ==> TokenLeq(a.token, b.token))
    decreases |steps|
  {
    hide Inv, Apply;
    if k == |steps| {
      assert steps[..k] == steps;
      RisesReflexive(Run(S, steps).nodes[p].tasks[id]);
    } else {
      var prefix := steps[..|steps| - 1];
      assert prefix[..k] == steps[..k];
      TerminalIsAbsorbing(S, prefix, k, p, id);
      InvAlways(S, prefix);
      ApplyRises(S, Run(S, prefix), steps[|steps| - 1], p);
      RisesTransitive(Run(S, steps[..k]).nodes[p].tasks[id], Run(S, prefix).nodes[p].tasks[id],
                      Run(S, steps).nodes[p].tasks[id]);
    }
  }

  // ---------- Lease safety ----------

  lemma HistoryGrowsTransitive(i: map<TokenKey, Origin>, j: map<TokenKey, Origin>, k: map<TokenKey, Origin>)
    requires HistoryGrows(i, j) && HistoryGrows(j, k)
    ensures HistoryGrows(i, k)
  {
    forall x | x in i ensures x in k && OriginGrows(i[x], k[x]) {
      assert OriginGrows(i[x], j[x]);
    }
  }

  lemma ApplyGrows(S: Setup, m: MeshState, s: Step)
    requires ValidSetup(S) && Inv(S, m)
    ensures m.now <= Apply(S, m, s).now && HistoryGrows(m.issued, Apply(S, m, s).issued)
  {
    hide NodeOk, HistoryOk, Explained, NodeStep, Sent, Recorded, HistoryGrows;
    HistoryReflexive(m.issued, "");
    if s.At? && s.p in m.nodes && Allowed(m.network, m.nodes[s.p], s.action) {
      ActionOk(S, m.issued, m.network, s.p, m.nodes[s.p], m.now, s.action);
    }
  }

  /** Time and history only move forward. */
  lemma {:induction false} RunGrows(S: Setup, steps: seq<Step>, k: nat)
    requires ValidSetup(S) && k <= |steps|
    ensures Run(S, steps[..k]).now <= Run(S, steps).now
    ensures HistoryGrows(Run(S, steps[..k]).issued, Run(S, steps).issued)
    decreases |steps|
  {
    hide Inv, Apply, HistoryGrows;
    if k == |steps| {
      assert steps[..k] == steps;
      HistoryReflexive(Run(S, steps).issued, "");
    } else {
      var prefix := steps[..|steps| - 1];
      assert prefix[..k] == steps[..k];
      RunGrows(S, prefix, k);
      InvAlways(S, prefix);
      ApplyGrows(S, Run(S, prefix), steps[|steps| - 1]);
      HistoryGrowsTransitive(Run(S, steps[..k]).issued, Run(S, prefix).issued, Run(S, steps).issued);
    }
  }

  /** The lease of a held record is the lease its token was claimed with. */
  lemma HeldUnderClaim(S: Setup, issued: map<TokenKey, Origin>, r: TaskRecord)
    requires Explained(S, issued, r) && Held(r)
    ensures Key1(r) in issued && issued[Key1(r)].Claimed? && issued[Key1(r)].lease == r.leaseExpiry
  {}

  /** A commit is written only under a claim whose lease has not run out. */
  lemma CommitsInLease(c: Config, issued: map<TokenKey, Origin>, p: PeerId, n: NodeState, now: real, o: Outcome)
    requires ExecutionOk(issued, p, n) && OwnWrite(c, n, now, Finishing(o)).Some?
    ensures var commit := OwnWrite(c, n, now, Finishing(o)).value;
            Key1(commit) in issued && issued[Key1(commit)].Claimed? && now <= issued[Key1(commit)].lease
  {}

  /**
    Lease safety. Once the clock has passed the expiry of a held record that was
    anywhere at any earlier point, no node commits a result under that record's
    token, in a whole step or in one torn by a crash.
   */
  lemma ExpiredLeaseNeverCommits(S: Setup, steps: seq<Step>, k: nat, r: TaskRecord, p: PeerId, a: Action)
    requires ValidSetup(S) && k <= |steps| && p in S.peers && Intent(a).Finishing?
    requires Anywhere(S, Run(S, steps[..k]), r) && Held(r) && Run(S, steps).now > r.leaseExpiry
    ensures var m := Run(S, steps);
            && p in m.nodes
            && var commit := OwnWrite(S.peers[p], m.nodes[p], m.now, Intent(a));
            commit.Some? ==> Key1(commit.value) != Key1(r)
  {
    hide Run, Anywhere, NodeInv, TableOk, OwnTokensOk, HistoryOk, ExecutionOk, Explained, OwnWrite;
    var m0, m := Run(S, steps[..k]), Run(S, steps);
    InvAlways(S, steps[..k]);
    AnywhereExplained(S, m0, r);
    HeldUnderClaim(S, m0.issued, r);
    InvAlways(S, steps);
    RunGrows(S, steps, k);
    assert NodeOk(S, m.issued, p, m.nodes[p]);
    if OwnWrite(S.peers[p], m.nodes[p], m.now, Intent(a)).Some? {
      CommitsInLease(S.peers[p], m.issued, p, m.nodes[p], m.now, Intent(a).outcome);
      assert OriginGrows(m0.issued[Key1(r)], m.issued[Key1(r)]);
    }
  }

  // ---------- Taking a task from its holder ----------

  /** A step that takes a task over from its holder: a reset, or a claim made without suspecting anyone. */
  predicate TakesOver(c: Config, n: NodeState, now: real, w: Action) {
    (w.Reclaiming? || (w.Claiming? && !w.suspected)) && OwnWrite(c, n, now, w).Some?
  }

  /** The record under a takeover is overdue, if another peer holds it. A reset is only ever over such a record. */
  lemma TakeoverOverdue(S: Setup, issued: map<TokenKey, Origin>, p: PeerId, n: NodeState, now: real, w: Action)
    requires p in S.peers && S.peers[p].id == p && NodeOk(S, issued, p, n) && TakesOver(S.peers[p], n, now, w)
    ensures w.id in n.tasks
    ensures var r := n.tasks[w.id];
            && r.taskId == w.id && r.state != DONE && r.state != FAILED
            && (w.Reclaiming? ==> r.state != PENDING && r.claimedBy != Some(p))
            && (r.state != PENDING ==> r.claimedBy.Some?)
            && (r.state != PENDING && r.claimedBy != Some(p) ==> r.leaseExpiry <= now)
  {
    hide NodeInv, OwnTokensOk, ExecutionOk;
    var r := n.tasks[w.id];
    assert Explained(S, issued, r);
    FiledAt(S.peers[p], n, w.id);
  }

  /**
    Lease safety of the reset and of an unsuspecting claim, with no hypothesis on
    the lease: the task was PENDING or the node's own, or held by another peer;
    and in that case, once the clock has moved on from the takeover, nobody ever
    commits under the token that was taken over.
   */
  lemma TakeoverIsLeaseSafe(S: Setup, steps: seq<Step>, k: nat, p: PeerId, a: Action, q: PeerId, b: Action)
    requires ValidSetup(S) && k < |steps| && steps[k] == At(p, a) && p in S.peers && p in Run(S, steps[..k]).nodes
    requires TakesOver(S.peers[p], Run(S, steps[..k]).nodes[p], Run(S, steps[..k]).now, Intent(a))
    requires q in S.peers && Intent(b).Finishing?
    ensures var m, m' := Run(S, steps[..k]), Run(S, steps);
            && Intent(a).id in m.nodes[p].tasks && q in m'.nodes
            && var r := m.nodes[p].tasks[Intent(a).id];
            && (Intent(a).Reclaiming? ==> (r.state == CLAIMED || r.state == RUNNING) && r.claimedBy.Some? && r.claimedBy.value != p)
            && (r.state != PENDING && r.claimedBy != Some(p) && m'.now > m.now ==>
                  var commit := OwnWrite(S.peers[q], m'.nodes[q], m'.now, Intent(b));
                  commit.Some? ==> Key1(commit.value) != Key1(r))
  {
    hide Run, NodeInv, TableOk, OwnTokensOk, HistoryOk, ExecutionOk, OwnWrite, Explained, Anywhere, NodeOk;
    var m, m' := Run(S, steps[..k]), Run(S, steps);
    InvAlways(S, steps[..k]);
    InvAlways(S, steps);
    TakeoverOverdue(S, m.issued, p, m.nodes[p], m.now, Intent(a));
    var r := m.nodes[p].tasks[Intent(a).id];
    if r.state != PENDING && r.claimedBy != Some(p) && m'.now > m.now {
      InTableAnywhere(S, m, p, r);
      ExpiredLeaseNeverCommits(S, steps, k, r, q, b);
    }
  }

  lemma InTableAnywhere(S: Setup, m: MeshState, p: PeerId, r: TaskRecord)
    requires p in m.nodes && r.taskId in m.nodes[p].tasks && m.nodes[p].tasks[r.taskId] == r
    ensures Anywhere(S, m, r)
  {
    hide Restart;
    assert InTable(m.nodes[p], r);
  }

  /**
    The other half: an audited record that another peer holds and that is overdue,
    with a suspected holder and this node elected, is released, under a token above
    the holder's; and any other record is left alone.
   */
  lemma OverdueIsReleased(c: Config, n: NodeState, now: real, id: TaskId, suspected: bool, elected: bool)
    requires !c.hasWorker && id in n.tasks
    ensures var r, w := n.tasks[id], OwnWrite(c, n, now, Reclaiming(id, suspected, elected));
            && (w.Some? <==>
                 && (r.state == CLAIMED || r.state == RUNNING) && r.claimedBy != Some(c.id)
                 && now >= r.leaseExpiry && suspected && elected)
            && (w.Some? ==>
                 && w.value.taskId == id && w.value.state == PENDING && w.value.payload == r.payload
                 && w.value.claimedBy.None? && w.value.token == FenceToken(r.token.epoch + 1, c.id)
                 && NodeStep(c, n, now, Reclaiming(id, suspected, elected)).tasks == n.tasks[id := w.value])
            && (w.None? ==> NodeStep(c, n, now, Reclaiming(id, suspected, elected)) == n)
  {
    hide Increment;
  }

  /** A free worker claims a known task exactly when it is PENDING, its own, overdue, or of a suspected holder. */
  lemma FreeTaskIsClaimed(c: Config, n: NodeState, now: real, id: TaskId, duration: real, suspected: bool)
    ensures var w := OwnWrite(c, n, now, Claiming(id, duration, suspected));
            && (w.Some? <==>
                 && n.running.None? && id in n.tasks
                 && match n.tasks[id].state
                    case PENDING => true
                    case DONE => false
                    case FAILED => false
                    case _ => n.tasks[id].claimedBy == Some(c.id) || now >= n.tasks[id].leaseExpiry || suspected)
            && (w.Some? ==>
                 && w.value.payload == n.tasks[id].payload && w.value.state == CLAIMED && w.value.claimedBy == Some(c.id)
                 && w.value.token == FenceToken(n.tasks[id].token.epoch + 1, c.id)
                 && w.value.leaseExpiry == now + duration)
  {
    hide Increment;
  }

  // ---------- From a claim to its commit ----------

  lemma ClaimRecorded(S: Setup, steps: seq<Step>, k: nat, p: PeerId, a: Action)
    requires ValidSetup(S) && k < |steps| && steps[k] == At(p, a) && p in S.peers && p in Run(S, steps[..k]).nodes
    requires Intent(a).Claiming?
    requires OwnWrite(S.peers[p], Run(S, steps[..k]).nodes[p], Run(S, steps[..k]).now, Intent(a)).Some?
    ensures var m := Run(S, steps[..k]);
            var r := OwnWrite(S.peers[p], m.nodes[p], m.now, Intent(a)).value;
            var issued := Run(S, steps[..k + 1]).issued;
            Key1(r) in issued && issued[Key1(r)] == Claimed(r.payload, r.leaseExpiry, None)
  {
    hide NodeStep, Sent, OwnWrite;
    var m := Run(S, steps[..k]);
    assert steps[..k + 1][..k] == steps[..k] && steps[..k + 1][k] == At(p, a);
    assert Run(S, steps[..k + 1]) == Apply(S, m, At(p, a));
    if a.Tearing? { assert Allowed(m.network, m.nodes[p], a.write); }
  }

  /**
    A worker that claimed a task at some step for some duration, and is still at it:
    its handler was given the task's payload; and it commits exactly when that
    duration is not over and no higher token is known, with the outcome as it was
    returned, under the payload and the token of the claim.
   */
  lemma WorkIsCommitted(S: Setup, steps: seq<Step>, k: nat, p: PeerId, id: TaskId, duration: real, suspected: bool, o: Outcome)
    requires ValidSetup(S) && k < |steps| && steps[k] == At(p, Claiming(id, duration, suspected)) && p in S.peers
    requires p in Run(S, steps[..k]).nodes && p in Run(S, steps).nodes
    requires ClaimAccepted(S.peers[p], Run(S, steps[..k]).nodes[p], id, Run(S, steps[..k]).now, suspected)
    requires var n := Run(S, steps).nodes[p];
             && n.running.Some? && n.running.value.taskId == id
             && n.running.value.token == Run(S, steps[..k]).nodes[p].tasks[id].token.NextFor(p)
    ensures var m, m' := Run(S, steps[..k]), Run(S, steps);
            var n, task := m'.nodes[p], m.nodes[p].tasks[id];
            var commit := OwnWrite(S.peers[p], n, m'.now, Finishing(o));
            && n.running.value.payload == task.payload && id in n.tasks
            && (commit.Some? <==> m'.now <= m.now + duration && TokenLeq(n.tasks[id].token, n.running.value.token))
            && (commit.Some? ==>
                 && commit.value.taskId == id && commit.value.payload == task.payload
                 && commit.value.token == FenceToken(task.token.epoch + 1, p) && commit.value.claimedBy == Some(p)
                 && (o.Success? ==> commit.value.state == DONE && commit.value.result == Some(o.result) && commit.value.error.None?)
                 && (o.Failure? ==> commit.value.state == FAILED && commit.value.result.None? && commit.value.error == Some(o.error)))
  {
    hide Run, NodeInv, TableOk, OwnTokensOk, HistoryOk, Explained, Increment, HistoryGrows;
    var m, m', a := Run(S, steps[..k]), Run(S, steps), Claiming(id, duration, suspected);
    var r := OwnWrite(S.peers[p], m.nodes[p], m.now, a).value;
    InvAlways(S, steps[..k]);
    assert m.nodes[p].tasks[id].taskId == id by {
      assert NodeOk(S, m.issued, p, m.nodes[p]);
      FiledAt(S.peers[p], m.nodes[p], id);
    }
    ClaimRecorded(S, steps, k, p, a);
    RunGrows(S, steps, k + 1);
    GrownClaim(Run(S, steps[..k + 1]).issued, m'.issued, Key1(r));
    InvAlways(S, steps);
    assert NodeOk(S, m'.issued, p, m'.nodes[p]);
  }

  lemma GrownClaim(i: map<TokenKey, Origin>, i': map<TokenKey, Origin>, key: TokenKey)
    requires HistoryGrows(i, i') && key in i && i[key].Claimed?
    ensures key in i' && i'[key].Claimed? && i'[key].payload == i[key].payload && i'[key].lease == i[key].lease
  {
    assert OriginGrows(i[key], i'[key]);
  }

  /** A whole claim, commit or reset is broadcast as it was logged, and any table record can be gossiped. */
  lemma WritesArePublished(S: Setup, m: MeshState, p: PeerId, a: Action)
    requires p in S.peers && p in m.nodes && Allowed(m.network, m.nodes[p], a) && !a.Submitting? && !a.Tearing?
    ensures var w, m' := OwnWrite(S.peers[p], m.nodes[p], m.now, a), Apply(S, m, At(p, a));
            && (w.Some? ==> w.value in m'.network && TaskEntry(w.value) in m'.nodes[p].log)
            && (a.Sending? && a.id in m.nodes[p].tasks ==> m.nodes[p].tasks[a.id] in m'.network)
            && m.network <= m'.network
  {
    hide Recorded, CommitAccepted, ReclaimDue, ClaimAccepted, Increment;
    var w := OwnWrite(S.peers[p], m.nodes[p], m.now, a);
    if w.Some? {
      OwnStep(S.peers[p], m.nodes[p], m.now, a);
      var log := NodeStep(S.peers[p], m.nodes[p], m.now, a).log;
      assert log[|m.nodes[p].log|] == TaskEntry(w.value);
    }
  }

  /** A received record is refused only by a full table that does not know it; otherwise all it says is kept. */
  lemma ReceivedIsKept(c: Config, n: NodeState, now: real, r: TaskRecord)
    requires NodeInv(c, n)
    ensures var n' := NodeStep(c, n, now, Receiving(r));
            if r.taskId !in n.tasks && |n.tasks| >= c.maxTasks then n' == n
            else
              && r.taskId in n'.tasks && Below(r, n'.tasks[r.taskId]) && Leq(r.clock, n'.clock)
              && (r.taskId !in n.tasks ==> n'.tasks[r.taskId] == r)
  {
    hide Below, Leq, Merge, Join, Recoverable;
    MergeIsLeastUpperBound(n.clock, r.clock, n.clock);
    if r.taskId in n.tasks {
      FiledAt(c, n, r.taskId);
      JoinIsLeastUpperBound(n.tasks[r.taskId], r, r);
    } else {
      BelowReflexive(r);
    }
  }
}
