/**
  Where the contents of records come from: every payload was submitted, every
  result and error was returned by a handler, and each state has its shape.
 */
module Provenance {
  import opened Orders
  import opened Octets
  import opened VectorClocks
  import opened Consensus
  import opened NodeSpec
  import opened Mesh
  import opened MeshInvariant
  import opened MeshTheorems

  // ---------- Payloads ----------

  /** Some step of the run submitted the payload under the id, whether a crash tore its write or not. */
  ghost predicate Given(steps: seq<Step>, id: TaskId, payload: Bytes) {
    exists k :: 0 <= k < |steps| && steps[k].At? && Intent(steps[k].action) == Submitting(id, payload)
  }

  ghost predicate RecordGiven(steps: seq<Step>, r: TaskRecord) { Given(steps, r.taskId, r.payload) }

  ghost predicate NodeGiven(steps: seq<Step>, n: NodeState) {
    && (forall id :: id in n.tasks ==> RecordGiven(steps, n.tasks[id]))
    && (n.running.Some? ==> Given(steps, n.running.value.taskId, n.running.value.payload))
  }

  ghost predicate AllGiven(steps: seq<Step>, m: MeshState) {
    && (forall p :: p in m.nodes ==> NodeGiven(steps, m.nodes[p]))
    && (forall r :: r in m.network ==> RecordGiven(steps, r))
  }

  lemma GivenLater(steps: seq<Step>, s: Step, id: TaskId, payload: Bytes)
    requires Given(steps, id, payload)
    ensures Given(steps + [s], id, payload)
  {
    var k :| 0 <= k < |steps| && steps[k].At? && Intent(steps[k].action) == Submitting(id, payload);
    assert (steps + [s])[k] == steps[k];
  }

  lemma NodeGivenLater(steps: seq<Step>, s: Step, n: NodeState)
    requires NodeGiven(steps, n)
    ensures NodeGiven(steps + [s], n)
  {
    hide Given;
    forall id | id in n.tasks ensures RecordGiven(steps + [s], n.tasks[id]) {
      GivenLater(steps, s, n.tasks[id].taskId, n.tasks[id].payload);
    }
    if n.running.Some? { GivenLater(steps, s, n.running.value.taskId, n.running.value.payload); }
  }

  /** An own write carries a payload that was given. */
  lemma OwnWriteGiven(steps: seq<Step>, c: Config, n: NodeState, now: real, w: Action)
    requires NodeInv(c, n) && NodeGiven(steps, n) && OwnWrite(c, n, now, w).Some?
    requires w.Submitting? ==> Given(steps, w.id, w.payload)
    ensures RecordGiven(steps, OwnWrite(c, n, now, w).value)
  {
    hide Given, Increment, Recoverable, CommitAccepted, Leq;
    if w.Claiming? || w.Reclaiming? { assert RecordGiven(steps, n.tasks[w.id]); }
  }

  lemma JoinGiven(steps: seq<Step>, a: TaskRecord, b: TaskRecord)
    requires a.taskId == b.taskId && RecordGiven(steps, a) && RecordGiven(steps, b)
    ensures RecordGiven(steps, Join(a, b))
  {
    hide Given, KeyLeq, Key;
  }

  /** A node that wrote one given record, and runs at most what it wrote. */
  lemma WriteGiven(steps: seq<Step>, n: NodeState, n': NodeState, r: TaskRecord)
    requires NodeGiven(steps, n) && RecordGiven(steps, r) && n'.tasks == n.tasks[r.taskId := r]
    requires n'.running.Some? ==> n'.running == n.running || (n'.running.value.taskId == r.taskId && n'.running.value.payload == r.payload)
    ensures NodeGiven(steps, n')
  {
    hide Given;
  }

  lemma RestartGiven(steps: seq<Step>, c: Config, n: NodeState)
    requires NodeInv(c, n) && NodeGiven(steps, n)
    ensures NodeGiven(steps, Restart(c, n))
  {
    hide Given, Replay, Filed;
    var n' := Restart(c, n);
    forall id | id in n'.tasks ensures RecordGiven(steps, n'.tasks[id]) {
      assert Mirrors(n.tasks[id], n'.tasks[id]);
      assert RecordGiven(steps, n.tasks[id]);
    }
  }

  /** What an own write leaves running, if anything. */
  lemma OwnWriteRuns(c: Config, n: NodeState, now: real, w: Action)
    requires OwnWrite(c, n, now, w).Some?
    ensures var r, n' := OwnWrite(c, n, now, w).value, NodeStep(c, n, now, w);
            && n'.tasks == n.tasks[r.taskId := n'.tasks[r.taskId]]
            && n'.tasks[r.taskId].taskId == r.taskId && n'.tasks[r.taskId].payload == r.payload
            && (n'.running.Some? ==>
                 n'.running == n.running || (n'.running.value.taskId == r.taskId && n'.running.value.payload == r.payload))
  {
    hide Increment, CommitAccepted, ReclaimDue;
  }

  lemma OwnStepGiven(steps: seq<Step>, c: Config, n: NodeState, now: real, w: Action)
    requires NodeInv(c, n) && NodeGiven(steps, n) && OwnWrite(c, n, now, w).Some?
    requires w.Submitting? ==> Given(steps, w.id, w.payload)
    ensures NodeGiven(steps, NodeStep(c, n, now, w))
  {
    hide Given, NodeInv, OwnWrite, NodeStep, NodeGiven;
    var r, n' := OwnWrite(c, n, now, w).value, NodeStep(c, n, now, w);
    OwnWriteGiven(steps, c, n, now, w);
    OwnWriteRuns(c, n, now, w);
    WriteGiven(steps, n, n', n'.tasks[r.taskId]);
  }

  lemma ReceiveGiven(steps: seq<Step>, c: Config, n: NodeState, r: TaskRecord)
    requires NodeInv(c, n) && NodeGiven(steps, n) && RecordGiven(steps, r)
    ensures NodeGiven(steps, Receive(c, n, r.taskId, r))
  {
    hide Given, NodeInv, Join, Merge;
    if ReceiveAccepted(c, n, r.taskId, r) {
      if r.taskId in n.tasks { JoinGiven(steps, n.tasks[r.taskId], r); }
      WriteGiven(steps, n, Receive(c, n, r.taskId, r), if r.taskId in n.tasks then Join(n.tasks[r.taskId], r) else r);
    }
  }

  /** Without an own write, and without a message, nothing is written. */
  lemma QuietStep(c: Config, n: NodeState, now: real, a: Action)
    requires !a.Receiving? && !a.Restarting? && OwnWrite(c, n, now, Intent(a)).None?
    ensures var n' := NodeStep(c, n, now, a); n'.tasks == n.tasks && (n'.running == n.running || n'.running.None?)
  {
    hide Increment, CommitAccepted, ReclaimDue, ClaimAccepted, SubmitAccepted;
  }

  lemma StepGiven(S: Setup, i: map<TokenKey, Origin>, network: set<TaskRecord>, steps: seq<Step>, p: PeerId, n: NodeState,
                  now: real, a: Action)
    requires p in S.peers && NodeOk(S, i, p, n) && Allowed(network, n, a) && NodeGiven(steps, n)
    requires forall r :: r in network ==> RecordGiven(steps, r)
    requires Intent(a).Submitting? ==> Given(steps, Intent(a).id, Intent(a).payload)
    ensures NodeGiven(steps, NodeStep(S.peers[p], n, now, a))
    ensures Sent(S.peers[p], n, now, a).Some? ==> RecordGiven(steps, Sent(S.peers[p], n, now, a).value)
  {
    hide Given, NodeInv, OwnWrite, TableOk, OwnTokensOk, ExecutionOk, Replay, TornWrite;
    var c, w := S.peers[p], Intent(a);
    if OwnWrite(c, n, now, w).Some? {
      NotReceived(c, n, now, w);
      OwnStepGiven(steps, c, n, now, w);
      OwnWriteGiven(steps, c, n, now, w);
      if a.Tearing? {
        OwnStepKeepsInv(S, i, network, p, n, now, w);
        RestartGiven(steps, c, NodeStep(c, n, now, w));
        TornIsRestart(S, i, network, p, n, now, w);
        TornIsSilent(c, n, now, a);
      }
    } else if a.Receiving? {
      ReceiveGiven(steps, c, n, a.record);
      SilentWithoutWrite(c, n, now, a);
    } else if a.Restarting? {
      RestartGiven(steps, c, n);
      SilentWithoutWrite(c, n, now, a);
    } else {
      QuietStep(c, n, now, a);
      SilentWithoutWrite(c, n, now, a);
    }
  }

  lemma NotReceived(c: Config, n: NodeState, now: real, w: Action)
    requires OwnWrite(c, n, now, w).Some?
    ensures !w.Receiving? && !w.Restarting? && !w.Sending? && !w.Tearing?
  {}

  lemma TornIsSilent(c: Config, n: NodeState, now: real, a: Action)
    requires a.Tearing?
    ensures Sent(c, n, now, a).None?
  {}

  lemma SilentWithoutWrite(c: Config, n: NodeState, now: real, a: Action)
    requires OwnWrite(c, n, now, Intent(a)).None?
    ensures Sent(c, n, now, a).Some? ==> a.Sending?
  {}

  /** After every step of every run, every payload in a table, in flight or in a worker's hands was submitted. */
  lemma {:induction false} PayloadsWereSubmitted(S: Setup, steps: seq<Step>)
    requires ValidSetup(S)
    ensures AllGiven(steps, Run(S, steps))
  {
    hide Given, NodeOk, HistoryOk, Explained, NodeStep, Sent, Recorded, NodeGiven;
    if steps == [] {
      NothingGiven();
    } else {
      var prefix, s := steps[..|steps| - 1], steps[|steps| - 1];
      assert steps == prefix + [s];
      PayloadsWereSubmitted(S, prefix);
      InvAlways(S, prefix);
      AllGivenLater(prefix, s, Run(S, prefix));
      ApplyGiven(S, steps, Run(S, prefix), s);
    }
  }

  lemma NothingGiven()
    ensures NodeGiven([], NodeState(map[], map[], [], None))
  {}

  lemma AllGivenLater(steps: seq<Step>, s: Step, m: MeshState)
    requires AllGiven(steps, m)
    ensures AllGiven(steps + [s], m)
  {
    hide Given, NodeGiven;
    forall p | p in m.nodes ensures NodeGiven(steps + [s], m.nodes[p]) { NodeGivenLater(steps, s, m.nodes[p]); }
    forall r | r in m.network ensures RecordGiven(steps + [s], r) { GivenLater(steps, s, r.taskId, r.payload); }
  }

  lemma ApplyGiven(S: Setup, steps: seq<Step>, m: MeshState, s: Step)
    requires ValidSetup(S) && Inv(S, m) && AllGiven(steps, m) && steps != [] && steps[|steps| - 1] == s
    ensures AllGiven(steps, Apply(S, m, s))
  {
    hide Given, NodeOk, HistoryOk, Explained, NodeStep, Sent, Recorded, NodeGiven, Allowed;
    if s.At? && s.p in S.peers && s.p in m.nodes && Allowed(m.network, m.nodes[s.p], s.action) {
      if Intent(s.action).Submitting? { GivenNow(steps, Intent(s.action).id, Intent(s.action).payload); }
      StepGiven(S, m.issued, m.network, steps, s.p, m.nodes[s.p], m.now, s.action);
    }
  }

  lemma GivenNow(steps: seq<Step>, id: TaskId, payload: Bytes)
    requires steps != [] && steps[|steps| - 1].At? && Intent(steps[|steps| - 1].action) == Submitting(id, payload)
    ensures Given(steps, id, payload)
  {}

  /** The same of every record anywhere, and of what a restart would rebuild. */
  lemma PayloadAnywhereWasSubmitted(S: Setup, steps: seq<Step>, r: TaskRecord)
    requires ValidSetup(S) && Anywhere(S, Run(S, steps), r)
    ensures Given(steps, r.taskId, r.payload)
  {
    hide Given, Run, Restart, TableOk, OwnTokensOk, ExecutionOk, HistoryOk, NodeInv;
    var m := Run(S, steps);
    PayloadsWereSubmitted(S, steps);
    InvAlways(S, steps);
    if r !in m.network {
      if p :| p in m.nodes && InTable(m.nodes[p], r) {
        assert NodeGiven(steps, m.nodes[p]);
      } else {
        var p :| p in m.nodes && p in S.peers && InTable(Restart(S.peers[p], m.nodes[p]), r);
        assert NodeOk(S, m.issued, p, m.nodes[p]) && NodeGiven(steps, m.nodes[p]);
        RestartGiven(steps, S.peers[p], m.nodes[p]);
      }
    }
  }

  // ---------- Results ----------

  /** A handler returned the outcome to peer `p` at some step, whether a crash tore the commit or not. */
  ghost predicate Returned(steps: seq<Step>, p: PeerId, o: Outcome) {
    exists k :: 0 <= k < |steps| && steps[k].At? && steps[k].p == p && Intent(steps[k].action) == Finishing(o)
  }

  /** Every outcome in the history was returned to the peer of its token. */
  ghost predicate OutcomesReturned(steps: seq<Step>, issued: map<TokenKey, Origin>) {
    forall k :: k in issued && issued[k].Claimed? && issued[k].outcome.Some? ==> Returned(steps, k.1.peer, issued[k].outcome.value)
  }

  lemma ReturnedLater(steps: seq<Step>, s: Step, p: PeerId, o: Outcome)
    requires Returned(steps, p, o)
    ensures Returned(steps + [s], p, o)
  {
    var k :| 0 <= k < |steps| && steps[k].At? && steps[k].p == p && Intent(steps[k].action) == Finishing(o);
    assert (steps + [s])[k] == steps[k];
  }

  lemma ReturnedNow(steps: seq<Step>, p: PeerId, o: Outcome)
    requires steps != [] && steps[|steps| - 1].At? && steps[|steps| - 1].p == p
    requires Intent(steps[|steps| - 1].action) == Finishing(o)
    ensures Returned(steps, p, o)
  {}

  /** A step adds no outcome to the history but the one its handler returned. */
  lemma RecordedOutcome(S: Setup, i: map<TokenKey, Origin>, p: PeerId, n: NodeState, now: real, a: Action, k: TokenKey)
    requires p in S.peers && ExecutionOk(i, p, n)
    requires var i' := Recorded(i, S.peers[p], n, now, a); k in i' && i'[k].Claimed? && i'[k].outcome.Some?
    ensures var i' := Recorded(i, S.peers[p], n, now, a);
            || (k in i && i[k] == i'[k])
            || (Intent(a).Finishing? && k.1.peer == p && i'[k].outcome == Some(Intent(a).outcome))
  {
    hide Increment, CommitAccepted, ReclaimDue, ClaimAccepted, SubmitAccepted;
  }

  lemma {:induction false} OutcomesWereReturned(S: Setup, steps: seq<Step>)
    requires ValidSetup(S)
    ensures OutcomesReturned(steps, Run(S, steps).issued)
  {
    hide Returned, HistoryOk, Explained, NodeStep, Sent, Recorded, NodeInv, TableOk, OwnTokensOk, ExecutionOk, Allowed;
    if steps != [] {
      var prefix, s := steps[..|steps| - 1], steps[|steps| - 1];
      assert steps == prefix + [s];
      OutcomesWereReturned(S, prefix);
      InvAlways(S, prefix);
      var m, m' := Run(S, prefix), Run(S, steps);
      forall k | k in m'.issued && m'.issued[k].Claimed? && m'.issued[k].outcome.Some?
        ensures Returned(steps, k.1.peer, m'.issued[k].outcome.value)
      {
        if k in m.issued && m.issued[k] == m'.issued[k] {
          ReturnedLater(prefix, s, k.1.peer, m'.issued[k].outcome.value);
        } else {
          assert NodeOk(S, m.issued, s.p, m.nodes[s.p]);
          RecordedOutcome(S, m.issued, s.p, m.nodes[s.p], m.now, s.action, k);
          ReturnedNow(steps, s.p, Intent(s.action).outcome);
        }
      }
    }
  }

  /** What a record in each state looks like. */
  predicate Shaped(r: TaskRecord) {
    && (r.state == DONE <==> r.result.Some?) && (r.state == FAILED <==> r.error.Some?)
    && match r.state
       case PENDING => r.claimedBy.None? && r.leaseExpiry == 0.0
       case CLAIMED => r.claimedBy == Some(r.token.peer) && r.updatedBy == r.token.peer && r.token.epoch > 0
       case RUNNING => r.claimedBy == Some(r.token.peer) && r.updatedBy == r.token.peer && r.token.epoch > 0
       case DONE => r.claimedBy == Some(r.token.peer) && r.leaseExpiry == 0.0 && r.token.epoch > 0
       case FAILED => r.claimedBy == Some(r.token.peer) && r.leaseExpiry == 0.0 && r.token.epoch > 0
  }

  lemma ExplainedShaped(S: Setup, i: map<TokenKey, Origin>, r: TaskRecord)
    requires Explained(S, i, r)
    ensures Shaped(r)
    ensures r.state == DONE || r.state == FAILED ==>
            && Key1(r) in i && i[Key1(r)].Claimed? && i[Key1(r)].outcome.Some?
            && (r.state == DONE ==> i[Key1(r)].outcome.value == Success(r.result.value))
            && (r.state == FAILED ==> i[Key1(r)].outcome.value == Failure(r.error.value))
  {}

  /**
    Over every run, every record anywhere has the shape of its state: a result if
    and only if DONE, an error if and only if FAILED; and the result or error is one
    that a handler returned to the peer whose token the record carries.
   */
  lemma ResultsWereReturned(S: Setup, steps: seq<Step>, r: TaskRecord)
    requires ValidSetup(S) && Anywhere(S, Run(S, steps), r)
    ensures Shaped(r)
    ensures r.state == DONE ==> Returned(steps, r.token.peer, Success(r.result.value))
    ensures r.state == FAILED ==> Returned(steps, r.token.peer, Failure(r.error.value))
  {
    hide Run, Anywhere, Inv, Explained, Returned;
    InvAlways(S, steps);
    AnywhereExplained(S, Run(S, steps), r);
    ExplainedShaped(S, Run(S, steps).issued, r);
    OutcomesWereReturned(S, steps);
  }
}
