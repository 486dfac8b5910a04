/** Every step of every run keeps the mesh invariant. */
module MeshInvariant {
  import opened Orders
  import opened Octets
  import opened VectorClocks
  import opened Consensus
  import opened NodeSpec
  import opened Mesh

  /** Whatever a step writes into the history carries the acting peer's name. */
  ghost predicate OwnEntries(i: map<TokenKey, Origin>, i': map<TokenKey, Origin>, p: PeerId) {
    forall k :: k in i' ==> k.1.peer == p || (k in i && i'[k] == i[k])
  }

  // ---------- Small facts ----------

  lemma ExplainedClock(S: Setup, i: map<TokenKey, Origin>, r: TaskRecord, clock: Clock)
    requires Explained(S, i, r) && clock.Keys <= S.peers.Keys
    ensures Explained(S, i, r.(clock := clock))
  {}

  lemma MirrorExplained(S: Setup, i: map<TokenKey, Origin>, live: TaskRecord, recovered: TaskRecord)
    requires Explained(S, i, live) && Mirrors(live, recovered)
    ensures Explained(S, i, recovered)
  {}

  lemma JoinExplained(S: Setup, i: map<TokenKey, Origin>, a: TaskRecord, b: TaskRecord)
    requires a.taskId == b.taskId && Explained(S, i, a) && Explained(S, i, b)
    ensures Explained(S, i, Join(a, b))
  {
    var clock := Merge(a.clock, b.clock);
    ExplainedClock(S, i, a, clock);
    ExplainedClock(S, i, b, clock);
  }

  lemma TableOkWrite(S: Setup, i: map<TokenKey, Origin>, i': map<TokenKey, Origin>, n: NodeState, n': NodeState,
                     r: TaskRecord)
    requires TableOk(S, i, n) && HistoryGrows(i, i') && Explained(S, i', r)
    requires n'.tasks == n.tasks[r.taskId := r] && n'.clock.Keys <= S.peers.Keys
    ensures TableOk(S, i', n')
  {
    forall id | id in n'.tasks ensures Explained(S, i', n'.tasks[id]) {
      if id != r.taskId { ExplainedGrows(S, i, i', n.tasks[id]); }
    }
  }

  lemma HistoryReflexive(i: map<TokenKey, Origin>, p: PeerId)
    ensures HistoryGrows(i, i) && OwnEntries(i, i, p)
  {}

  /** Tokens are never reused: the next token of a live record is new, and above all this node's earlier ones. */
  lemma TokenFresh(i: map<TokenKey, Origin>, p: PeerId, n: NodeState, id: TaskId)
    requires OwnTokensOk(i, p, n) && id in n.tasks && !n.tasks[id].state.Terminal()
    ensures (id, n.tasks[id].token.NextFor(p)) !in i
    ensures forall k :: k in i && k.0 == id && k.1.peer == p ==> k.1.epoch < n.tasks[id].token.NextFor(p).epoch
  {}

  lemma FreshEntry(S: Setup, i: map<TokenKey, Origin>, k: TokenKey, o: Origin)
    requires HistoryOk(S, i) && k !in i && k.1.epoch > 0 && k.1.peer in S.peers && OriginBounded(o)
    ensures HistoryOk(S, i[k := o]) && HistoryGrows(i, i[k := o]) && OwnEntries(i, i[k := o], k.1.peer)
  {}

  lemma OutcomeEntry(S: Setup, i: map<TokenKey, Origin>, k: TokenKey, o: Outcome)
    requires HistoryOk(S, i) && k in i && i[k].Claimed? && i[k].outcome.None? && BoundedOutcome(o)
    ensures var i' := i[k := Claimed(i[k].payload, i[k].lease, Some(o))];
            HistoryOk(S, i') && HistoryGrows(i, i') && OwnEntries(i, i', k.1.peer)
  {}

  // ---------- What each action keeps ----------

  /** The conclusion shared by all actions: the acting node and the history stay sound. */
  ghost predicate StepOk(S: Setup, i: map<TokenKey, Origin>, i': map<TokenKey, Origin>, p: PeerId, n': NodeState)
    requires p in S.peers
  {
    HistoryOk(S, i') && HistoryGrows(i, i') && OwnEntries(i, i', p) && NodeOk(S, i', p, n')
  }

  /** Actions without a history entry: their table must stay explained, the rest follows. */
  lemma QuietStepOk(S: Setup, i: map<TokenKey, Origin>, p: PeerId, n: NodeState, n': NodeState)
    requires p in S.peers && HistoryOk(S, i) && NodeOk(S, i, p, n)
    requires NodeInv(S.peers[p], n') && TableOk(S, i, n') && TableRises(n, n')
    requires n'.running == n.running || n'.running.None?
    ensures StepOk(S, i, i, p, n')
  {
    HistoryReflexive(i, p);
    OwnTokensRise(i, p, n, n');
  }

  lemma StutterOk(S: Setup, i: map<TokenKey, Origin>, p: PeerId, n: NodeState)
    requires p in S.peers && HistoryOk(S, i) && NodeOk(S, i, p, n)
    ensures StepOk(S, i, i, p, n)
  {
    hide NodeOk, HistoryOk;
    HistoryReflexive(i, p);
  }

  lemma IdleOk(S: Setup, i: map<TokenKey, Origin>, p: PeerId, n: NodeState)
    requires p in S.peers && HistoryOk(S, i) && NodeOk(S, i, p, n)
    ensures StepOk(S, i, i, p, Idle(n))
  {
    hide NodeInv, HistoryOk, Explained;
    HistoryReflexive(i, p);
    IdleKeepsInv(S.peers[p], n);
  }

  lemma TableExplained(S: Setup, i: map<TokenKey, Origin>, p: PeerId, n: NodeState)
    requires p in S.peers && NodeOk(S, i, p, n)
    ensures forall id :: id in n.tasks ==> Explained(S, i, n.tasks[id])
  {}

  lemma SubmitOk(S: Setup, i: map<TokenKey, Origin>, p: PeerId, n: NodeState, id: TaskId, payload: Bytes)
    requires ValidSetup(S) && p in S.peers && HistoryOk(S, i) && NodeOk(S, i, p, n) && id !in n.tasks
    ensures StepOk(S, i, i, p, Submit(S.peers[p], n, id, payload))
  {
    var c := S.peers[p];
    var n' := Submit(c, n, id, payload);
    SubmitKeepsInv(c, n, id, payload);
    SubmitRises(c, n, id, payload);
    if SubmitAccepted(c, n, id, payload) {
      HistoryReflexive(i, p);
      TableOkWrite(S, i, i, n, n', SubmittedRecord(c, Increment(n.clock, c.id), id, payload));
    }
    QuietStepOk(S, i, p, n, n');
  }

  lemma ReceiveTableOk(S: Setup, i: map<TokenKey, Origin>, c: Config, n: NodeState, r: TaskRecord)
    requires TableOk(S, i, n) && Explained(S, i, r)
    ensures TableOk(S, i, Receive(c, n, r.taskId, r)) && Receive(c, n, r.taskId, r).running == n.running
  {
    hide Explained, Join;
    if ReceiveAccepted(c, n, r.taskId, r) {
      HistoryReflexive(i, c.id);
      if r.taskId in n.tasks { JoinExplained(S, i, n.tasks[r.taskId], r); }
      assert r.clock.Keys <= S.peers.Keys by { ExplainedBounded(S, i, r); }
      TableOkWrite(S, i, i, n, Receive(c, n, r.taskId, r), if r.taskId in n.tasks then Join(n.tasks[r.taskId], r) else r);
    }
  }

  lemma ExplainedBounded(S: Setup, i: map<TokenKey, Origin>, r: TaskRecord)
    requires Explained(S, i, r)
    ensures Bounded(S, r)
  {}

  lemma ReceiveOk(S: Setup, i: map<TokenKey, Origin>, p: PeerId, n: NodeState, r: TaskRecord)
    requires p in S.peers && HistoryOk(S, i) && NodeOk(S, i, p, n) && Explained(S, i, r)
    ensures StepOk(S, i, i, p, Receive(S.peers[p], n, r.taskId, r))
  {
    hide NodeInv, HistoryOk, Explained, TableRises, OwnTokensOk, ExecutionOk, TableOk, Receive, StepOk;
    ReceiveKeepsInv(S.peers[p], n, r.taskId, r);
    ReceiveRises(S.peers[p], n, r);
    ReceiveTableOk(S, i, S.peers[p], n, r);
    QuietStepOk(S, i, p, n, Receive(S.peers[p], n, r.taskId, r));
  }

  lemma RestartOk(S: Setup, i: map<TokenKey, Origin>, p: PeerId, n: NodeState)
    requires p in S.peers && HistoryOk(S, i) && NodeOk(S, i, p, n)
    ensures StepOk(S, i, i, p, Restart(S.peers[p], n))
  {
    var c := S.peers[p];
    var n' := Restart(c, n);
    RestartKeepsInv(c, n);
    RestartRises(c, n);
    forall id | id in n'.tasks ensures Explained(S, i, n'.tasks[id]) {
      MirrorExplained(S, i, n.tasks[id], n'.tasks[id]);
    }
    QuietStepOk(S, i, p, n, n');
  }

  lemma CheckpointOk(S: Setup, i: map<TokenKey, Origin>, p: PeerId, n: NodeState, items: seq<(TaskId, TaskRecord)>)
    requires p in S.peers && HistoryOk(S, i) && NodeOk(S, i, p, n)
    ensures StepOk(S, i, i, p, Checkpoint(n, items))
  {
    hide NodeInv, HistoryOk, Explained, OwnTokensOk, ExecutionOk;
    CheckpointKeepsInv(S.peers[p], n, items);
    TableRisesReflexive(n, Checkpoint(n, items));
    QuietStepOk(S, i, p, n, Checkpoint(n, items));
  }

  /** The acting node after it issued a fresh token: its own tokens stay within its table. */
  lemma OwnTokensIssue(i: map<TokenKey, Origin>, p: PeerId, n: NodeState, n': NodeState, k: TokenKey, o: Origin)
    requires OwnTokensOk(i, p, n) && TableRises(n, n')
    requires k.0 in n'.tasks && n'.tasks[k.0].token == k.1
    ensures OwnTokensOk(i[k := o], p, n')
  {
    OwnTokensRise(i, p, n, n');
    TokenLeqReflexive(k.1);
  }

  /** The acting node after a step that issued a token or an outcome. */
  lemma IssueStepOk(S: Setup, i: map<TokenKey, Origin>, p: PeerId, n: NodeState, n': NodeState, r: TaskRecord, o: Origin)
    requires p in S.peers && NodeOk(S, i, p, n) && NodeInv(S.peers[p], n') && TableRises(n, n')
    requires n'.clock.Keys <= S.peers.Keys
    requires n'.tasks == n.tasks[r.taskId := r] && Explained(S, i[Key1(r) := o], r)
    requires var i' := i[Key1(r) := o];
             HistoryOk(S, i') && HistoryGrows(i, i') && OwnEntries(i, i', p) && ExecutionOk(i', p, n')
    ensures StepOk(S, i, i[Key1(r) := o], p, n')
  {
    hide NodeInv, HistoryOk, Explained, TableRises, OwnTokensOk, ExecutionOk, TableOk, HistoryGrows, OwnEntries;
    TableOkWrite(S, i, i[Key1(r) := o], n, n', r);
    OwnTokensIssue(i, p, n, n', Key1(r), o);
  }

  lemma ClaimRecordOk(S: Setup, i: map<TokenKey, Origin>, p: PeerId, n: NodeState, id: TaskId, lease: real)
    requires ValidSetup(S) && p in S.peers && NodeOk(S, i, p, n) && id in n.tasks
    ensures var r := ClaimRecord(S.peers[p], n, id, lease);
            var o := Claimed(r.payload, r.leaseExpiry, None);
            && OriginBounded(o)
            && Explained(S, i[Key1(r) := o], r)
            && Explained(S, i[Key1(r) := o], r.(state := RUNNING))
  {
    hide NodeInv, OwnTokensOk, ExecutionOk;
    assert Bounded(S, n.tasks[id]) by { ExplainedBounded(S, i, n.tasks[id]); }
    FiledAt(S.peers[p], n, id);
  }

  lemma ClaimOk(S: Setup, i: map<TokenKey, Origin>, p: PeerId, n: NodeState, id: TaskId, now: real, duration: real,
                suspected: bool)
    requires ValidSetup(S) && p in S.peers && HistoryOk(S, i) && NodeOk(S, i, p, n)
    requires ClaimAccepted(S.peers[p], n, id, now, suspected)
    ensures var r := ClaimRecord(S.peers[p], n, id, now + duration);
            var i' := i[Key1(r) := Claimed(r.payload, r.leaseExpiry, None)];
            Explained(S, i', r) && StepOk(S, i, i', p, Claim(S.peers[p], n, id, now, duration, suspected))
  {
    hide NodeInv, HistoryOk, Explained, TableRises, OwnTokensOk, HistoryGrows, OwnEntries, StepOk, OriginBounded;
    var c := S.peers[p];
    var r := ClaimRecord(c, n, id, now + duration);
    var o := Claimed(r.payload, r.leaseExpiry, None);
    ClaimKeepsInv(c, n, id, now, duration, suspected);
    ClaimRises(c, n, id, now, duration, suspected);
    ClaimRecordOk(S, i, p, n, id, now + duration);
    TokenFresh(i, p, n, id);
    FreshEntry(S, i, Key1(r), o);
    IssueStepOk(S, i, p, n, Claim(c, n, id, now, duration, suspected), r.(state := RUNNING), o);
  }

  lemma ResetRecordOk(S: Setup, i: map<TokenKey, Origin>, p: PeerId, n: NodeState, id: TaskId)
    requires ValidSetup(S) && p in S.peers && NodeOk(S, i, p, n) && id in n.tasks
    ensures var r := ResetRecord(S.peers[p], n, id);
            OriginBounded(Released(r.payload)) && Explained(S, i[Key1(r) := Released(r.payload)], r)
  {
    hide NodeInv, OwnTokensOk, ExecutionOk;
    assert Bounded(S, n.tasks[id]) by { ExplainedBounded(S, i, n.tasks[id]); }
    FiledAt(S.peers[p], n, id);
  }

  lemma ReclaimOk(S: Setup, i: map<TokenKey, Origin>, p: PeerId, n: NodeState, id: TaskId, now: real,
                  suspected: bool, elected: bool)
    requires ValidSetup(S) && p in S.peers && HistoryOk(S, i) && NodeOk(S, i, p, n)
    requires !S.peers[p].hasWorker && ReclaimDue(S.peers[p], n, id, now, suspected, elected)
    ensures var r := ResetRecord(S.peers[p], n, id);
            var i' := i[Key1(r) := Released(r.payload)];
            Explained(S, i', r) && StepOk(S, i, i', p, Reclaim(S.peers[p], n, id, now, suspected, elected))
  {
    hide NodeInv, HistoryOk, Explained, TableRises, OwnTokensOk, HistoryGrows, OwnEntries, StepOk, OriginBounded;
    var c := S.peers[p];
    var r := ResetRecord(c, n, id);
    ReclaimKeepsInv(c, n, id, now, suspected, elected);
    ReclaimRises(c, n, id, now, suspected, elected);
    ResetRecordOk(S, i, p, n, id);
    TokenFresh(i, p, n, id);
    FreshEntry(S, i, Key1(r), Released(r.payload));
    IssueStepOk(S, i, p, n, Reclaim(c, n, id, now, suspected, elected), r, Released(r.payload));
  }

  lemma CommitRecordOk(S: Setup, i: map<TokenKey, Origin>, p: PeerId, n: NodeState, out: Outcome)
    requires ValidSetup(S) && p in S.peers && HistoryOk(S, i) && NodeOk(S, i, p, n) && n.running.Some?
    ensures var r := CommitRecord(S.peers[p], n, n.running.value, out);
            Explained(S, i[Key1(r) := Claimed(r.payload, n.running.value.leaseExpiry, Some(out))], r)
  {
    hide NodeInv, OwnTokensOk;
    var x := n.running.value;
    assert Bounded(S, n.tasks[x.taskId]) by { ExplainedBounded(S, i, n.tasks[x.taskId]); }
    assert n.tasks[x.taskId].taskId == x.taskId by { FiledAt(S.peers[p], n, x.taskId); }
    assert OriginBounded(i[(x.taskId, x.token)]);
  }

  lemma CommitOk(S: Setup, i: map<TokenKey, Origin>, p: PeerId, n: NodeState, now: real, out: Outcome)
    requires ValidSetup(S) && p in S.peers && HistoryOk(S, i) && NodeOk(S, i, p, n) && BoundedOutcome(out)
    requires n.running.Some? && CommitAccepted(n, n.running.value, now)
    ensures var r := CommitRecord(S.peers[p], n, n.running.value, out);
            var i' := i[Key1(r) := Claimed(r.payload, n.running.value.leaseExpiry, Some(out))];
            Explained(S, i', r) && StepOk(S, i, i', p, Finish(S.peers[p], n, now, out))
  {
    hide NodeInv, HistoryOk, Explained, TableRises, OwnTokensOk, HistoryGrows, OwnEntries, StepOk, CommitAccepted;
    var c, x := S.peers[p], n.running.value;
    var r := CommitRecord(c, n, x, out);
    CommitSafe(S, i, p, n);
    FinishKeepsInv(c, n, now, out);
    FinishRises(S, i, p, n, now, out);
    CommitRecordOk(S, i, p, n, out);
    OutcomeEntry(S, i, Key1(r), out);
    IssueStepOk(S, i, p, n, Finish(c, n, now, out), r, Claimed(r.payload, x.leaseExpiry, Some(out)));
  }

  /** A crash inside an own write: the node and the history are as after the write and a restart, but for the clock. */
  lemma TearingOk(S: Setup, i: map<TokenKey, Origin>, network: set<TaskRecord>, p: PeerId, n: NodeState, now: real,
                  w: Action)
    requires ValidSetup(S) && p in S.peers && HistoryOk(S, i) && NodeOk(S, i, p, n) && Allowed(network, n, w)
    requires OwnWrite(S.peers[p], n, now, w).Some?
    requires StepOk(S, i, Recorded(i, S.peers[p], n, now, w), p, NodeStep(S.peers[p], n, now, w))
    ensures StepOk(S, i, Recorded(i, S.peers[p], n, now, w), p, NodeStep(S.peers[p], n, now, Tearing(w)))
  {
    hide NodeInv, HistoryOk, Explained, OwnTokensOk, HistoryGrows, OwnEntries, Recorded, TornWrite, OwnWrite, Allowed, Restart;
    var c, i' := S.peers[p], Recorded(i, S.peers[p], n, now, w);
    var n', t := NodeStep(c, n, now, w), TornWrite(c, n, OwnWrite(c, n, now, w).value);
    TornIsRestart(S, i, network, p, n, now, w);
    RestartOk(S, i', p, n');
    assert NodeOk(S, i', p, Restart(c, n'));
    SameTableOwnTokens(i', p, Restart(c, n'), t);
  }

  lemma SameTableOwnTokens(i: map<TokenKey, Origin>, p: PeerId, n: NodeState, n': NodeState)
    requires OwnTokensOk(i, p, n) && n'.tasks == n.tasks
    ensures OwnTokensOk(i, p, n')
  {}

  // ---------- Runs ----------

  lemma ActionOk(S: Setup, i: map<TokenKey, Origin>, network: set<TaskRecord>, p: PeerId, n: NodeState, now: real,
                 a: Action)
    requires ValidSetup(S) && p in S.peers && HistoryOk(S, i) && NodeOk(S, i, p, n) && Allowed(network, n, a)
    requires a.Receiving? ==> Explained(S, i, a.record)
    ensures var i' := Recorded(i, S.peers[p], n, now, a);
            var sent := Sent(S.peers[p], n, now, a);
            && StepOk(S, i, i', p, NodeStep(S.peers[p], n, now, a))
            && (sent.Some? ==> Explained(S, i', sent.value))
  {
    hide StepOk, HistoryOk, NodeOk, Explained, TableRises, ClaimAccepted, ReclaimDue, NodeInv, TableOk, CommitAccepted, TornWrite;
    var c := S.peers[p];
    match a {
      case Submitting(id, payload) => SubmitOk(S, i, p, n, id, payload);
      case Sending(id) =>
        StutterOk(S, i, p, n);
        assert id in n.tasks ==> Explained(S, i, n.tasks[id]) by { TableExplained(S, i, p, n); }
      case Receiving(r) => ReceiveOk(S, i, p, n, r);
      case Claiming(id, duration, suspected) =>
        if ClaimAccepted(c, n, id, now, suspected) {
          ClaimOk(S, i, p, n, id, now, duration, suspected);
        } else {
          StutterOk(S, i, p, n);
        }
      case Finishing(o) => FinishOk(S, i, p, n, now, o);
      case Reclaiming(id, suspected, elected) =>
        if !c.hasWorker && ReclaimDue(c, n, id, now, suspected, elected) {
          ReclaimOk(S, i, p, n, id, now, suspected, elected);
        } else {
          StutterOk(S, i, p, n);
        }
      case Restarting => RestartOk(S, i, p, n);
      case Checkpointing(items) => CheckpointOk(S, i, p, n, items);
      case Tearing(w) =>
        if OwnWrite(c, n, now, w).None? {
          StutterOk(S, i, p, n);
        } else {
          ActionOk(S, i, network, p, n, now, w);
          TearingOk(S, i, network, p, n, now, w);
        }
    }
  }

  lemma FinishOk(S: Setup, i: map<TokenKey, Origin>, p: PeerId, n: NodeState, now: real, o: Outcome)
    requires ValidSetup(S) && p in S.peers && HistoryOk(S, i) && NodeOk(S, i, p, n) && BoundedOutcome(o)
    ensures var i' := Recorded(i, S.peers[p], n, now, Finishing(o));
            var sent := Sent(S.peers[p], n, now, Finishing(o));
            && StepOk(S, i, i', p, Finish(S.peers[p], n, now, o))
            && (sent.Some? ==> Explained(S, i', sent.value))
  {
    hide StepOk, HistoryOk, NodeOk, Explained, CommitAccepted;
    if n.running.Some? && CommitAccepted(n, n.running.value, now) {
      CommitOk(S, i, p, n, now, o);
    } else {
      StutterOk(S, i, p, n);
      IdleOk(S, i, p, n);
    }
  }

  /** A node that did not act stays sound as another peer's entries join the history. */
  lemma BystanderOk(S: Setup, i: map<TokenKey, Origin>, i': map<TokenKey, Origin>, p: PeerId, q: PeerId, n: NodeState)
    requires q in S.peers && NodeOk(S, i, q, n) && HistoryGrows(i, i') && OwnEntries(i, i', p) && q != p
    ensures NodeOk(S, i', q, n)
  {
    forall id | id in n.tasks ensures Explained(S, i', n.tasks[id]) {
      ExplainedGrows(S, i, i', n.tasks[id]);
    }
    if n.running.Some? {
      assert (n.running.value.taskId, n.running.value.token) in i';
    }
  }

  lemma ApplyKeepsInv(S: Setup, m: MeshState, s: Step)
    requires ValidSetup(S) && Inv(S, m)
    ensures Inv(S, Apply(S, m, s))
  {
    hide NodeOk, HistoryOk, Explained, HistoryGrows, OwnEntries, NodeStep, Sent, Recorded;
    if s.At? && s.p in m.nodes && Allowed(m.network, m.nodes[s.p], s.action) {
      var p, n, a := s.p, m.nodes[s.p], s.action;
      var m' := Apply(S, m, s);
      ActionOk(S, m.issued, m.network, p, n, m.now, a);
      forall q | q in m'.nodes ensures NodeOk(S, m'.issued, q, m'.nodes[q]) {
        if q != p { BystanderOk(S, m.issued, m'.issued, p, q, m.nodes[q]); }
      }
      forall r | r in m'.network ensures Explained(S, m'.issued, r) {
        if r in m.network { ExplainedGrows(S, m.issued, m'.issued, r); }
      }
    }
  }

  lemma InitialInv(S: Setup)
    requires ValidSetup(S)
    ensures Inv(S, Initial(S))
  {
    forall p | p in S.peers ensures NodeOk(S, map[], p, NodeState(map[], map[], [], None)) {}
  }

  /** The invariant holds after every step of every run. */
  lemma {:induction false} InvAlways(S: Setup, steps: seq<Step>)
    requires ValidSetup(S)
    ensures Inv(S, Run(S, steps))
  {
    if steps == [] {
      InitialInv(S);
    } else {
      InvAlways(S, steps[..|steps| - 1]);
      ApplyKeepsInv(S, Run(S, steps[..|steps| - 1]), steps[|steps| - 1]);
    }
  }
}
