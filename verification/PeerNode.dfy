/**
  `PeerNode` (peerq/node.py): the object whose loops update the task table, the
  clock and the log in place. Each method is proved against the step functions of
  NodeSpec, whose whole-run properties are proved in the mesh modules.
 */
module PeerNodes {
  import opened Orders
  import opened Octets
  import opened VectorClocks
  import opened Consensus
  import opened NodeSpec
  import opened RecordCodec

  // ---------- Rendezvous election ----------

  /** `_rendezvous_reclaimer`: the first candidate of highest score, with the hash as a parameter. */
  function Elect(score: PeerId -> int, candidates: seq<PeerId>): (r: Option<PeerId>)
    ensures r.None? <==> candidates == []
    ensures r.Some? ==> r.value in candidates && forall p :: p in candidates ==> score(p) <= score(r.value)
  {
    if candidates == [] then None
    else
      var rest := Elect(score, candidates[1..]);
      if rest.Some? && score(rest.value) > score(candidates[0]) then rest else Some(candidates[0])
  }

  /** Two candidates share the top score. */
  ghost predicate Tied(score: PeerId -> int, candidates: seq<PeerId>, p: PeerId, q: PeerId) {
    && p in candidates && q in candidates && p != q
    && forall r :: r in candidates ==> score(r) <= score(p) && score(r) <= score(q)
  }

  ghost predicate UniqueTop(score: PeerId -> int, candidates: seq<PeerId>) {
    forall p, q :: !Tied(score, candidates, p, q)
  }

  ghost predicate OrderFree(score: PeerId -> int, candidates: seq<PeerId>) {
    forall listing: seq<PeerId> :: Elements(listing) == Elements(candidates)
      ==> Elect(score, listing) == Elect(score, candidates)
  }

  /** Electing from every listing of the candidates gives one answer exactly when no two share the top score. */
  lemma ElectionOrderFree(score: PeerId -> int, candidates: seq<PeerId>)
    ensures UniqueTop(score, candidates) <==> OrderFree(score, candidates)
  {
    hide Elect, Elements, Tied;
    if UniqueTop(score, candidates) {
      forall listing: seq<PeerId> | Elements(listing) == Elements(candidates)
        ensures Elect(score, listing) == Elect(score, candidates)
      {
        SameWinner(score, candidates, listing);
      }
    } else {
      var p, q :| Tied(score, candidates, p, q);
      SplitVote(score, candidates, p, q);
    }
  }

  lemma SplitVote(score: PeerId -> int, candidates: seq<PeerId>, p: PeerId, q: PeerId)
    requires Tied(score, candidates, p, q)
    ensures !OrderFree(score, candidates)
  {
    hide Elect;
    TopFirst(score, p, candidates);
    TopFirst(score, q, candidates);
    assert Elements([p] + candidates) == Elements(candidates) == Elements([q] + candidates);
  }

  lemma SameWinner(score: PeerId -> int, a: seq<PeerId>, b: seq<PeerId>)
    requires UniqueTop(score, a) && Elements(a) == Elements(b)
    ensures Elect(score, a) == Elect(score, b)
  {
    assert forall x :: x in a <==> x in Elements(a);
    assert forall x :: x in b <==> x in Elements(b);
    var x, y := Elect(score, a), Elect(score, b);
    assert a == [] <==> Elements(a) == {} by { if a != [] { assert a[0] in Elements(a); } }
    assert b == [] <==> Elements(b) == {} by { if b != [] { assert b[0] in Elements(b); } }
    if a != [] {
      assert x.value in a && y.value in a;
      assert !Tied(score, a, x.value, y.value);
    }
  }

  lemma TopFirst(score: PeerId -> int, p: PeerId, candidates: seq<PeerId>)
    requires forall r :: r in candidates ==> score(r) <= score(p)
    ensures Elect(score, [p] + candidates) == Some(p)
  {
    assert ([p] + candidates)[1..] == candidates;
  }

  // ---------- Folds of the node's loops ----------

  /** The documents of one gossip message that come before any that overflows. */
  function Heard(batch: seq<(TaskId, Document)>): (k: nat)
    ensures k <= |batch|
  {
    if batch == [] || Overflows(batch[0].1) then 0 else 1 + Heard(batch[1..])
  }

  lemma {:induction false} HeardUntilOverflow(batch: seq<(TaskId, Document)>)
    ensures forall i | 0 <= i < Heard(batch) :: !Overflows(batch[i].1)
    ensures Heard(batch) < |batch| ==> Overflows(batch[Heard(batch)].1)
  {
    hide Overflows;
    if batch != [] && !Overflows(batch[0].1) {
      HeardUntilOverflow(batch[1..]);
      forall i | 0 < i < Heard(batch) ensures !Overflows(batch[i].1) { assert batch[i] == batch[1..][i - 1]; }
    }
  }

  /** The records of a gossip message, one after the other; a document that `from_dict` refuses is skipped. */
  function ReceiveAll(c: Config, n: NodeState, batch: seq<(TaskId, Document)>): NodeState {
    if batch == [] then n
    else
      var before, item := ReceiveAll(c, n, batch[..|batch| - 1]), batch[|batch| - 1];
      var r := FromDict(item.1);
      if r.None? then before else Receive(c, before, item.0, r.value)
  }

  function Holder(r: TaskRecord): (h: PeerId)
    ensures r.claimedBy == Some(h) || (r.claimedBy.None? && h == "")
  {
    if r.claimedBy.None? then "" else r.claimedBy.value
  }

  predicate Elected(self: PeerId, id: TaskId, live: seq<PeerId>, score: (TaskId, PeerId) -> int) {
    Elect(p => score(id, p), live) == Some(self)
  }

  /** The audit of the listed tasks, one after the other on the state the previous one left. */
  function AuditAll(c: Config, n: NodeState, ids: seq<TaskId>, now: real, suspected: PeerId -> bool,
                    live: seq<PeerId>, score: (TaskId, PeerId) -> int): NodeState
  {
    if ids == [] then n
    else
      var before, id := AuditAll(c, n, ids[..|ids| - 1], now, suspected, live, score), ids[|ids| - 1];
      Reclaim(c, before, id, now, id in before.tasks && suspected(Holder(before.tasks[id])),
              Elected(c.id, id, live, score))
  }

  /** The reset records those audits broadcast, in order. */
  function AuditSent(c: Config, n: NodeState, ids: seq<TaskId>, now: real, suspected: PeerId -> bool,
                     live: seq<PeerId>, score: (TaskId, PeerId) -> int): seq<TaskRecord>
  {
    if ids == [] then []
    else
      var before, id := AuditAll(c, n, ids[..|ids| - 1], now, suspected, live, score), ids[|ids| - 1];
      AuditSent(c, n, ids[..|ids| - 1], now, suspected, live, score) +
      ResetSent(c, before, id, now, id in before.tasks && suspected(Holder(before.tasks[id])),
                Elected(c.id, id, live, score))
  }

  function ResetSent(c: Config, n: NodeState, id: TaskId, now: real, suspected: bool, elected: bool): seq<TaskRecord> {
    if !c.hasWorker && ReclaimDue(c, n, id, now, suspected, elected) then [ResetRecord(c, n, id)] else []
  }

  /** The audited record is held by another peer, overdue, of a suspected holder, and this node is elected. */
  predicate Overdue(c: Config, r: TaskRecord, now: real, suspected: PeerId -> bool, live: seq<PeerId>,
                    score: (TaskId, PeerId) -> int)
  {
    && (r.state == CLAIMED || r.state == RUNNING) && r.claimedBy != Some(c.id) && now >= r.leaseExpiry
    && suspected(Holder(r)) && Elect(p => score(r.taskId, p), live) == Some(c.id)
  }

  /** What the audit left of a record: released if it was overdue and there is no worker, and else untouched. */
  predicate Audited(c: Config, was: TaskRecord, is_: TaskRecord, due: bool) {
    if due && !c.hasWorker then
      && is_.state == PENDING && is_.taskId == was.taskId && is_.payload == was.payload && is_.claimedBy.None?
      && is_.token == FenceToken(was.token.epoch + 1, c.id)
    else is_ == was
  }

  lemma AuditOne(c: Config, n: NodeState, id: TaskId, now: real, suspected: PeerId -> bool, live: seq<PeerId>,
                 score: (TaskId, PeerId) -> int)
    requires id in n.tasks && n.tasks[id].taskId == id
    ensures var n' := Reclaim(c, n, id, now, suspected(Holder(n.tasks[id])), Elected(c.id, id, live, score));
            && n'.tasks.Keys == n.tasks.Keys && (forall k | k in n.tasks && k != id :: n'.tasks[k] == n.tasks[k])
            && Audited(c, n.tasks[id], n'.tasks[id], Overdue(c, n.tasks[id], now, suspected, live, score))
            && (n' != n ==> TaskEntry(n'.tasks[id]) in n'.log)
  {
    hide Increment, Elect;
    var n' := Reclaim(c, n, id, now, suspected(Holder(n.tasks[id])), Elected(c.id, id, live, score));
    if n' != n { assert n'.log[|n.log|] == TaskEntry(n'.tasks[id]); }
  }

  /**
    One round of the audit releases exactly the overdue records of the table it
    started from, each under a token above its holder's, and leaves all others alone.
   */
  lemma {:induction false} AuditReleasesExactlyTheOverdue(c: Config, n: NodeState, ids: seq<TaskId>, now: real,
                                                          suspected: PeerId -> bool, live: seq<PeerId>,
                                                          score: (TaskId, PeerId) -> int)
    requires Distinct(ids) && forall id :: id in ids ==> id in n.tasks && n.tasks[id].taskId == id
    ensures var n' := AuditAll(c, n, ids, now, suspected, live, score);
            && n'.tasks.Keys == n.tasks.Keys
            && (forall id | id in ids :: Audited(c, n.tasks[id], n'.tasks[id], Overdue(c, n.tasks[id], now, suspected, live, score)))
            && (forall id | id in n.tasks && id !in ids :: n'.tasks[id] == n.tasks[id])
  {
    hide Reclaim, Overdue, Audited, Elect;
    if ids != [] {
      var rest, id := ids[..|ids| - 1], ids[|ids| - 1];
      assert ids == rest + [id];
      AuditReleasesExactlyTheOverdue(c, n, rest, now, suspected, live, score);
      var before := AuditAll(c, n, rest, now, suspected, live, score);
      assert id !in rest;
      AuditOne(c, before, id, now, suspected, live, score);
    }
  }

  predicate Distinct<T(==)>(s: seq<T>) { forall i, j | 0 <= i < j < |s| :: s[i] != s[j] }

  /**
    Two peers that see the same live set never both elect themselves, if no two
    candidates share the top score. Each lists itself first.
   */
  lemma AtMostOneReclaimer(score: PeerId -> int, p: PeerId, a: seq<PeerId>, q: PeerId, b: seq<PeerId>)
    requires p != q && Elements([p] + a) == Elements([q] + b) && UniqueTop(score, [p] + a)
    ensures !(Elect(score, [p] + a) == Some(p) && Elect(score, [q] + b) == Some(q))
  {
    SameWinner(score, [p] + a, [q] + b);
  }

  function LivePeers(self: PeerId, peers: seq<PeerId>, suspected: PeerId -> bool): seq<PeerId> {
    [self] + Unsuspected(peers, suspected)
  }

  function Unsuspected(peers: seq<PeerId>, suspected: PeerId -> bool): seq<PeerId> {
    if peers == [] then []
    else (if suspected(peers[0]) then [] else [peers[0]]) + Unsuspected(peers[1..], suspected)
  }

  /** The candidates are the node itself and exactly the peers it does not suspect. */
  lemma {:induction false} LiveExactly(self: PeerId, peers: seq<PeerId>, suspected: PeerId -> bool, p: PeerId)
    ensures p in LivePeers(self, peers, suspected) <==> p == self || (p in peers && !suspected(p))
  {
    if peers != [] {
      LiveExactly(self, peers[1..], suspected, p);
      assert peers == [peers[0]] + peers[1..];
      UnsuspectedExactly(peers, suspected, p);
    }
  }

  lemma {:induction false} UnsuspectedExactly(peers: seq<PeerId>, suspected: PeerId -> bool, p: PeerId)
    ensures p in Unsuspected(peers, suspected) <==> p in peers && !suspected(p)
  {
    if peers != [] {
      assert peers == [peers[0]] + peers[1..];
      UnsuspectedExactly(peers[1..], suspected, p);
    }
  }

  class PeerNode {
    const config: Config
    const peers: seq<PeerId>
    const maxGossipTasks: nat
    var tasks: map<TaskId, TaskRecord>
    var clock: Clock
    var log: seq<LogEntry>
    var running: Option<Execution>

    ghost function State(): NodeState reads this { NodeState(tasks, clock, log, running) }

    /** A node over an existing log, before `start`. */
    constructor (config: Config, peers: seq<PeerId>, maxGossipTasks: nat, log: seq<LogEntry>)
      ensures this.config == config && this.peers == peers && this.maxGossipTasks == maxGossipTasks
      ensures State() == NodeState(map[], map[], log, None)
    {
      this.config, this.peers, this.maxGossipTasks := config, peers, maxGossipTasks;
      tasks, clock, this.log, running := map[], map[], log, None;
    }

    /** `_recover_from_wal`. Called on a fresh node, it is exactly the crash-and-restart step. */
    method Recover()
      modifies this`tasks, this`clock
      ensures Replica(tasks, clock) == Replay(config.maxTasks, Replica(old(tasks), old(clock)), log)
      ensures old(tasks) == map[] && old(clock) == map[] && running.None? ==> State() == Restart(config, old(State()))
    {
      hide Absorb, AbsorbAll, Merge;
      ghost var start := Replica(tasks, clock);
      var i := 0;
      while i < |log|
        invariant 0 <= i <= |log|
        invariant Replica(tasks, clock) == Replay(config.maxTasks, start, log[..i])
      {
        assert log[..i + 1][..i] == log[..i];
        match log[i] {
          case TaskEntry(r) => MergeIn(r.taskId, r);
          case ClockEntry(c) => clock := Merge(clock, c);
          case CheckpointEntry(items, c) =>
            LoadSnapshot(items);
            clock := Merge(clock, c);
        }
        i := i + 1;
      }
      assert log[..i] == log;
    }

    method LoadSnapshot(items: seq<(TaskId, TaskRecord)>)
      modifies this`tasks
      ensures tasks == AbsorbAll(config.maxTasks, old(tasks), items)
    {
      hide Absorb;
      ghost var before := tasks;
      var j := 0;
      while j < |items|
        invariant 0 <= j <= |items|
        invariant tasks == AbsorbAll(config.maxTasks, before, items[..j])
      {
        assert items[..j + 1][..j] == items[..j];
        MergeIn(items[j].0, items[j].1);
        j := j + 1;
      }
      assert items[..j] == items;
    }

    method MergeIn(id: TaskId, r: TaskRecord)
      modifies this`tasks
      ensures tasks == Absorb(config.maxTasks, old(tasks), id, r)
    {
      if id !in tasks {
        if |tasks| < config.maxTasks { tasks := tasks[id := r]; }
      } else {
        var merged := MergeRecords(tasks[id], r);
        if merged.Some? { tasks := tasks[id := merged.value]; }
      }
    }

    /** `submit_task`, up to putting the id on the queue. */
    method SubmitTask(id: TaskId, payload: Bytes) returns (accepted: bool)
      modifies this
      ensures accepted <==>
              0 < |id| <= 128 && |payload| <= 65536 && (id in old(tasks) || |old(tasks)| < config.maxTasks)
      ensures State() == Submit(config, old(State()), id, payload)
    {
      if |id| == 0 || |id| > MAX_TASK_ID_LENGTH { return false; }
      if |payload| > MAX_TASK_PAYLOAD { return false; }
      if id !in tasks && |tasks| >= config.maxTasks { return false; }
      clock := Increment(clock, config.id);
      var record := TaskRecord(id, PENDING, payload, None, None, None, FenceToken(0, ""), 0.0, clock, config.id, None, None);
      tasks := tasks[id := record];
      log := log + [TaskEntry(record)];
      log := log + [ClockEntry(clock)];
      assert log == old(log) + [TaskEntry(record), ClockEntry(clock)];
      return true;
    }

    /** The gossip branch of `_recv_loop`; a document that overflows ends the loop for good. */
    method ReceiveGossip(batch: seq<(TaskId, Document)>) returns (alive: bool)
      modifies this
      ensures alive <==> |batch| > maxGossipTasks || forall i | 0 <= i < |batch| :: !Overflows(batch[i].1)
      ensures State() == if |batch| > maxGossipTasks then old(State())
                         else ReceiveAll(config, old(State()), batch[..Heard(batch)])
    {
      hide Overflows, FromDict, Receive, Heard;
      if |batch| > maxGossipTasks { return true; }
      HeardUntilOverflow(batch);
      ghost var start := State();
      var i := 0;
      while i < |batch|
        invariant 0 <= i <= |batch|
        invariant forall k | 0 <= k < i :: !Overflows(batch[k].1)
        invariant State() == ReceiveAll(config, start, batch[..i])
      {
        assert batch[..i + 1][..i] == batch[..i];
        if Overflows(batch[i].1) { return false; }
        var r := FromDict(batch[i].1);
        if r.Some? { ReceiveOne(batch[i].0, r.value); }
        i := i + 1;
      }
      return true;
    }

    method ReceiveOne(id: TaskId, remote: TaskRecord)
      modifies this
      ensures State() == Receive(config, old(State()), id, remote)
    {
      hide Join, Merge;
      if remote.taskId != id { return; }
      if id !in tasks && |tasks| >= config.maxTasks { return; }
      if id !in tasks {
        tasks := tasks[id := remote];
      } else {
        var merged := MergeRecords(tasks[id], remote);
        if merged.None? { return; }
        tasks := tasks[id := merged.value];
      }
      clock := Merge(clock, remote.clock);
      log := log + [TaskEntry(tasks[id])];
      log := log + [ClockEntry(clock)];
      assert log == old(log) + [TaskEntry(tasks[id]), ClockEntry(clock)];
    }

    /** `_broadcast_task_update`: store, log with the clock, and hand the record to every peer. */
    method Broadcast(record: TaskRecord) returns (sent: TaskRecord)
      modifies this`tasks, this`log
      ensures State() == LoggedWrite(old(State()), clock, record) && sent == record
    {
      tasks := tasks[record.taskId := record];
      log := log + [TaskEntry(record)];
      log := log + [ClockEntry(clock)];
      assert log == old(log) + [TaskEntry(record), ClockEntry(clock)];
      return record;
    }

    /** `_worker_loop` from the dequeued id to the call of the handler. */
    method ClaimTask(id: TaskId, now: real, duration: real, suspected: PeerId -> bool) returns (sent: Option<TaskRecord>)
      requires running.None?
      modifies this
      ensures var was := old(State());
              var s := id in was.tasks && suspected(Holder(was.tasks[id]));
              && State() == Claim(config, was, id, now, duration, s)
              && sent == if ClaimAccepted(config, was, id, now, s) then Some(ClaimRecord(config, was, id, now + duration))
                         else None
    {
      if id !in tasks || tasks[id].state.Terminal() { return None; }
      var record := tasks[id];
      var active := (record.state == CLAIMED || record.state == RUNNING) && record.claimedBy != Some(config.id) &&
        record.leaseExpiry > now && !suspected(Holder(record));
      if active { return None; }
      var token := record.token.NextFor(config.id);
      clock := Increment(clock, config.id);
      var expiry := now + duration;
      var claimed := TaskRecord(id, CLAIMED, record.payload, None, None, Some(config.id), token, expiry, clock,
                                config.id, None, None);
      tasks := tasks[id := claimed];
      var message := Broadcast(claimed);
      var run := TaskRecord(id, RUNNING, record.payload, None, None, Some(config.id), token, expiry, clock,
                            config.id, None, None);
      tasks := tasks[id := run];
      running := Some(Execution(id, record.payload, token, expiry));
      assert tasks == old(tasks)[id := run];
      return Some(message);
    }

    /** `_worker_loop` from the end of the handler: commit the result, or drop it. */
    method FinishTask(now: real, outcome: Outcome) returns (sent: Option<TaskRecord>)
      requires running.Some?
      modifies this
      ensures var was := old(State());
              && State() == Finish(config, was, now, outcome)
              && sent == if CommitAccepted(was, was.running.value, now)
                         then Some(CommitRecord(config, was, was.running.value, outcome)) else None
    {
      var x := running.value;
      running := None;
      if now > x.leaseExpiry { return None; }
      if x.taskId in tasks && !TokenLeq(tasks[x.taskId].token, x.token) { return None; }
      clock := Increment(clock, config.id);
      var committed := TaskRecord(x.taskId, outcome.State(), x.payload, outcome.Result(), outcome.Error(),
                                  Some(config.id), x.token, 0.0, clock, config.id, None, None);
      tasks := tasks[x.taskId := committed];
      var message := Broadcast(committed);
      assert tasks == old(tasks)[x.taskId := committed];
      return Some(message);
    }

    /** One task of the audit, with the record taken from the snapshot. */
    method AuditTask(id: TaskId, record: TaskRecord, now: real, suspected: bool, elected: bool)
      returns (sent: seq<TaskRecord>)
      requires id in tasks && tasks[id] == record
      modifies this
      ensures State() == Reclaim(config, old(State()), id, now, suspected, elected)
      ensures sent == ResetSent(config, old(State()), id, now, suspected, elected)
      ensures forall k :: k != id && k in old(tasks) ==> k in tasks && tasks[k] == old(tasks[k])
    {
      sent := [];
      if (record.state == CLAIMED || record.state == RUNNING) && record.claimedBy != Some(config.id) {
        if record.leaseExpiry <= now && suspected && elected && !config.hasWorker {
          clock := Increment(clock, config.id);
          var reset := TaskRecord(id, PENDING, record.payload, None, None, None, record.token.NextFor(config.id), 0.0,
                                  clock, config.id, None, None);
          tasks := tasks[id := reset];
          var message := Broadcast(reset);
          assert tasks == old(tasks)[id := reset];
          sent := [message];
        }
      }
    }

    /**
      One round of `_reclaim_loop` over a snapshot of the table. The snapshot's
      records are still the current ones when their turn comes.
     */
    method ReclaimAudit(ids: seq<TaskId>, now: real, suspected: PeerId -> bool, score: (TaskId, PeerId) -> int)
      returns (sent: seq<TaskRecord>)
      requires Distinct(ids) && forall id :: id in ids ==> id in tasks
      modifies this
      ensures State() == AuditAll(config, old(State()), ids, now, suspected,
                                  LivePeers(config.id, peers, suspected), score)
      ensures sent == AuditSent(config, old(State()), ids, now, suspected,
                                LivePeers(config.id, peers, suspected), score)
    {
      hide ResetSent, Reclaim, LivePeers, Elect;
      var live := LivePeers(config.id, peers, suspected);
      var snapshot := tasks;
      ghost var start := State();
      sent := [];
      var i := 0;
      while i < |ids|
        invariant 0 <= i <= |ids|
        invariant State() == AuditAll(config, start, ids[..i], now, suspected, live, score)
        invariant sent == AuditSent(config, start, ids[..i], now, suspected, live, score)
        invariant forall j :: i <= j < |ids| ==> ids[j] in tasks && tasks[ids[j]] == snapshot[ids[j]]
      {
        assert ids[..i + 1][..i] == ids[..i];
        var record := snapshot[ids[i]];
        var messages := AuditTask(ids[i], record, now, suspected(Holder(record)), Elected(config.id, ids[i], live, score));
        sent := sent + messages;
        i := i + 1;
      }
      assert ids[..i] == ids;
    }
  }
}
