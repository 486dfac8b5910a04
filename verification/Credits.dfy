/**
  Credit windows (`CreditFlowController` in peerq/queue.py): a send window per
  peer, callers that wait for credits on futures, and replenishment.

  `acquire` is split at its `await`: a call either takes its credits at once or is
  suspended on a fresh future, and runs again when that future is done.
 */
module Credits {
  import opened Orders

  type Peer = string

  datatype Future = Pending | Resolved | Cancelled

  /** A suspended `acquire`. */
  datatype Call = Call(peer: Peer, amount: int, future: Future)

  datatype Window = Window(
    initial: int,                   // default_initial_credits
    credits: map<Peer, int>,
    waiters: map<Peer, seq<nat>>,   // futures, in the order they were queued
    calls: map<nat, Call>,          // suspended calls, by the future each awaits
    next: nat)                      // the next fresh future

  function Credits(w: Window, p: Peer): int { if p in w.credits then w.credits[p] else w.initial }

  function Waiting(w: Window, p: Peer): seq<nat> { if p in w.waiters then w.waiters[p] else [] }

  // ---------- The operations on values ----------

  function Opening(w: Window, p: Peer, amount: int): Window {
    w.(credits := w.credits[p := amount], waiters := w.waiters[p := Waiting(w, p)])
  }

  function Trying(w: Window, p: Peer, amount: int): Window {
    if Credits(w, p) >= amount then w.(credits := w.credits[p := Credits(w, p) - amount]) else w
  }

  /** One pass of the loop in `acquire`: take the credits, or wait on a fresh future. */
  function Acquiring(w: Window, p: Peer, amount: int): Window {
    if Credits(w, p) >= amount then w.(credits := w.credits[p := Credits(w, p) - amount])
    else w.(credits := w.credits[p := Credits(w, p)], waiters := w.waiters[p := Waiting(w, p) + [w.next]],
            calls := w.calls[w.next := Call(p, amount, Pending)], next := w.next + 1)
  }

  function Without(ids: seq<nat>, f: nat): (r: seq<nat>)
    ensures forall g | g != f :: g in r <==> g in ids
    ensures forall g | g in r :: g in ids
  {
    if ids == [] then [] else if ids[0] == f then ids[1..] else [ids[0]] + Without(ids[1..], f)
  }

  /** A done future lets its call run on: retry when resolved, clean up when cancelled. */
  function Resuming(w: Window, f: nat): Window
    requires f in w.calls
  {
    var call, awake := w.calls[f], w.(calls := w.calls - {f});
    match call.future
    case Pending => w
    case Resolved => Acquiring(awake, call.peer, call.amount)
    case Cancelled =>
      if f in Waiting(w, call.peer)
      then awake.(waiters := w.waiters[call.peer := Without(w.waiters[call.peer], f)]) else awake
  }

  function Cancelling(w: Window, f: nat): Window
    requires f in w.calls
  {
    w.(calls := w.calls[f := w.calls[f].(future := Cancelled)])
  }

  function Woken(calls: map<nat, Call>, ids: seq<nat>): map<nat, Call> {
    map f | f in calls :: if f in ids && calls[f].future.Pending? then calls[f].(future := Resolved) else calls[f]
  }

  lemma WokenNone(calls: map<nat, Call>)
    ensures Woken(calls, []) == calls
  {}

  lemma WokenNext(calls: map<nat, Call>, ids: seq<nat>, f: nat)
    ensures var woken := Woken(calls, ids);
            Woken(calls, ids + [f]) ==
            if f in woken && woken[f].future.Pending? then woken[f := woken[f].(future := Resolved)] else woken
  {}

  function Replenishing(w: Window, p: Peer, amount: int): Window {
    if amount <= 0 then w
    else
      var richer := w.(credits := w.credits[p := Credits(w, p) + amount]);
      if Credits(richer, p) <= 0 then richer
      else richer.(calls := Woken(w.calls, Waiting(w, p)),
                   waiters := if p in w.waiters then w.waiters[p := []] else w.waiters)
  }

  // ---------- Runs and their ledger ----------

  datatype Op =
    | Open(peer: Peer, amount: int)
    | Try(peer: Peer, amount: int)
    | Acquire(peer: Peer, amount: int)
    | Resume(future: nat)
    | Cancel(future: nat)
    | Replenish(peer: Peer, amount: int)

  datatype Event = Opened(peer: Peer, amount: int) | Took(peer: Peer, amount: int) | Gave(peer: Peer, amount: int) | Quiet

  function After(w: Window, op: Op): Window {
    match op
    case Open(p, a) => Opening(w, p, a)
    case Try(p, a) => Trying(w, p, a)
    case Acquire(p, a) => Acquiring(w, p, a)
    case Resume(f) => if f in w.calls then Resuming(w, f) else w
    case Cancel(f) => if f in w.calls then Cancelling(w, f) else w
    case Replenish(p, a) => Replenishing(w, p, a)
  }

  /** What the caller of an operation sees happen to the window. */
  function Seen(w: Window, op: Op): Event {
    match op
    case Open(p, a) => Opened(p, a)
    case Try(p, a) => if Credits(w, p) >= a then Took(p, a) else Quiet
    case Acquire(p, a) => if Credits(w, p) >= a then Took(p, a) else Quiet
    case Resume(f) =>
      if f in w.calls && w.calls[f].future.Resolved? && Credits(w, w.calls[f].peer) >= w.calls[f].amount
      then Took(w.calls[f].peer, w.calls[f].amount) else Quiet
    case Cancel(f) => Quiet
    case Replenish(p, a) => if a > 0 then Gave(p, a) else Quiet
  }

  /** Amounts are not negative, and a window is not reopened under a pending call. */
  ghost predicate Allowed(w: Window, op: Op) {
    match op
    case Open(p, a) => a >= 0 && forall f | f in w.calls :: w.calls[f].peer == p ==> !w.calls[f].future.Pending?
    case Try(p, a) => a >= 0
    case Acquire(p, a) => a >= 0
    case _ => true
  }

  function Start(initial: int): Window { Window(initial, map[], map[], map[], 0) }

  function Run(w: Window, ops: seq<Op>): Window
    decreases |ops|
  {
    if ops == [] then w else Run(After(w, ops[0]), ops[1..])
  }

  function Trace(w: Window, ops: seq<Op>): seq<Event>
    decreases |ops|
  {
    if ops == [] then [] else [Seen(w, ops[0])] + Trace(After(w, ops[0]), ops[1..])
  }

  ghost predicate AllowedRun(w: Window, ops: seq<Op>)
    decreases |ops|
  {
    ops != [] ==> Allowed(w, ops[0]) && AllowedRun(After(w, ops[0]), ops[1..])
  }

  /** The window negotiated with a peer: its last opening, or the default. */
  function Capacity(initial: int, trace: seq<Event>, p: Peer): int {
    if trace == [] then initial
    else
      var e := trace[|trace| - 1];
      if e.Opened? && e.peer == p then e.amount else Capacity(initial, trace[..|trace| - 1], p)
  }

  /** Credits taken less credits given back, since the window was last opened. */
  function Outstanding(trace: seq<Event>, p: Peer): int {
    if trace == [] then 0
    else
      var e, before := trace[|trace| - 1], Outstanding(trace[..|trace| - 1], p);
      if e.Quiet? || e.peer != p then before
      else if e.Opened? then 0
      else if e.Took? then before + e.amount else before - e.amount
  }

  // ---------- What every operation keeps ----------

  /** Nobody waits for credits that are there. */
  ghost predicate NoLostWakeup(w: Window) {
    forall f | f in w.calls :: w.calls[f].future.Pending? ==> w.calls[f].amount > Credits(w, w.calls[f].peer)
  }

  /** Every pending call will be found by the next replenishment. */
  ghost predicate Queued(w: Window) {
    forall f | f in w.calls :: w.calls[f].future.Pending? ==> f in Waiting(w, w.calls[f].peer)
  }

  ghost predicate Sane(w: Window) {
    && (forall f | f in w.calls :: f < w.next && w.calls[f].amount >= 0)
    && (forall p :: Credits(w, p) >= 0)
  }

  ghost predicate Balanced(w: Window, trace: seq<Event>) {
    forall p :: Credits(w, p) == Capacity(w.initial, trace, p) - Outstanding(trace, p)
  }

  lemma AcquiringKeeps(w: Window, p: Peer, amount: int)
    requires Sane(w) && NoLostWakeup(w) && Queued(w) && amount >= 0
    ensures var v := Acquiring(w, p, amount); Sane(v) && NoLostWakeup(v) && Queued(v)
  {
    var v := Acquiring(w, p, amount);
    forall q ensures Credits(v, q) >= 0 { assert Credits(w, q) >= 0; }
    forall f | f in v.calls
      ensures f < v.next && v.calls[f].amount >= 0
      ensures v.calls[f].future.Pending? ==>
                v.calls[f].amount > Credits(v, v.calls[f].peer) && f in Waiting(v, v.calls[f].peer)
    {
      assert f == w.next || (f in w.calls && v.calls[f] == w.calls[f]);
    }
  }

  lemma ReplenishingKeeps(w: Window, p: Peer, amount: int)
    requires Sane(w) && NoLostWakeup(w) && Queued(w)
    ensures var v := Replenishing(w, p, amount); Sane(v) && NoLostWakeup(v) && Queued(v)
  {
    var v := Replenishing(w, p, amount);
    assert Credits(w, p) >= 0;
    forall q ensures Credits(v, q) >= 0 { assert Credits(w, q) >= 0; }
    forall f | f in v.calls
      ensures f < v.next && v.calls[f].amount >= 0
      ensures v.calls[f].future.Pending? ==>
                v.calls[f].amount > Credits(v, v.calls[f].peer) && f in Waiting(v, v.calls[f].peer)
    {
      assert f in w.calls;
    }
  }

  lemma ResumingKeeps(w: Window, f: nat)
    requires Sane(w) && NoLostWakeup(w) && Queued(w) && f in w.calls
    ensures var v := Resuming(w, f); Sane(v) && NoLostWakeup(v) && Queued(v)
  {
    var call, awake := w.calls[f], w.(calls := w.calls - {f});
    forall p ensures Credits(awake, p) >= 0 { assert Credits(w, p) >= 0; }
    if call.future.Resolved? { AcquiringKeeps(awake, call.peer, call.amount); }
    if call.future.Cancelled? {
      forall p ensures Credits(Resuming(w, f), p) >= 0 { assert Credits(w, p) >= 0; }
    }
  }

  lemma StepKeeps(w: Window, op: Op)
    requires Sane(w) && NoLostWakeup(w) && Queued(w) && Allowed(w, op)
    ensures var v := After(w, op); Sane(v) && NoLostWakeup(v) && Queued(v)
  {
    hide Acquiring, Replenishing, Resuming;
    match op
    case Acquire(p, a) => AcquiringKeeps(w, p, a);
    case Replenish(p, a) => ReplenishingKeeps(w, p, a);
    case Resume(f) => if f in w.calls { ResumingKeeps(w, f); }
    case _ => forall p ensures Credits(After(w, op), p) >= 0 { assert Credits(w, p) >= 0; }
  }

  /** What an event does to a peer's balance. */
  function Balance(before: int, e: Event, p: Peer): int {
    if e.Quiet? || e.peer != p then before
    else if e.Opened? then e.amount
    else if e.Took? then before - e.amount else before + e.amount
  }

  lemma StepMovesCredits(w: Window, op: Op, p: Peer)
    ensures Credits(After(w, op), p) == Balance(Credits(w, p), Seen(w, op), p) && After(w, op).initial == w.initial
  {
    hide Without, Woken;
  }

  lemma StepBalances(w: Window, op: Op, trace: seq<Event>)
    requires Balanced(w, trace)
    ensures Balanced(After(w, op), trace + [Seen(w, op)]) && After(w, op).initial == w.initial
  {
    hide After, Seen;
    var e, v := Seen(w, op), After(w, op);
    var longer := trace + [e];
    assert longer[..|trace|] == trace;
    StepMovesCredits(w, op, "");
    forall p ensures Credits(v, p) == Capacity(v.initial, longer, p) - Outstanding(longer, p) {
      StepMovesCredits(w, op, p);
      assert Credits(w, p) == Capacity(w.initial, trace, p) - Outstanding(trace, p);
    }
  }

  /**
    Over every run: each peer's credits are its negotiated window less what is
    outstanding, they are never negative, so what is outstanding never exceeds the
    window; and no call waits for credits that are there.
   */
  lemma WindowsAreHonoured(initial: int, ops: seq<Op>)
    requires initial >= 0 && AllowedRun(Start(initial), ops)
    ensures var w, trace := Run(Start(initial), ops), Trace(Start(initial), ops);
            && Balanced(w, trace) && NoLostWakeup(w) && Queued(w)
            && forall p :: 0 <= Credits(w, p) && Outstanding(trace, p) <= Capacity(initial, trace, p)
  {
    var s, w, trace := Start(initial), Run(Start(initial), ops), Trace(Start(initial), ops);
    forall p ensures Credits(s, p) == Capacity(initial, [], p) - Outstanding([], p) {}
    RunKeeps(s, ops, []);
    assert [] + trace == trace;
    forall p ensures 0 <= Credits(w, p) && Outstanding(trace, p) <= Capacity(initial, trace, p) {
      assert Credits(w, p) == Capacity(w.initial, trace, p) - Outstanding(trace, p);
    }
  }

  lemma {:induction false} RunKeeps(w: Window, ops: seq<Op>, trace: seq<Event>)
    requires Sane(w) && NoLostWakeup(w) && Queued(w) && Balanced(w, trace) && AllowedRun(w, ops)
    ensures var v := Run(w, ops);
            Sane(v) && NoLostWakeup(v) && Queued(v) && Balanced(v, trace + Trace(w, ops)) && v.initial == w.initial
    decreases |ops|
  {
    hide Sane, NoLostWakeup, Queued, Balanced, Allowed, After, Seen;
    if ops == [] {
      assert trace + Trace(w, ops) == trace;
    } else {
      var op := ops[0];
      StepKeeps(w, op);
      StepBalances(w, op, trace);
      RunKeeps(After(w, op), ops[1..], trace + [Seen(w, op)]);
      assert trace + Trace(w, ops) == trace + [Seen(w, op)] + Trace(After(w, op), ops[1..]);
    }
  }

  /** A replenishment wakes every caller pending on that peer. */
  lemma ReplenishWakesAll(w: Window, p: Peer, amount: int, f: nat)
    requires Sane(w) && Queued(w) && amount > 0 && f in w.calls && w.calls[f].peer == p
    ensures f in Replenishing(w, p, amount).calls && !Replenishing(w, p, amount).calls[f].future.Pending?
  {
    assert Credits(w, p) >= 0;
  }

  /**
    Opening a window again wakes nobody, so it keeps the promise exactly when every
    pending call on that peer still asks for more than the new window.
   */
  lemma ReopeningLosesWakeups(w: Window, p: Peer, amount: int)
    requires NoLostWakeup(w)
    ensures NoLostWakeup(Opening(w, p, amount)) <==>
            forall f | f in w.calls :: w.calls[f].future.Pending? && w.calls[f].peer == p ==> w.calls[f].amount > amount
  {
    var v := Opening(w, p, amount);
    forall f | f in w.calls
      ensures Credits(v, w.calls[f].peer) == if w.calls[f].peer == p then amount else Credits(w, w.calls[f].peer)
    {}
  }

  /** For instance: a caller waiting on an empty window is not woken when ten credits are granted afresh. */
  lemma ReopenedWindowStrandsWaiter()
    ensures var w := Run(Start(0), [Acquire("peer", 1), Open("peer", 10)]);
            Credits(w, "peer") == 10 && 0 in w.calls && w.calls[0] == Call("peer", 1, Pending) && !NoLostWakeup(w)
  {
    var first, second := Acquire("peer", 1), Open("peer", 10);
    var w := After(After(Start(0), first), second);
    assert [first, second][1..] == [second];
    assert Run(After(Start(0), first), [second]) == w;
    assert w.calls[0] == Call("peer", 1, Pending);
  }

  // ---------- The controller object ----------

  class CreditFlowController {
    const initial: int
    var credits: map<Peer, int>
    var waiters: map<Peer, seq<nat>>
    var calls: map<nat, Call>
    var next: nat

    function View(): Window reads this { Window(initial, credits, waiters, calls, next) }

    constructor (initialCredits: int)
      ensures View() == Start(initialCredits)
    {
      initial, credits, waiters, calls, next := initialCredits, map[], map[], map[], 0;
    }

    /** `init_peer`. */
    method InitPeer(peer: Peer, amount: Option<int>)
      modifies this`credits, this`waiters
      ensures View() == Opening(old(View()), peer, if amount.Some? then amount.value else initial)
      ensures GetCredits(peer) == if amount.Some? then amount.value else initial
    {
      credits := credits[peer := if amount.Some? then amount.value else initial];
      if peer !in waiters { waiters := waiters[peer := []]; }
      assert waiters == old(waiters)[peer := Waiting(old(View()), peer)];
    }

    /** `get_credits`. */
    function GetCredits(peer: Peer): (r: int)
      reads this
      ensures r == Credits(View(), peer)
    {
      if peer in credits then credits[peer] else initial
    }

    /** `try_acquire`. */
    method TryAcquire(peer: Peer, amount: int) returns (taken: bool)
      modifies this`credits
      ensures View() == Trying(old(View()), peer, amount)
      ensures taken <==> amount <= old(GetCredits(peer))
      ensures GetCredits(peer) == old(GetCredits(peer)) - if taken then amount else 0
    {
      var current := GetCredits(peer);
      if current >= amount {
        credits := credits[peer := current - amount];
        return true;
      }
      return false;
    }

    /** `acquire` up to its first suspension, if any: the future awaited, or `None` when it has returned. */
    method AcquireCredits(peer: Peer, amount: int) returns (awaited: Option<nat>)
      modifies this`credits, this`waiters, this`calls, this`next
      ensures View() == Acquiring(old(View()), peer, amount)
      ensures awaited == if amount <= old(GetCredits(peer)) then None else Some(old(next))
      ensures GetCredits(peer) == old(GetCredits(peer)) - if awaited.None? then amount else 0
    {
      if peer !in credits { credits := credits[peer := initial]; }
      if credits[peer] < amount {
        awaited := Some(next);
        waiters := waiters[peer := (if peer in waiters then waiters[peer] else []) + [next]];
        calls, next := calls[next := Call(peer, amount, Pending)], next + 1;
        assert credits == old(credits)[peer := Credits(old(View()), peer)];
      } else {
        credits := credits[peer := credits[peer] - amount];
        awaited := None;
        assert credits == old(credits)[peer := Credits(old(View()), peer) - amount];
      }
    }

    /** `acquire` after its future is done: around the loop again, or out through the cancellation. */
    method ResumeCall(f: nat) returns (awaited: Option<nat>)
      requires f in calls && !calls[f].future.Pending?
      modifies this`credits, this`waiters, this`calls, this`next
      ensures View() == Resuming(old(View()), f)
      ensures var call := old(calls[f]);
              awaited == if call.future.Resolved? && Credits(old(View()), call.peer) < call.amount
                         then Some(old(next)) else None
    {
      var call := calls[f];
      calls := calls - {f};
      if call.future.Cancelled? {
        if call.peer in waiters && f in waiters[call.peer] {
          waiters := waiters[call.peer := Without(waiters[call.peer], f)];
        }
        return None;
      }
      awaited := AcquireCredits(call.peer, call.amount);
    }

    /** The caller's task is cancelled while suspended. */
    method CancelCall(f: nat)
      requires f in calls
      modifies this`calls
      ensures View() == Cancelling(old(View()), f)
    {
      calls := calls[f := calls[f].(future := Cancelled)];
    }

    /** `replenish`: give credits back, then resolve waiting futures from the front. */
    method ReplenishCredits(peer: Peer, amount: int)
      modifies this`credits, this`waiters, this`calls
      ensures View() == Replenishing(old(View()), peer, amount)
      ensures GetCredits(peer) == old(GetCredits(peer)) + if amount > 0 then amount else 0
    {
      hide Woken;
      if amount <= 0 { return; }
      credits := credits[peer := GetCredits(peer) + amount];
      WokenNone(calls);
      if peer in waiters { WakeAll(peer); }
    }

    /** The loop of `replenish`: pop waiting futures and resolve them while the balance is positive. */
    method WakeAll(peer: Peer)
      requires peer in waiters && peer in credits
      modifies this`waiters, this`calls
      ensures credits[peer] > 0 ==>
              waiters == old(waiters)[peer := []] && calls == Woken(old(calls), old(waiters)[peer])
      ensures credits[peer] <= 0 ==> waiters == old(waiters) && calls == old(calls)
    {
      hide Woken;
      if credits[peer] <= 0 { return; }
      ghost var ids, gone := waiters[peer], [];
      WokenNone(calls);
      while waiters[peer] != [] && credits[peer] > 0
        invariant peer in waiters && ids == gone + waiters[peer] && calls == Woken(old(calls), gone)
        invariant waiters == old(waiters)[peer := waiters[peer]]
        decreases |waiters[peer]|
      {
        var f := waiters[peer][0];
        WokenNext(old(calls), gone, f);
        waiters := waiters[peer := waiters[peer][1..]];
        if f in calls && calls[f].future.Pending? { calls := calls[f := calls[f].(future := Resolved)]; }
        gone := gone + [f];
      }
      assert gone == ids;
    }
  }
}
