/**
  The virtual clock (`SimClock` in peerq/clock.py): sleepers in a heap, woken in
  order of deadline and registration as time is advanced. A sleeper's future is
  named by its registration counter.
 */
module SimClocks {
  import opened Orders
  import opened Heaps

  datatype Sleeper = Sleeper(deadline: real, counter: nat)

  predicate Earlier(a: Sleeper, b: Sleeper) {
    a.deadline < b.deadline || (a.deadline == b.deadline && a.counter <= b.counter)
  }

  lemma EarlierPreorder()
    ensures TotalPreorder(Earlier)
  {}

  /** A future resolved at a virtual time. */
  datatype Wake = Wake(counter: nat, at: real)

  // ---------- The reference timeline ----------

  /** The wake-ups of advancing to `target`, from a line in order of deadline and registration. */
  function Wakes(line: seq<Sleeper>, cancelled: set<nat>, target: real): seq<Wake> {
    if line == [] || line[0].deadline > target then []
    else (if line[0].counter in cancelled then [] else [Wake(line[0].counter, line[0].deadline)]) +
         Wakes(line[1..], cancelled, target)
  }

  function Remaining(line: seq<Sleeper>, target: real): seq<Sleeper> {
    if line == [] || line[0].deadline > target then line else Remaining(line[1..], target)
  }

  ghost predicate After(line: seq<Sleeper>, now: real) { forall i | 0 <= i < |line| :: line[i].deadline > now }

  lemma {:induction false} WakesMembers(line: seq<Sleeper>, cancelled: set<nat>, target: real, w: Wake)
    requires InOrder(Earlier, line)
    ensures w in Wakes(line, cancelled, target) <==>
            Sleeper(w.at, w.counter) in line && w.at <= target && w.counter !in cancelled
  {
    if line != [] {
      assert line == [line[0]] + line[1..];
      if line[0].deadline > target {
        forall i | 0 <= i < |line| ensures line[i].deadline > target {}
      } else {
        WakesMembers(line[1..], cancelled, target, w);
      }
    }
  }

  /** Wake-ups come in order of deadline and registration, each sleeper at most once. */
  ghost predicate WokenInOrder(ws: seq<Wake>) {
    forall i, j | 0 <= i < j < |ws| :: ws[i].at < ws[j].at || (ws[i].at == ws[j].at && ws[i].counter < ws[j].counter)
  }

  lemma {:induction false} WakesInOrder(line: seq<Sleeper>, cancelled: set<nat>, target: real)
    requires InOrder(Earlier, line)
    ensures WokenInOrder(Wakes(line, cancelled, target))
  {
    if line != [] && line[0].deadline <= target {
      WakesInOrder(line[1..], cancelled, target);
      var rest := Wakes(line[1..], cancelled, target);
      forall j | 0 <= j < |rest| ensures !Earlier(Sleeper(rest[j].at, rest[j].counter), line[0]) {
        WakesMembers(line[1..], cancelled, target, rest[j]);
        var i :| 0 <= i < |line[1..]| && line[1..][i] == Sleeper(rest[j].at, rest[j].counter);
        assert line[i + 1] == line[1..][i];
      }
    }
  }

  /**
    Exactly the live sleepers due by the target are woken, once each, in order of
    deadline and registration; everyone left is due later.
   */
  lemma {:induction false} AdvanceWakesExactlyTheDue(line: seq<Sleeper>, cancelled: set<nat>, target: real)
    requires InOrder(Earlier, line)
    ensures forall w :: w in Wakes(line, cancelled, target) <==>
              Sleeper(w.at, w.counter) in line && w.at <= target && w.counter !in cancelled
    ensures WokenInOrder(Wakes(line, cancelled, target))
    ensures After(Remaining(line, target), target)
    ensures forall s :: s in Remaining(line, target) <==> s in line && s.deadline > target
  {
    forall w ensures w in Wakes(line, cancelled, target) <==>
              Sleeper(w.at, w.counter) in line && w.at <= target && w.counter !in cancelled
    {
      WakesMembers(line, cancelled, target, w);
    }
    WakesInOrder(line, cancelled, target);
    RemainingMembers(line, target);
  }

  lemma {:induction false} RemainingMembers(line: seq<Sleeper>, target: real)
    requires InOrder(Earlier, line)
    ensures After(Remaining(line, target), target) && InOrder(Earlier, Remaining(line, target))
    ensures forall s :: s in Remaining(line, target) <==> s in line && s.deadline > target
  {
    if line != [] {
      assert line == [line[0]] + line[1..];
      if line[0].deadline <= target {
        RemainingMembers(line[1..], target);
      } else {
        forall i | 0 <= i < |line| ensures line[i].deadline > target {}
      }
    }
  }

  /** Advancing in two steps wakes the same sleepers, in the same order, as advancing at once. */
  lemma {:induction false} AdvanceSplits(line: seq<Sleeper>, cancelled: set<nat>, t: real, u: real)
    requires t <= u
    ensures Wakes(line, cancelled, u) == Wakes(line, cancelled, t) + Wakes(Remaining(line, t), cancelled, u)
    ensures Remaining(Remaining(line, t), u) == Remaining(line, u)
  {
    if line != [] && line[0].deadline <= t { AdvanceSplits(line[1..], cancelled, t, u); }
  }

  function WakesAlong(line: seq<Sleeper>, cancelled: set<nat>, targets: seq<real>): seq<Wake>
    decreases |targets|
  {
    if targets == [] then []
    else Wakes(line, cancelled, targets[0]) + WakesAlong(Remaining(line, targets[0]), cancelled, targets[1..])
  }

  function RemainingAlong(line: seq<Sleeper>, targets: seq<real>): seq<Sleeper>
    decreases |targets|
  {
    if targets == [] then line else RemainingAlong(Remaining(line, targets[0]), targets[1..])
  }

  ghost predicate NonDecreasing(ts: seq<real>) { forall i, j | 0 <= i < j < |ts| :: ts[i] <= ts[j] }

  /** Any number of pieces: only the final target matters. */
  lemma {:induction false} AdvanceInPieces(line: seq<Sleeper>, cancelled: set<nat>, targets: seq<real>)
    requires targets != [] && NonDecreasing(targets)
    ensures var last := targets[|targets| - 1];
            && WakesAlong(line, cancelled, targets) == Wakes(line, cancelled, last)
            && RemainingAlong(line, targets) == Remaining(line, last)
    decreases |targets|
  {
    if |targets| > 1 {
      AdvanceInPieces(Remaining(line, targets[0]), cancelled, targets[1..]);
      AdvanceSplits(line, cancelled, targets[0], targets[|targets| - 1]);
    }
  }

  /** Drop cancelled sleepers from the front. */
  function SkipCancelled(line: seq<Sleeper>, cancelled: set<nat>): (r: seq<Sleeper>)
    ensures r != [] ==> r[0].counter !in cancelled
  {
    if line == [] || line[0].counter !in cancelled then line else SkipCancelled(line[1..], cancelled)
  }

  /** Dropping them changes no wake-up. */
  lemma {:induction false} SkipCancelledSilent(line: seq<Sleeper>, cancelled: set<nat>, target: real)
    requires SkipCancelled(line, cancelled) != [] ==> SkipCancelled(line, cancelled)[0].deadline <= target
    requires InOrder(Earlier, line)
    ensures SkipCancelled(line, cancelled) != [] ==>
              Wakes(SkipCancelled(line, cancelled), cancelled, target) == Wakes(line, cancelled, target)
    ensures SkipCancelled(line, cancelled) != [] ==>
              Remaining(SkipCancelled(line, cancelled), target) == Remaining(line, target)
    ensures SkipCancelled(line, cancelled) == [] ==> Wakes(line, cancelled, target) == []
  {
    if line != [] && line[0].counter in cancelled {
      SkipCancelledSilent(line[1..], cancelled, target);
      if SkipCancelled(line[1..], cancelled) != [] { FrontIsEarliest(line, cancelled); }
    }
  }

  lemma {:induction false} FrontIsEarliest(line: seq<Sleeper>, cancelled: set<nat>)
    requires InOrder(Earlier, line) && SkipCancelled(line, cancelled) != []
    ensures line != [] && line[0].deadline <= SkipCancelled(line, cancelled)[0].deadline
  {
    if line[0].counter in cancelled {
      FrontIsEarliest(line[1..], cancelled);
      assert !Earlier(line[1], line[0]);
    }
  }

  /** The wake-ups so far happened in order of time, none after `now`. */
  ghost predicate Chronicle(ws: seq<Wake>, now: real) {
    && (forall i, j | 0 <= i < j < |ws| :: ws[i].at <= ws[j].at)
    && (forall i | 0 <= i < |ws| :: ws[i].at <= now)
  }

  /** Time never moves backwards: an advance extends the chronicle. */
  lemma ChronicleExtends(ws: seq<Wake>, now: real, line: seq<Sleeper>, cancelled: set<nat>, target: real)
    requires Chronicle(ws, now) && After(line, now) && InOrder(Earlier, line) && now <= target
    ensures Chronicle(ws + Wakes(line, cancelled, target), target)
  {
    hide Wakes;
    var new_ := Wakes(line, cancelled, target);
    WakesInOrder(line, cancelled, target);
    forall i | 0 <= i < |new_| ensures now < new_[i].at <= target {
      WakesMembers(line, cancelled, target, new_[i]);
      var k :| 0 <= k < |line| && line[k] == Sleeper(new_[i].at, new_[i].counter);
    }
  }

  lemma UnfoldAdvance(line: seq<Sleeper>, cancelled: set<nat>, target: real)
    ensures if line == [] || line[0].deadline > target
            then Wakes(line, cancelled, target) == [] && Remaining(line, target) == line
            else Wakes(line, cancelled, target) ==
                 (if line[0].counter in cancelled then [] else [Wake(line[0].counter, line[0].deadline)]) +
                 Wakes(line[1..], cancelled, target)
    ensures line != [] && line[0].deadline <= target ==> Remaining(line, target) == Remaining(line[1..], target)
  {}

  // ---------- The clock object ----------

  class SimClock {
    var now: real
    var sleepers: seq<Sleeper>  // the heap
    var counter: nat
    var cancelled: set<nat>     // futures cancelled by their callers
    var woken: seq<Wake>        // futures resolved so far, with the time of each
    ghost var line: seq<Sleeper>

    ghost predicate Valid() reads this {
      && HeapOk(Earlier, sleepers) && Lined(Earlier, sleepers, line) && After(line, now)
      && Registered(line, counter) && Chronicle(woken, now)
    }

    constructor (initial: real)
      ensures Valid() && now == initial && line == [] && woken == [] && cancelled == {}
    {
      now, sleepers, counter, cancelled, woken, line := initial, [], 0, {}, [], [];
    }

    /** `sleep`: a positive delay registers a sleeper; otherwise the caller only yields. */
    method Sleep(delay: real) returns (id: Option<nat>)
      requires Valid()
      modifies this`sleepers, this`counter, this`line
      ensures Valid() && id.Some? == (delay > 0.0)
      ensures id.Some? ==> id.value == old(counter) && line == Join(Earlier, old(line), Sleeper(now + delay, id.value))
      ensures id.None? ==> line == old(line)
    {
      hide HeapOk, TotalPreorder, Earlier, Lined, After, Registered, Join, Chronicle;
      if delay <= 0.0 { return None; }
      var s := Sleeper(now + delay, counter);
      EarlierPreorder();
      var grown := Push(Earlier, sleepers, s);
      SleeperJoins(sleepers, line, s, grown, now, counter);
      sleepers, line, counter := grown, Join(Earlier, line, s), counter + 1;
      return Some(s.counter);
    }

    method Cancel(id: nat)
      requires Valid()
      modifies this`cancelled
      ensures Valid() && cancelled == old(cancelled) + {id}
    {
      cancelled := cancelled + {id};
    }

    /** Pop the earliest sleeper off the heap. */
    method PopEarliest() returns (s: Sleeper)
      requires HeapOk(Earlier, sleepers) && Lined(Earlier, sleepers, line) && sleepers != []
      modifies this`sleepers, this`line
      ensures HeapOk(Earlier, sleepers) && Lined(Earlier, sleepers, line)
      ensures old(line) != [] && s == old(line)[0] == old(sleepers)[0] && line == old(line)[1..]
      ensures |sleepers| == old(|sleepers|) - 1
    {
      hide HeapOk, TotalPreorder, Earlier;
      EarlierPreorder();
      RootIsHead(Earlier, sleepers, line);
      var rest;
      s, rest := Pop(Earlier, sleepers);
      PopLined(Earlier, sleepers, line, s, rest);
      sleepers, line := rest, line[1..];
    }

    /** `advance_to`: `None` stands for the refusal to go backwards, otherwise the number woken. */
    method AdvanceTo(target: real) returns (count: Option<nat>)
      requires Valid()
      modifies this`now, this`sleepers, this`woken, this`line
      ensures Valid() && count.Some? == (target >= old(now))
      ensures count.None? ==> unchanged(this)
      ensures count.Some? ==>
              && now == target
              && line == Remaining(old(line), target)
              && woken == old(woken) + Wakes(old(line), cancelled, target)
              && count.value == |Wakes(old(line), cancelled, target)|
    {
      hide HeapOk, TotalPreorder, Earlier, Lined, Wakes, Remaining, Chronicle, InOrder, After;
      if target < now { return None; }
      var n := 0;
      ghost var due := [];
      while sleepers != []
        invariant HeapOk(Earlier, sleepers) && Lined(Earlier, sleepers, line) && Registered(line, counter)
        invariant woken == old(woken) + due && n == |due|
        invariant due + Wakes(line, cancelled, target) == Wakes(old(line), cancelled, target)
        invariant Remaining(line, target) == Remaining(old(line), target)
        decreases |sleepers|
      {
        EarlierPreorder();
        RootIsHead(Earlier, sleepers, line);
        UnfoldAdvance(line, cancelled, target);
        if sleepers[0].deadline > target { break; }
        var s := PopEarliest();
        if s.counter !in cancelled {
          now := s.deadline;
          woken := woken + [Wake(s.counter, s.deadline)];
          due := due + [Wake(s.counter, s.deadline)];
          n := n + 1;
        }
      }
      LineEmpty(sleepers, line);
      UnfoldAdvance(line, cancelled, target);
      assert due == Wakes(old(line), cancelled, target);
      LinedInOrder(old(sleepers), old(line));
      RemainingMembers(old(line), target);
      ChronicleExtends(old(woken), old(now), old(line), cancelled, target);
      now := target;
      return Some(n);
    }

    /** `advance`. */
    method Advance(duration: real) returns (count: Option<nat>)
      requires Valid()
      modifies this`now, this`sleepers, this`woken, this`line
      ensures Valid() && count.Some? == (duration >= 0.0)
      ensures count.None? ==> unchanged(this)
      ensures count.Some? ==> now == old(now) + duration && line == Remaining(old(line), now) &&
                              woken == old(woken) + Wakes(old(line), cancelled, now)
    {
      if duration < 0.0 { return None; }
      count := AdvanceTo(now + duration);
    }

    /** `step`: advance to the earliest live deadline, if there is one. */
    method Step() returns (time: Option<real>)
      requires Valid()
      modifies this`now, this`sleepers, this`woken, this`line
      ensures Valid()
      ensures var live := SkipCancelled(old(line), cancelled);
              if live == [] then time.None? && now == old(now) && woken == old(woken) && line == []
              else time == Some(live[0].deadline) && now == live[0].deadline && line == Remaining(old(line), now) &&
                   woken == old(woken) + Wakes(old(line), cancelled, now)
    {
      hide HeapOk, TotalPreorder, Earlier, Lined, Chronicle;
      while sleepers != []
        invariant Valid()
        invariant now == old(now) && woken == old(woken)
        invariant SkipCancelled(line, cancelled) == SkipCancelled(old(line), cancelled)
        decreases |sleepers|
      {
        EarlierPreorder();
        RootIsHead(Earlier, sleepers, line);
        if sleepers[0].counter !in cancelled { break; }
        var s := PopEarliest();
      }
      LineEmpty(sleepers, line);
      if sleepers == [] { return None; }
      EarlierPreorder();
      RootIsHead(Earlier, sleepers, line);
      var earliest := sleepers[0].deadline;
      LinedInOrder(old(sleepers), old(line));
      SkipCancelledSilent(old(line), cancelled, earliest);
      var count := AdvanceTo(earliest);
      return Some(now);
    }
  }

  ghost predicate Registered(line: seq<Sleeper>, n: nat) { forall i | 0 <= i < |line| :: line[i].counter < n }

  lemma LineEmpty(h: seq<Sleeper>, line: seq<Sleeper>)
    requires Lined(Earlier, h, line)
    ensures h == [] <==> line == []
  {
    SameMembers(h, line);
  }

  lemma LinedInOrder(h: seq<Sleeper>, line: seq<Sleeper>)
    requires Lined(Earlier, h, line)
    ensures InOrder(Earlier, line)
  {}

  lemma SleeperJoins(h: seq<Sleeper>, line: seq<Sleeper>, s: Sleeper, grown: seq<Sleeper>, now: real, n: nat)
    requires Lined(Earlier, h, line) && After(line, now) && Registered(line, n)
    requires s.counter == n && s.deadline > now && multiset(grown) == multiset(h) + multiset{s}
    ensures var line' := Join(Earlier, line, s);
            Lined(Earlier, grown, line') && After(line', now) && Registered(line', n + 1)
  {
    EarlierPreorder();
    forall y | y in line ensures !(Earlier(s, y) && Earlier(y, s)) {
      var i :| 0 <= i < |line| && line[i] == y;
    }
    JoinInOrder(Earlier, line, s);
    var line' := Join(Earlier, line, s);
    forall k | 0 <= k < |line'| ensures line'[k].deadline > now && line'[k].counter < n + 1 {
      assert line'[k] in multiset(line');
      assert line'[k] == s || line'[k] in line;
    }
  }
}
