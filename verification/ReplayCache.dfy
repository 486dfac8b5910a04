/**
  The bounded nonce cache (`ReplayCache` in peerq/security.py): an ordered
  dictionary of accepted (sender, nonce) pairs, trimmed from its oldest end.
 */
module ReplayCaches {
  datatype Key = Key(sender: string, nonce: string)

  datatype Entry = Entry(key: Key, time: real)

  datatype Request = Request(key: Key, now: real)

  predicate Has(entries: seq<Entry>, key: Key) { exists i :: 0 <= i < |entries| && entries[i].key == key }

  // ---------- One check, on values ----------

  /** How many entries at the old end are before the cutoff. */
  function Stale(entries: seq<Entry>, cutoff: real): (n: nat)
    ensures n <= |entries|
    ensures forall i | 0 <= i < n :: entries[i].time < cutoff
    ensures n < |entries| ==> entries[n].time >= cutoff
  {
    if entries == [] || entries[0].time >= cutoff then 0 else 1 + Stale(entries[1..], cutoff)
  }

  function Expire(entries: seq<Entry>, cutoff: real): seq<Entry> { entries[Stale(entries, cutoff)..] }

  function Newest(entries: seq<Entry>, max: nat): seq<Entry> {
    if |entries| <= max then entries else entries[|entries| - max..]
  }

  function Fresh(entries: seq<Entry>, r: Request, window: real): bool {
    !Has(Expire(entries, r.now - window), r.key)
  }

  function Checked(entries: seq<Entry>, r: Request, window: real, max: nat): seq<Entry> {
    var kept := Expire(entries, r.now - window);
    if Has(kept, r.key) then kept else Newest(kept + [Entry(r.key, r.now)], max)
  }

  // ---------- Runs ----------

  /** The cache after a run of checks with one window. */
  function Cache(rs: seq<Request>, window: real, max: nat): seq<Entry> {
    if rs == [] then [] else Checked(Cache(rs[..|rs| - 1], window, max), rs[|rs| - 1], window, max)
  }

  /** Every check that was accepted, in order. */
  function Accepted(rs: seq<Request>, window: real, max: nat): seq<Entry> {
    if rs == [] then []
    else
      var before, r := rs[..|rs| - 1], rs[|rs| - 1];
      Accepted(before, window, max) +
      (if Fresh(Cache(before, window, max), r, window) then [Entry(r.key, r.now)] else [])
  }

  /** The positions of the accepted checks in the run. */
  function When(rs: seq<Request>, window: real, max: nat): (at: seq<nat>)
    ensures |at| == |Accepted(rs, window, max)|
    ensures forall i | 0 <= i < |at| :: at[i] < |rs|
    ensures forall i | 0 <= i < |at| :: Accepted(rs, window, max)[i] == Entry(rs[at[i]].key, rs[at[i]].now)
  {
    if rs == [] then []
    else
      var before, r := rs[..|rs| - 1], rs[|rs| - 1];
      When(before, window, max) + (if Fresh(Cache(before, window, max), r, window) then [|rs| - 1] else [])
  }

  ghost predicate TimesRise(rs: seq<Request>) { forall i, j | 0 <= i < j < |rs| :: rs[i].now <= rs[j].now }

  ghost predicate Ascending(es: seq<Entry>) { forall i, j | 0 <= i < j < |es| :: es[i].time <= es[j].time }

  /** Some check after position `at` and before `upto` had its cutoff past the time. */
  ghost predicate Outrun(rs: seq<Request>, at: nat, upto: nat, window: real, time: real) {
    exists m :: at < m < upto && m < |rs| && time < rs[m].now - window
  }

  /** The accepted events that some later check had its cutoff past. */
  ghost function Superseded(rs: seq<Request>, window: real, max: nat): (gone: set<nat>) {
    set i | 0 <= i < |When(rs, window, max)| &&
            Outrun(rs, When(rs, window, max)[i], |rs|, window, Accepted(rs, window, max)[i].time)
  }

  /** `cache` is what is left of `accepted`: a suffix of at most `max`, from which only events in `gone` are missing. */
  ghost predicate Suffix(cache: seq<Entry>, accepted: seq<Entry>, gone: set<nat>, max: nat) {
    && |cache| <= max && |cache| <= |accepted| && cache == accepted[|accepted| - |cache|..]
    && forall i | 0 <= i < |accepted| - |cache| :: i < |accepted| - max || i in gone
  }

  /** The reference: one of the last `max` accepted events is this key, still inside the window. */
  ghost predicate Remembered(accepted: seq<Entry>, key: Key, cutoff: real, max: nat) {
    exists i :: 0 <= i < |accepted| && i >= |accepted| - max && accepted[i].key == key && accepted[i].time >= cutoff
  }

  // ---------- The cache is a suffix of what was accepted, at any times ----------

  lemma ExpireKeepsSuffix(cache: seq<Entry>, accepted: seq<Entry>, gone: set<nat>, gone': set<nat>, cutoff: real, max: nat)
    requires Suffix(cache, accepted, gone, max) && gone <= gone'
    requires forall i | 0 <= i < |accepted| :: accepted[i].time < cutoff ==> i in gone'
    ensures Suffix(Expire(cache, cutoff), accepted, gone', max)
  {
    var k, n := |accepted| - |cache|, Stale(cache, cutoff);
    assert Expire(cache, cutoff) == accepted[k + n..];
    forall i | 0 <= i < k + n ensures i < |accepted| - max || i in gone' {
      if i >= k { assert accepted[i] == cache[i - k]; }
    }
  }

  lemma NewestKeepsSuffix(kept: seq<Entry>, accepted: seq<Entry>, e: Entry, gone: set<nat>, max: nat)
    requires Suffix(kept, accepted, gone, max)
    ensures Suffix(Newest(kept + [e], max), accepted + [e], gone, max)
  {
    var grown, next := accepted + [e], Newest(kept + [e], max);
    assert kept + [e] == grown[|accepted| - |kept|..];
    assert next == grown[|grown| - |next|..];
  }

  lemma WhenGrows(before: seq<Request>, r: Request, window: real, max: nat)
    ensures var rs, isFresh := before + [r], Fresh(Cache(before, window, max), r, window);
            && Accepted(rs, window, max) == Accepted(before, window, max) + (if isFresh then [Entry(r.key, r.now)] else [])
            && When(rs, window, max) == When(before, window, max) + (if isFresh then [|before|] else [])
            && Cache(rs, window, max) == Checked(Cache(before, window, max), r, window, max)
  {
    hide Checked, Fresh;
    assert (before + [r])[..|before|] == before;
  }

  lemma OutrunGrows(before: seq<Request>, r: Request, at: nat, window: real, time: real)
    requires at < |before|
    ensures Outrun(before, at, |before|, window, time) || time < r.now - window ==>
            Outrun(before + [r], at, |before| + 1, window, time)
  {
    var rs := before + [r];
    if m :| at < m < |before| && m < |before| && time < before[m].now - window {
      assert rs[m] == before[m];
    } else if time < r.now - window {
      assert rs[|before|] == r;
    }
  }

  lemma GoneGrows(before: seq<Request>, r: Request, window: real, max: nat)
    ensures var gone, gone' := Superseded(before, window, max), Superseded(before + [r], window, max);
            && gone <= gone'
            && forall i | 0 <= i < |Accepted(before, window, max)| ::
                 Accepted(before, window, max)[i].time < r.now - window ==> i in gone'
  {
    hide Accepted, When, Outrun;
    WhenGrows(before, r, window, max);
    var acc, at := Accepted(before, window, max), When(before, window, max);
    forall i | 0 <= i < |acc|
      ensures i in Superseded(before, window, max) || acc[i].time < r.now - window ==> i in Superseded(before + [r], window, max)
    {
      OutrunGrows(before, r, at[i], window, acc[i].time);
    }
  }

  /** At any times: the cache is the newest accepted events, less some that a later check had its cutoff past. */
  lemma {:induction false} CacheIsSuffix(rs: seq<Request>, window: real, max: nat)
    ensures Suffix(Cache(rs, window, max), Accepted(rs, window, max), Superseded(rs, window, max), max)
    decreases |rs|, 0
  {
    hide Suffix, Superseded, Expire, Newest, Has, Accepted, Cache;
    if rs == [] {
      NothingCached(window, max);
    } else {
      var before, r := rs[..|rs| - 1], rs[|rs| - 1];
      assert rs == before + [r];
      KeptIsSuffix(before, r, window, max);
      WhenGrows(before, r, window, max);
      var kept, acc := Expire(Cache(before, window, max), r.now - window), Accepted(before, window, max);
      if !Has(kept, r.key) {
        NewestKeepsSuffix(kept, acc, Entry(r.key, r.now), Superseded(rs, window, max), max);
      } else {
        assert acc + [] == acc;
      }
    }
  }

  lemma NothingCached(window: real, max: nat)
    ensures Suffix(Cache([], window, max), Accepted([], window, max), Superseded([], window, max), max)
  {}

  /** What a check sees, after it has dropped what expired. */
  lemma {:induction false} KeptIsSuffix(before: seq<Request>, r: Request, window: real, max: nat)
    ensures Suffix(Expire(Cache(before, window, max), r.now - window), Accepted(before, window, max),
                   Superseded(before + [r], window, max), max)
    decreases |before|, 1
  {
    hide Suffix, Superseded, Expire, Accepted, Cache;
    CacheIsSuffix(before, window, max);
    GoneGrows(before, r, window, max);
    ExpireKeepsSuffix(Cache(before, window, max), Accepted(before, window, max), Superseded(before, window, max),
                      Superseded(before + [r], window, max), r.now - window, max);
  }

  // ---------- Replays, at any times ----------

  /**
    Whole-run safety at any times: a key is accepted again only more than `max`
    acceptances later, or after some check in between, the accepting one included,
    had its cutoff past the first.
   */
  ghost predicate ReplaysExcused(rs: seq<Request>, window: real, max: nat) {
    var acc, at := Accepted(rs, window, max), When(rs, window, max);
    forall i, j | 0 <= i < j < |acc| && acc[i].key == acc[j].key ::
      j - i > max || Outrun(rs, at[i], at[j] + 1, window, acc[i].time)
  }

  lemma {:induction false} ReplaysAreRefused(rs: seq<Request>, window: real, max: nat)
    ensures ReplaysExcused(rs, window, max)
  {
    hide Outrun, Superseded, Accepted, When, Cache, Suffix, Expire, Has;
    if rs == [] {
      assert Accepted(rs, window, max) == [] by { NothingAccepted(window, max); }
    } else {
      var before, r := rs[..|rs| - 1], rs[|rs| - 1];
      assert rs == before + [r];
      ReplaysAreRefused(before, window, max);
      WhenGrows(before, r, window, max);
      var acc, at := Accepted(rs, window, max), When(rs, window, max);
      var n := |Accepted(before, window, max)|;
      forall i, j | 0 <= i < j < |acc| && acc[i].key == acc[j].key
        ensures j - i > max || Outrun(rs, at[i], at[j] + 1, window, acc[i].time)
      {
        if j < n {
          OutrunLonger(before, r, at[i], at[j] + 1, window, acc[i].time);
        } else {
          FreshExcused(before, r, i, window, max);
        }
      }
    }
  }

  lemma NothingAccepted(window: real, max: nat)
    ensures Accepted([], window, max) == []
  {}

  lemma OutrunLonger(before: seq<Request>, r: Request, at: nat, upto: nat, window: real, time: real)
    ensures Outrun(before, at, upto, window, time) ==> Outrun(before + [r], at, upto, window, time)
  {
    if m :| at < m < upto && m < |before| && time < before[m].now - window { assert (before + [r])[m] == before[m]; }
  }

  /** A fresh key's earlier acceptance is not in what the check sees, so it is beyond `max` or outrun. */
  lemma FreshExcused(before: seq<Request>, r: Request, i: nat, window: real, max: nat)
    requires Fresh(Cache(before, window, max), r, window)
    requires i < |Accepted(before, window, max)| && Accepted(before, window, max)[i].key == r.key
    ensures |Accepted(before, window, max)| - i > max ||
            Outrun(before + [r], When(before, window, max)[i], |before| + 1, window, Accepted(before, window, max)[i].time)
  {
    hide Outrun, Accepted, When, Cache, Expire;
    KeptIsSuffix(before, r, window, max);
    WhenGrows(before, r, window, max);
    var acc, kept := Accepted(before, window, max), Expire(Cache(before, window, max), r.now - window);
    var k := |acc| - |kept|;
    forall j | k <= j < |acc| ensures acc[j].key != r.key { assert kept[j - k] == acc[j]; }
    assert i < k;
    assert i < |acc| - max || i in Superseded(before + [r], window, max);
    assert When(before + [r], window, max)[i] == When(before, window, max)[i];
    assert Accepted(before + [r], window, max)[i] == acc[i] && |before + [r]| == |before| + 1;
  }

  // ---------- When the cache is exact ----------

  /** `now` is not below any earlier `now`. */
  ghost predicate NotBelow(rs: seq<Request>, now: real) { forall i | 0 <= i < |rs| :: rs[i].now <= now }

  /** No replay inside the window is accepted. */
  ghost predicate Safe(rs: seq<Request>, r: Request, window: real, max: nat) {
    Remembered(Accepted(rs, window, max), r.key, r.now - window, max) ==> !Fresh(Cache(rs, window, max), r, window)
  }

  /** No key outside the window is refused. */
  ghost predicate Fair(rs: seq<Request>, r: Request, window: real, max: nat) {
    !Fresh(Cache(rs, window, max), r, window) ==> Remembered(Accepted(rs, window, max), r.key, r.now - window, max)
  }

  lemma NotBelowIsSafe(rs: seq<Request>, r: Request, window: real, max: nat)
    requires NotBelow(rs, r.now)
    ensures Safe(rs, r, window, max)
  {
    hide Accepted, When, Cache, Fresh;
    var acc, cutoff := Accepted(rs, window, max), r.now - window;
    if Fresh(Cache(rs, window, max), r, window) {
      forall i | 0 <= i < |acc| && i >= |acc| - max && acc[i].key == r.key ensures acc[i].time < cutoff {
        FreshExcused(rs, r, i, window, max);
        var m :| When(rs, window, max)[i] < m < |rs| + 1 && m < |rs + [r]| && acc[i].time < (rs + [r])[m].now - window;
        assert (rs + [r])[m].now <= r.now;
      }
    }
  }

  lemma AscendingIsFair(rs: seq<Request>, r: Request, window: real, max: nat)
    requires Ascending(Cache(rs, window, max))
    ensures Fair(rs, r, window, max)
  {
    hide Accepted, Cache, Superseded;
    var acc, cache, cutoff := Accepted(rs, window, max), Cache(rs, window, max), r.now - window;
    CacheIsSuffix(rs, window, max);
    var kept, n := Expire(cache, cutoff), Stale(cache, cutoff);
    if Has(kept, r.key) {
      var j :| 0 <= j < |kept| && kept[j].key == r.key;
      assert kept[j] == cache[n + j] == acc[|acc| - |cache| + n + j];
      assert cache[n].time <= cache[n + j].time;
    }
  }

  /**
    After any run: if `now` is not below any earlier one, a remembered key is
    refused; if the cache is in order of time, only a remembered key is. With times
    that never go back both hold, and the cache refines its reference exactly.
   */
  lemma RefusesExactlyRecentKeys(rs: seq<Request>, r: Request, window: real, max: nat)
    ensures NotBelow(rs, r.now) ==> Safe(rs, r, window, max)
    ensures Ascending(Cache(rs, window, max)) ==> Fair(rs, r, window, max)
    ensures TimesRise(rs + [r]) ==>
            (!Fresh(Cache(rs, window, max), r, window) <==>
             Remembered(Accepted(rs, window, max), r.key, r.now - window, max))
  {
    hide Fresh, Remembered, Cache, Accepted, NotBelow, Ascending, TimesRise;
    if NotBelow(rs, r.now) { NotBelowIsSafe(rs, r, window, max); }
    if Ascending(Cache(rs, window, max)) { AscendingIsFair(rs, r, window, max); }
    if TimesRise(rs + [r]) {
      RisingTimes(rs, r, window, max);
      NotBelowIsSafe(rs, r, window, max);
      AscendingIsFair(rs, r, window, max);
    }
  }

  lemma RisingTimes(rs: seq<Request>, r: Request, window: real, max: nat)
    requires TimesRise(rs + [r])
    ensures NotBelow(rs, r.now) && Ascending(Cache(rs, window, max))
  {
    hide Accepted, Cache, Superseded;
    var all := rs + [r];
    forall i | 0 <= i < |rs| ensures rs[i].now <= r.now { assert all[i] == rs[i] && all[|rs|] == r; }
    var acc, at, cache := Accepted(rs, window, max), When(rs, window, max), Cache(rs, window, max);
    CacheIsSuffix(rs, window, max);
    var k := |acc| - |cache|;
    forall i, j | 0 <= i < j < |cache| ensures cache[i].time <= cache[j].time {
      assert cache[i] == acc[k + i] && cache[j] == acc[k + j];
      WhenRises(rs, window, max, k + i, k + j);
      assert all[at[k + i]] == rs[at[k + i]] && all[at[k + j]] == rs[at[k + j]];
    }
  }

  lemma {:induction false} WhenRises(rs: seq<Request>, window: real, max: nat, i: nat, j: nat)
    requires i < j < |When(rs, window, max)|
    ensures When(rs, window, max)[i] < When(rs, window, max)[j]
  {
    hide Accepted, Cache, Fresh;
    var before, r := rs[..|rs| - 1], rs[|rs| - 1];
    assert rs == before + [r];
    WhenGrows(before, r, window, max);
    if j < |When(before, window, max)| { WhenRises(before, window, max, i, j); }
  }

  /** With times that never go back, a key is accepted again only out of the window, or `max` acceptances later. */
  lemma RisingTimesNoReplay(rs: seq<Request>, window: real, max: nat)
    requires TimesRise(rs)
    ensures NoReplay(Accepted(rs, window, max), window, max)
  {
    hide Accepted, Cache;
    ReplaysAreRefused(rs, window, max);
    var acc, at := Accepted(rs, window, max), When(rs, window, max);
    forall i, j | 0 <= i < j < |acc| && acc[i].key == acc[j].key
      ensures acc[i].time < acc[j].time - window || j - i > max
    {
      if j - i <= max {
        var m :| at[i] < m < at[j] + 1 && m < |rs| && acc[i].time < rs[m].now - window;
        assert rs[m].now <= rs[at[j]].now;
      }
    }
  }

  ghost predicate NoReplay(accepted: seq<Entry>, window: real, max: nat) {
    forall i, j | 0 <= i < j < |accepted| && accepted[i].key == accepted[j].key ::
      accepted[i].time < accepted[j].time - window || j - i > max
  }

  // ---------- The conditions are exact ----------

  lemma FirstCheck(r: Request, window: real, max: nat)
    requires max >= 1
    ensures Cache([r], window, max) == Accepted([r], window, max) == [Entry(r.key, r.now)]
  {
    assert [r][..0] == [];
    assert Expire([], r.now - window) == [];
  }

  /** A second check of another key, which keeps or drops the first. */
  lemma SecondCheck(a: Request, b: Request, window: real, max: nat)
    requires max >= 2 && a.key != b.key
    ensures Accepted([a, b], window, max) == [Entry(a.key, a.now), Entry(b.key, b.now)]
    ensures Cache([a, b], window, max) ==
            (if a.now < b.now - window then [] else [Entry(a.key, a.now)]) + [Entry(b.key, b.now)]
  {
    hide Cache, Accepted;
    var e, f := Entry(a.key, a.now), Entry(b.key, b.now);
    FirstCheck(a, window, max);
    WhenGrows([a], b, window, max);
    assert [a] + [b] == [a, b];
    assert Stale([e], b.now - window) == if a.now < b.now - window then 1 else 0;
  }

  lemma OtherKeyFresh(e: Entry, r: Request, window: real)
    requires e.key != r.key
    ensures Fresh([e], r, window)
  {
    var kept := Expire([e], r.now - window);
    assert kept == [] || kept == [e];
  }

  /**
    The clock steps back: checked at t0, another key at t1, and the first again at
    t2, a key is accepted twice inside the window if t1's cutoff was past t0 and
    t2's is not.
   */
  lemma ClockStepBackAcceptsReplay(a: Key, b: Key, t0: real, t1: real, t2: real, window: real, max: nat)
    requires a != b && max >= 2 && t2 - window <= t0 < t1 - window
    ensures var rs, r := [Request(a, t0), Request(b, t1)], Request(a, t2);
            && !Safe(rs, r, window, max)
            && Accepted(rs + [r], window, max) == [Entry(a, t0), Entry(b, t1), Entry(a, t2)]
            && !NoReplay(Accepted(rs + [r], window, max), window, max)
  {
    hide Cache, Accepted, Expire, Checked;
    var first, second, r := Request(a, t0), Request(b, t1), Request(a, t2);
    var rs, ea, eb := [first, second], Entry(a, t0), Entry(b, t1);
    SecondCheck(first, second, window, max);
    assert Cache(rs, window, max) == [eb];
    OtherKeyFresh(eb, r, window);
    assert Accepted(rs, window, max)[0] == ea;
    WhenGrows(rs, r, window, max);
    var all := Accepted(rs + [r], window, max);
    assert all == [ea, eb, Entry(a, t2)];
    assert all[0] == ea && all[2] == Entry(a, t2);
  }

  /** The highest `now` of a run. */
  ghost predicate HighWater(rs: seq<Request>, now: real) {
    NotBelow(rs, now) && exists i :: 0 <= i < |rs| && rs[i].now == now
  }

  /** A cache of one holds the last accepted event: whatever drops it is accepted itself. */
  lemma {:induction false} CacheOfOne(rs: seq<Request>, window: real)
    ensures var acc := Accepted(rs, window, 1); Cache(rs, window, 1) == if acc == [] then [] else [acc[|acc| - 1]]
  {
    hide Accepted, Cache, Fresh, Checked;
    if rs == [] {
      NothingAccepted(window, 1);
      NothingHeld(window, 1);
    } else {
      var before, r := rs[..|rs| - 1], rs[|rs| - 1];
      assert rs == before + [r];
      CacheOfOne(before, window);
      WhenGrows(before, r, window, 1);
      CheckOfOne(Cache(before, window, 1), r, window);
    }
  }

  lemma CheckOfOne(cache: seq<Entry>, r: Request, window: real)
    requires |cache| <= 1
    ensures Checked(cache, r, window, 1) == if Fresh(cache, r, window) then [Entry(r.key, r.now)] else cache
  {
    hide Stale;
    var kept, e := Expire(cache, r.now - window), Entry(r.key, r.now);
    assert kept == [] || kept == cache;
    if Has(kept, r.key) {
      assert kept == cache;
    } else if kept == [] {
      assert [] + [e] == [e];
    } else {
      assert (kept + [e])[1..] == [e];
    }
  }

  lemma NothingHeld(window: real, max: nat)
    ensures Cache([], window, max) == []
  {}

  /** With a bound of one, no replay is accepted at any time. */
  lemma SafeForOne(rs: seq<Request>, r: Request, window: real)
    ensures Safe(rs, r, window, 1)
  {
    hide Accepted, Cache;
    CacheOfOne(rs, window);
    var acc := Accepted(rs, window, 1);
    if Remembered(acc, r.key, r.now - window, 1) {
      var last := acc[|acc| - 1];
      assert Cache(rs, window, 1) == [last] && last.key == r.key && last.time >= r.now - window;
      assert Expire([last], r.now - window) == [last];
      assert [last][0].key == r.key;
    }
  }

  /**
    After all runs up to a highest time, a check is safe for every key exactly when
    it is not before that time; or always, for a cache of one entry.
   */
  lemma SafeExactlyFromHighWater(highest: real, now: real, window: real, max: nat)
    requires max >= 1 && window >= 0.0
    ensures (forall rs, key | HighWater(rs, highest) :: Safe(rs, Request(key, now), window, max)) <==>
            now >= highest || max == 1
  {
    hide Safe, HighWater;
    if now >= highest || max == 1 {
      forall rs, key | HighWater(rs, highest) ensures Safe(rs, Request(key, now), window, max) {
        if max == 1 {
          SafeForOne(rs, Request(key, now), window);
        } else {
          HighWaterBounds(rs, highest, now);
          NotBelowIsSafe(rs, Request(key, now), window, max);
        }
      }
    } else {
      var a, b := Key("a", ""), Key("b", "");
      var rs := [Request(a, now - window), Request(b, highest)];
      PairHighWater(rs[0], rs[1]);
      ClockStepBackAcceptsReplay(a, b, now - window, highest, now, window, max);
    }
  }

  lemma HighWaterBounds(rs: seq<Request>, highest: real, now: real)
    requires HighWater(rs, highest) && highest <= now
    ensures NotBelow(rs, now)
  {}

  lemma PairHighWater(a: Request, b: Request)
    requires a.now <= b.now
    ensures HighWater([a, b], b.now)
  {
    assert [a, b][1] == b;
  }

  ghost predicate DistinctKeys(es: seq<Entry>) { forall i, j | 0 <= i < j < |es| :: es[i].key != es[j].key }

  lemma {:induction false} CacheKeysDistinct(rs: seq<Request>, window: real, max: nat)
    ensures DistinctKeys(Cache(rs, window, max))
  {
    hide Stale;
    if rs != [] { CacheKeysDistinct(rs[..|rs| - 1], window, max); }
  }

  ghost predicate Current(es: seq<Entry>, r: Request, window: real) {
    exists i :: 0 <= i < |es| && es[i].key == r.key && es[i].time >= r.now - window
  }

  /** A cache refuses only keys still in the window, at every time, exactly when it is in order of time. */
  lemma FairExactlyWhenAscending(es: seq<Entry>, window: real)
    requires DistinctKeys(es)
    ensures (forall r :: !Fresh(es, r, window) ==> Current(es, r, window)) <==> Ascending(es)
  {
    if Ascending(es) {
      forall r | !Fresh(es, r, window) ensures Current(es, r, window) { HeldIsCurrent(es, r, window); }
    } else {
      var i, j :| 0 <= i < j < |es| && es[i].time > es[j].time;
      DisorderRefuses(es, i, j, window);
    }
  }

  lemma HeldIsCurrent(es: seq<Entry>, r: Request, window: real)
    requires Ascending(es) && !Fresh(es, r, window)
    ensures Current(es, r, window)
  {
    var n := Stale(es, r.now - window);
    var j :| 0 <= j < |es[n..]| && es[n..][j].key == r.key;
    assert es[n + j].key == r.key && es[n].time <= es[n + j].time;
  }

  /** An entry behind a newer one is refused although it has expired. */
  lemma DisorderRefuses(es: seq<Entry>, i: nat, j: nat, window: real)
    requires DistinctKeys(es) && i < j < |es| && es[i].time > es[j].time
    ensures var r := Request(es[j].key, es[i].time + window); !Fresh(es, r, window) && !Current(es, r, window)
  {
    var r := Request(es[j].key, es[i].time + window);
    var n := Stale(es, r.now - window);
    assert n <= i;
    assert es[n..][j - n] == es[j];
  }

  // ---------- The cache object ----------

  class ReplayCache {
    const maxEntries: nat
    var entries: seq<Entry>

    constructor (max: nat)
      requires max > 0
      ensures maxEntries == max && entries == []
    {
      maxEntries, entries := max, [];
    }

    /** `check_and_remember`. */
    method CheckAndRemember(sender: string, nonce: string, now: real, window: real) returns (ok: bool)
      modifies this`entries
      ensures ok == Fresh(old(entries), Request(Key(sender, nonce), now), window)
      ensures entries == Checked(old(entries), Request(Key(sender, nonce), now), window, maxEntries)
    {
      hide Stale, Newest, Has;
      EvictExpired(now - window);
      var key := Key(sender, nonce);
      if Has(entries, key) { return false; }
      entries := entries + [Entry(key, now)];
      EvictOverflow();
      return true;
    }

    method EvictExpired(cutoff: real)
      modifies this`entries
      ensures entries == Expire(old(entries), cutoff)
    {
      while entries != [] && entries[0].time < cutoff
        invariant |entries| <= |old(entries)| && entries == old(entries)[|old(entries)| - |entries|..]
        invariant Stale(old(entries), cutoff) == |old(entries)| - |entries| + Stale(entries, cutoff)
        decreases |entries|
      {
        entries := entries[1..];
      }
    }

    method EvictOverflow()
      modifies this`entries
      ensures entries == Newest(old(entries), maxEntries)
    {
      while |entries| > maxEntries
        invariant |entries| <= |old(entries)| && entries == old(entries)[|old(entries)| - |entries|..]
        invariant |entries| >= maxEntries || entries == old(entries)
        decreases |entries|
      {
        entries := entries[1..];
      }
    }
  }

  /** The constructor refuses a bound that is not positive; `null` stands for its error. */
  method NewReplayCache(max: int) returns (cache: ReplayCache?)
    ensures cache == null <==> max <= 0
    ensures cache != null ==> fresh(cache) && cache.maxEntries == max && cache.entries == []
  {
    if max <= 0 { return null; }
    cache := new ReplayCache(max);
  }
}
