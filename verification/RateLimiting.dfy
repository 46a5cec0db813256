/** The fixed-window rate limiter. Old windows are thrown away once there are many; nobody can
    tell, unless the clock jumps back by more than a minute between two requests. */
module RateLimiting {
  import opened Wrappers
  import opened Records

  datatype Window = Window(start: Time, count: nat)

  type Windows = map<string, Window>

  const PRUNE_ABOVE := 10000

  // The window that serves a request, with the request counted.
  function Serving(w: Windows, key: string, now: Time): Window {
    var found := if key in w then w[key] else Window(ZERO_TIME, 0);
    if found.start == ZERO_TIME || now - found.start >= MINUTE then Window(now, 1)
    else found.(count := found.count + 1)
  }

  // Whole seconds, rounded down, until the serving window ends.
  function RetryAfter(window: Window, now: Time): int { (window.start + MINUTE - now) / SECOND }

  // A signed-in user is counted by name, anyone else by address.
  function KeyFor(scope: string, clientIP: string, username: Option<string>): string {
    scope + ":" + if username.Some? then username.value else clientIP
  }

  predicate Stale(window: Window, now: Time) { now - window.start > 2 * MINUTE }

  function Pruned(w: Windows, now: Time): Windows { map k | k in w && !Stale(w[k], now) :: w[k] }

  // A limiter that never forgets, and the limiter as it is.
  function Counted(w: Windows, key: string, now: Time): Windows { w[key := Serving(w, key, now)] }

  function Served(w: Windows, key: string, now: Time): Windows {
    var counted := Counted(w, key, now);
    if |counted| > PRUNE_ABOVE then Pruned(counted, now) else counted
  }

  class RateLimiter {
    const limit: int
    var windows: Windows
    ghost var calls: seq<Call>

    ghost predicate Valid() reads this { windows == Kept(calls) }

    constructor (limit: int)
      ensures Valid() && this.limit == limit && calls == []
    {
      this.limit, windows, calls := limit, map[], [];
    }

    /** A request is served under the key of its user or address, and a refused one is told
        in how many whole seconds its window ends. */
    method Middleware(scope: string, clientIP: string, username: Option<string>, now: Time) returns (retryAfter: Option<int>)
      requires Valid()
      modifies this
      ensures Valid() && calls == old(calls) + [Call(KeyFor(scope, clientIP, username), now)]
      ensures calls[|old(calls)|].key == scope + ":" + (if username.Some? then username.value else clientIP)
      ensures retryAfter.None? <==> Allowed(calls, |old(calls)|, limit)
      ensures retryAfter.Some? ==>
        && retryAfter.value >= 0
        && var window := Serving(old(windows), KeyFor(scope, clientIP, username), now);
           now + retryAfter.value * SECOND <= window.start + MINUTE < now + (retryAfter.value + 1) * SECOND
    {
      var key := scope + ":" + clientIP;
      if username.Some? { key := scope + ":" + username.value; }
      var allowed, seconds := Admit(key, now);
      retryAfter := if allowed then None else Some(seconds);
    }

    /** The decision on one request, under the lock. The order in which the stale windows are
        visited does not matter. */
    method Admit(key: string, now: Time) returns (allowed: bool, retryAfter: int)
      requires Valid()
      modifies this
      ensures Valid() && calls == old(calls) + [Call(key, now)]
      ensures windows == Served(old(windows), key, now)
      ensures allowed <==> Allowed(calls, |old(calls)|, limit)
      ensures retryAfter == RetryAfter(Serving(old(windows), key, now), now)
      ensures Orderly(calls) ==> (allowed <==> AllowedForever(calls, |old(calls)|, limit))
    {
      var window := if key in windows then windows[key] else Window(ZERO_TIME, 0);
      if window.start == ZERO_TIME || now - window.start >= MINUTE { window := Window(now, 0); }
      window := window.(count := window.count + 1);
      windows := windows[key := window];
      if |windows| > PRUNE_ABOVE { Prune(now); }
      allowed := window.count <= limit;
      retryAfter := (MINUTE - (now - window.start)) / SECOND;
      assert windows == Served(old(windows), key, now) && window == Serving(old(windows), key, now);
      hide Served, Serving, Orderly;
      calls := calls + [Call(key, now)];
      assert calls[..|old(calls)|] == old(calls);
      if Orderly(calls) { EvictionIsInvisible(calls, |old(calls)|, limit); }
    }

    method Prune(now: Time)
      modifies this`windows
      ensures windows == Pruned(old(windows), now)
    {
      var todo := windows.Keys;
      while todo != {}
        invariant todo <= windows.Keys
        invariant forall k | k in windows :: k in old(windows) && windows[k] == old(windows)[k]
        invariant forall k | k in old(windows) :: k in windows <==> k in todo || !Stale(old(windows)[k], now)
        decreases |todo|
      {
        var candidate :| candidate in todo;
        todo := todo - {candidate};
        if Stale(windows[candidate], now) { windows := windows - {candidate}; }
      }
    }
  }

  // ----- whole runs

  datatype Call = Call(key: string, now: Time)

  // The windows of the limiter after some calls, and of one that never forgets.
  function Kept(calls: seq<Call>): Windows {
    if calls == [] then map[]
    else var n := |calls| - 1; Served(Kept(calls[..n]), calls[n].key, calls[n].now)
  }

  function Ledger(calls: seq<Call>): Windows {
    if calls == [] then map[]
    else var n := |calls| - 1; Counted(Ledger(calls[..n]), calls[n].key, calls[n].now)
  }

  predicate Allowed(calls: seq<Call>, i: nat, limit: int)
    requires i < |calls|
  {
    Serving(Kept(calls[..i]), calls[i].key, calls[i].now).count <= limit
  }

  predicate AllowedForever(calls: seq<Call>, i: nat, limit: int)
    requires i < |calls|
  {
    Serving(Ledger(calls[..i]), calls[i].key, calls[i].now).count <= limit
  }

  // The later of two calls has not read a clock more than a minute behind the earlier one's
  // (to be exact, more than a minute and one nanosecond).
  predicate InOrder(earlier: Time, later: Time) { later >= earlier - MINUTE - 1 }

  ghost predicate Orderly(calls: seq<Call>) {
    forall i, j | 0 <= i < j < |calls| :: InOrder(calls[i].now, calls[j].now)
  }

  // Every window that was thrown away could not have served any later call.
  ghost predicate Agree(kept: Windows, ledger: Windows, calls: seq<Call>) {
    && (forall k | k in kept :: k in ledger && ledger[k] == kept[k])
    && (forall k | k in ledger && k !in kept :: exists i | 0 <= i < |calls| :: Stale(ledger[k], calls[i].now))
  }

  lemma SameServing(kept: Windows, ledger: Windows, calls: seq<Call>, c: Call)
    requires Agree(kept, ledger, calls) && Orderly(calls + [c])
    ensures Serving(kept, c.key, c.now) == Serving(ledger, c.key, c.now)
  {
    if c.key in ledger && c.key !in kept {
      var i :| 0 <= i < |calls| && Stale(ledger[c.key], calls[i].now);
      var all := calls + [c];
      assert InOrder(all[i].now, all[|calls|].now);
    }
  }

  lemma AgreementKept(kept: Windows, ledger: Windows, calls: seq<Call>, c: Call)
    requires Agree(kept, ledger, calls) && Orderly(calls + [c])
    ensures Agree(Served(kept, c.key, c.now), Counted(ledger, c.key, c.now), calls + [c])
  {
    SameServing(kept, ledger, calls, c);
    var all := calls + [c];
    var kept', ledger' := Served(kept, c.key, c.now), Counted(ledger, c.key, c.now);
    forall k | k in ledger' && k !in kept' ensures exists i | 0 <= i < |all| :: Stale(ledger'[k], all[i].now) {
      if k in kept || k == c.key {
        assert Stale(ledger'[k], all[|calls|].now);
      } else {
        var i :| 0 <= i < |calls| && Stale(ledger[k], calls[i].now);
        assert Stale(ledger'[k], all[i].now);
      }
    }
  }

  lemma {:induction false} RunsAgree(calls: seq<Call>)
    requires Orderly(calls)
    ensures Agree(Kept(calls), Ledger(calls), calls)
  {
    if calls != [] {
      hide Served, Counted, Agree;
      var n := |calls| - 1;
      assert calls[..n] + [calls[n]] == calls;
      RunsAgree(calls[..n]);
      AgreementKept(Kept(calls[..n]), Ledger(calls[..n]), calls[..n], calls[n]);
    } else {
      assert Kept(calls) == map[] == Ledger(calls);
    }
  }

  /** Every decision is the one a limiter without eviction would have made. */
  lemma EvictionIsInvisible(calls: seq<Call>, i: nat, limit: int)
    requires Orderly(calls) && i < |calls|
    ensures Allowed(calls, i, limit) <==> AllowedForever(calls, i, limit)
  {
    var before := calls[..i];
    assert before + [calls[i]] == calls[..i + 1];
    RunsAgree(before);
    SameServing(Kept(before), Ledger(before), before, calls[i]);
  }

  // ----- the bound on the clocks is exact

  // A full window is thrown away by a crowded limiter although it would still have refused
  // the later call.
  lemma FullWindowForgotten(w: Windows, other: string, key: string, earlier: Time, later: Time, limit: nat)
    requires !InOrder(earlier, later) && limit >= 1
    requires key in w && other !in w && |w| >= 10_000
    requires w[key] == Window(earlier - 2 * MINUTE - 1, limit) && w[key].start > ZERO_TIME
    ensures Serving(Served(w, other, earlier), key, later).count <= limit
    ensures Serving(Counted(w, other, earlier), key, later).count > limit
  {
    var counted := Counted(w, other, earlier);
    assert counted.Keys == w.Keys + {other};
    assert |w.Keys + {other}| == |w.Keys| + 1;
    assert key !in Pruned(counted, earlier);
  }

  // n calls for one key, and one call for each of n other, longer keys, all at one instant.
  function Burst(key: string, at: Time, n: nat): seq<Call> {
    if n == 0 then [] else Burst(key, at, n - 1) + [Call(key, at)]
  }

  function Other(key: string, i: nat): string { key + seq(i + 1, _ => '+') }

  lemma OthersDiffer(key: string, i: nat, j: nat)
    requires i != j
    ensures Other(key, i) != Other(key, j) && Other(key, i) != key
  {
    assert |Other(key, i)| == |key| + i + 1 && |Other(key, j)| == |key| + j + 1;
  }

  function Crowd(key: string, at: Time, limit: nat, n: nat): seq<Call> {
    if n == 0 then Burst(key, at, limit) else Crowd(key, at, limit, n - 1) + [Call(Other(key, n - 1), at)]
  }

  // At one instant nothing is stale, so the limiter still knows everything.
  lemma NothingStale(w: Windows, key: string, at: Time)
    requires at > ZERO_TIME && forall k | k in w :: w[k].start == at
    ensures Served(w, key, at) == Counted(w, key, at)
    ensures Counted(w, key, at) == w[key := Window(at, if key in w then w[key].count + 1 else 1)]
  {
    var counted := Counted(w, key, at);
    assert Pruned(counted, at) == counted;
  }

  lemma KeptThen(before: seq<Call>, c: Call)
    ensures Kept(before + [c]) == Served(Kept(before), c.key, c.now)
  {
    hide Served;
    assert (before + [c])[..|before|] == before;
  }

  lemma {:induction false} AfterBurst(key: string, at: Time, n: nat)
    requires at > ZERO_TIME
    ensures Kept(Burst(key, at, n)) == if n == 0 then map[] else map[key := Window(at, n)]
  {
    hide Served, Counted;
    if n > 0 {
      hide Kept;
      AfterBurst(key, at, n - 1);
      KeptThen(Burst(key, at, n - 1), Call(key, at));
      NothingStale(Kept(Burst(key, at, n - 1)), key, at);
    }
  }

  lemma {:induction false} CrowdAt(key: string, at: Time, limit: nat, n: nat)
    ensures forall c | c in Crowd(key, at, limit, n) :: c.now == at
  {
    if n == 0 { BurstAt(key, at, limit); } else { CrowdAt(key, at, limit, n - 1); }
  }

  lemma {:induction false} BurstAt(key: string, at: Time, n: nat)
    ensures forall c | c in Burst(key, at, n) :: c.now == at
  {
    if n > 0 { BurstAt(key, at, n - 1); }
  }

  // The windows of a crowd: the key's is full, and there is one for each other key.
  ghost predicate Crowded(w: Windows, key: string, at: Time, limit: nat, n: nat) {
    && key in w && w[key].count == limit && |w| == n + 1
    && (forall k | k in w :: w[k].start == at)
    && (forall i | i >= n :: Other(key, i) !in w)
  }

  lemma CrowdGrows(w: Windows, key: string, at: Time, limit: nat, n: nat)
    requires at > ZERO_TIME && Crowded(w, key, at, limit, n)
    ensures Crowded(w[Other(key, n) := Window(at, 1)], key, at, limit, n + 1)
  {
    var other := Other(key, n);
    var v := w[other := Window(at, 1)];
    OthersDiffer(key, n, n + 1);
    assert v.Keys == w.Keys + {other};
    assert |v.Keys| == |w.Keys| + 1;
    forall i | i >= n + 1 ensures Other(key, i) !in v { OthersDiffer(key, i, n); }
  }

  lemma {:induction false} AfterCrowd(key: string, at: Time, limit: nat, n: nat)
    requires at > ZERO_TIME && limit >= 1
    ensures Crowded(Kept(Crowd(key, at, limit, n)), key, at, limit, n)
  {
    hide Served, Counted, Kept, Other, Burst;
    if n == 0 {
      AfterBurst(key, at, limit);
      forall i | i >= 0 ensures Other(key, i) != key { OthersDiffer(key, i, i + 1); }
    } else {
      hide Crowded;
      AfterCrowd(key, at, limit, n - 1);
      KeptThen(Crowd(key, at, limit, n - 1), Call(Other(key, n - 1), at));
      CrowdStep(Kept(Crowd(key, at, limit, n - 1)), key, at, limit, n - 1);
    }
  }

  lemma CrowdStep(w: Windows, key: string, at: Time, limit: nat, n: nat)
    requires at > ZERO_TIME && Crowded(w, key, at, limit, n)
    ensures Crowded(Served(w, Other(key, n), at), key, at, limit, n + 1)
  {
    hide Other, Served, Counted;
    NothingStale(w, Other(key, n), at);
    CrowdGrows(w, key, at, limit, n);
  }

  lemma OneInstantIsOrderly(calls: seq<Call>, at: Time)
    requires forall c | c in calls :: c.now == at
    ensures Orderly(calls)
  {
  }

  /** For every two clock readings that jump back further, and every limit and key, there is a
      run of calls, orderly up to its last one, whose last decision eviction changes: the key
      uses up its limit, a crowd arrives at the same instant, one more call at the earlier
      reading clears them all, and the key calls again at the later one. */
  lemma LargerJumpsAreVisible(key: string, earlier: Time, later: Time, limit: nat, crowd: nat) returns (calls: seq<Call>)
    requires !InOrder(earlier, later) && earlier - 2 * MINUTE - 1 > ZERO_TIME && limit >= 1 && crowd >= 10_000
    ensures |calls| >= 2 && calls[|calls| - 2].now == earlier && calls[|calls| - 1] == Call(key, later)
    ensures Orderly(calls[..|calls| - 1])
    ensures Allowed(calls, |calls| - 1, limit) && !AllowedForever(calls, |calls| - 1, limit)
  {
    var at := earlier - 2 * MINUTE - 1;
    var before := Crowd(key, at, limit, crowd);
    AfterCrowd(key, at, limit, crowd);
    CrowdAt(key, at, limit, crowd);
    OneInstantIsOrderly(before, at);
    RunsAgree(before);
    var w, other := Kept(before), Other(key, crowd);
    assert other !in w;
    AllKept(before, at, w);
    FullWindowForgotten(w, other, key, earlier, later, limit);
    calls := before + [Call(other, earlier), Call(key, later)];
    LastTwo(before, Call(other, earlier), Call(key, later));
    OrderlyThen(before, at, Call(other, earlier));
    assert calls[..|calls| - 1] == before + [Call(other, earlier)];
  }

  // Nothing was evicted, so both limiters know the same.
  lemma AllKept(calls: seq<Call>, at: Time, w: Windows)
    requires w == Kept(calls) && Agree(w, Ledger(calls), calls)
    requires forall c | c in calls :: c.now == at
    ensures Ledger(calls) == w
  {
    LedgerStarts(calls, at);
    forall k | k in Ledger(calls) ensures k in w {
      assert forall i | 0 <= i < |calls| :: calls[i] in calls && !Stale(Ledger(calls)[k], calls[i].now);
    }
  }

  lemma {:induction false} LedgerStarts(calls: seq<Call>, at: Time)
    requires forall c | c in calls :: c.now == at
    ensures forall k | k in Ledger(calls) :: Ledger(calls)[k].start == at
  {
    if calls != [] {
      var n := |calls| - 1;
      assert calls[n] in calls;
      LedgerStarts(calls[..n], at);
    }
  }

  lemma LastTwo(before: seq<Call>, c: Call, d: Call)
    ensures var calls := before + [c, d];
      && calls[..|calls| - 1] == before + [c]
      && Kept(before + [c]) == Served(Kept(before), c.key, c.now)
      && Ledger(before + [c]) == Counted(Ledger(before), c.key, c.now)
  {
    hide Served, Counted;
    KeptThen(before, c);
    assert (before + [c, d])[..|before| + 1] == before + [c];
    assert (before + [c])[..|before|] == before;
  }

  lemma OrderlyThen(before: seq<Call>, at: Time, c: Call)
    requires (forall b | b in before :: b.now == at) && at <= c.now
    ensures Orderly(before + [c])
  {
    var calls := before + [c];
    forall i, j | 0 <= i < j < |calls| ensures InOrder(calls[i].now, calls[j].now) {
      assert calls[i] == before[i] && before[i] in before;
      assert j < |before| ==> calls[j] == before[j] && before[j] in before;
    }
  }

  /** As long as there are at most 10000 keys, nothing is thrown away. */
  lemma NothingLostBelowTenThousand(w: Windows, key: string, now: Time)
    requires |w.Keys + {key}| <= 10_000
    ensures Served(w, key, now) == w[key := Serving(w, key, now)]
  {
    assert w[key := Serving(w, key, now)].Keys == w.Keys + {key};
    hide Serving;
  }

  /** With more keys, exactly the windows of the last two minutes are kept. */
  lemma OldWindowsGoAboveTenThousand(w: Windows, key: string, now: Time)
    requires |w.Keys + {key}| > 10_000
    ensures var counted := w[key := Serving(w, key, now)];
      && (forall k :: k in Served(w, key, now) <==> k in counted && now - counted[k].start <= 120_000_000_000)
      && (forall k | k in Served(w, key, now) :: Served(w, key, now)[k] == counted[k])
  {
    assert w[key := Serving(w, key, now)].Keys == w.Keys + {key};
    hide Serving;
  }

  // A minute has sixty seconds of 10^9 ticks.
  lemma MinuteInTicks()
    ensures MINUTE == 60_000_000_000 && InOrder(60_000_000_001, 0) && !InOrder(60_000_000_002, 0)
  {
  }

  // ----- the rate

  ghost predicate ClocksNeverGoBack(calls: seq<Call>) {
    && (forall i | 0 <= i < |calls| :: calls[i].now > ZERO_TIME)
    && (forall i, j | 0 <= i < j < |calls| :: calls[i].now <= calls[j].now)
  }

  // How many calls for the key were admitted in the minute from `from` on.
  function Admitted(calls: seq<Call>, key: string, from: Time, limit: int): nat {
    if calls == [] then 0
    else
      var n := |calls| - 1;
      Admitted(calls[..n], key, from, limit)
      + if calls[n].key == key && from <= calls[n].now < from + MINUTE && Allowed(calls, n, limit) then 1 else 0
  }

  function Min(a: int, b: int): int { if a < b then a else b }

  // What is known of the minute from `from` on, given the key's current window.
  ghost predicate Bounded(ledger: Windows, calls: seq<Call>, key: string, from: Time, limit: nat, admitted: nat) {
    && (calls == [] || calls[|calls| - 1].now < from ==> admitted == 0)
    && (key !in ledger ==> admitted == 0)
    && (key in ledger ==>
          var w := ledger[key];
          && ZERO_TIME < w.start && calls != [] && w.start <= calls[|calls| - 1].now
          && (w.start < from ==> admitted <= Min(w.count, limit))
          && (from <= w.start < from + MINUTE ==> admitted <= limit + Min(w.count, limit))
          && (from + MINUTE <= w.start ==> admitted <= 2 * limit))
  }

  lemma BoundKept(ledger: Windows, calls: seq<Call>, c: Call, key: string, from: Time, limit: nat, admitted: nat, more: nat)
    requires Bounded(ledger, calls, key, from, limit, admitted)
    requires c.now > ZERO_TIME && (calls != [] ==> calls[|calls| - 1].now <= c.now)
    requires more == if c.key == key && from <= c.now < from + MINUTE && Serving(ledger, key, c.now).count <= limit then 1 else 0
    ensures Bounded(Counted(ledger, c.key, c.now), calls + [c], key, from, limit, admitted + more)
  {
  }

  // What the last call adds, by the books of a limiter that never forgets.
  lemma OneMoreCall(calls: seq<Call>, key: string, from: Time, limit: int)
    requires calls != [] && ClocksNeverGoBack(calls)
    ensures var n := |calls| - 1;
      var before, c := calls[..n], calls[n];
      && Ledger(calls) == Counted(Ledger(before), c.key, c.now)
      && Admitted(calls, key, from, limit) == Admitted(before, key, from, limit)
           + if c.key == key && from <= c.now < from + MINUTE && Serving(Ledger(before), key, c.now).count <= limit then 1 else 0
  {
    hide Counted, Serving, Kept, Allowed;
    EvictionIsInvisible(calls, |calls| - 1, limit);
  }

  lemma {:induction false} RunBounded(calls: seq<Call>, key: string, from: Time, limit: nat)
    requires ClocksNeverGoBack(calls)
    ensures Bounded(Ledger(calls), calls, key, from, limit, Admitted(calls, key, from, limit))
  {
    if calls != [] {
      hide Bounded, Serving, Counted, Ledger, Admitted;
      var n := |calls| - 1;
      var before := calls[..n];
      assert before + [calls[n]] == calls;
      RunBounded(before, key, from, limit);
      OneMoreCall(calls, key, from, limit);
      BoundKept(Ledger(before), before, calls[n], key, from, limit, Admitted(before, key, from, limit),
        Admitted(calls, key, from, limit) - Admitted(before, key, from, limit));
    }
  }

  /** With clocks that never go back, no half-open minute sees more than twice the limit of
      admitted requests for one key. */
  lemma TwiceTheLimit(calls: seq<Call>, key: string, from: Time, limit: nat)
    requires ClocksNeverGoBack(calls)
    ensures Admitted(calls, key, from, limit) <= 2 * limit
  {
    RunBounded(calls, key, from, limit);
  }

  // How many calls the key has made from `from` on.
  function Made(calls: seq<Call>, key: string, from: Time): nat {
    if calls == [] then 0
    else
      var n := |calls| - 1;
      Made(calls[..n], key, from) + if calls[n].key == key && from <= calls[n].now then 1 else 0
  }

  lemma {:induction false} MadeAntitone(calls: seq<Call>, key: string, from: Time, to: Time)
    requires from <= to
    ensures Made(calls, key, to) <= Made(calls, key, from)
  {
    if calls != [] { MadeAntitone(calls[..|calls| - 1], key, from, to); }
  }

  lemma {:induction false} CountsAreCalls(calls: seq<Call>, key: string)
    requires ClocksNeverGoBack(calls) && key in Ledger(calls)
    ensures Ledger(calls)[key].count <= Made(calls, key, Ledger(calls)[key].start)
    ensures calls != [] && Ledger(calls)[key].start <= calls[|calls| - 1].now
  {
    if calls != [] {
      var n := |calls| - 1;
      var before := calls[..n];
      if key in Ledger(before) { CountsAreCalls(before, key); }
    }
  }

  /** And no request is refused unless its key has made at least the limit of other requests
      within the minute before it. */
  lemma RefusalIsEarned(calls: seq<Call>, i: nat, limit: nat)
    requires ClocksNeverGoBack(calls) && i < |calls| && limit >= 1 && !Allowed(calls, i, limit)
    ensures Made(calls[..i], calls[i].key, calls[i].now - MINUTE + 1) >= limit
  {
    EvictionIsInvisible(calls, i, limit);
    var before, key := calls[..i], calls[i].key;
    CountsAreCalls(before, key);
    MadeAntitone(before, key, calls[i].now - MINUTE + 1, Ledger(before)[key].start);
  }

  // ----- the windows

  // How many of the calls are for the key.
  function CallsFor(calls: seq<Call>, key: string): nat {
    if calls == [] then 0
    else CallsFor(calls[..|calls| - 1], key) + if calls[|calls| - 1].key == key then 1 else 0
  }

  // Call i opened the key's current window: no earlier window was still open then, all calls
  // of the key since were less than a minute later, and the window counts exactly these.
  ghost predicate Opened(calls: seq<Call>, key: string, i: nat) {
    && i < |calls| && calls[i].key == key && key in Ledger(calls)
    && Ledger(calls)[key] == Window(calls[i].now, CallsFor(calls[i..], key))
    && (forall j | i <= j < |calls| && calls[j].key == key :: calls[j].now < calls[i].now + MINUTE)
    && (key in Ledger(calls[..i]) ==> calls[i].now >= Ledger(calls[..i])[key].start + MINUTE)
  }

  /** Windows are fixed: each is opened by a call, serves the calls of the next minute and
      counts them; the call that comes later opens the next one. */
  lemma {:induction false} WindowsAreFixed(calls: seq<Call>, key: string) returns (i: nat)
    requires (forall c | c in calls :: c.now > ZERO_TIME) && exists c :: c in calls && c.key == key
    ensures Opened(calls, key, i)
  {
    var n := |calls| - 1;
    var before, c := calls[..n], calls[n];
    assert calls == before + [c] && c in calls;
    if c.key != key {
      i := WindowsAreFixed(before, key);
      WindowGoesOn(before, c, key, i);
    } else {
      KnownKeys(before, key);
      if key in Ledger(before) {
        i := WindowsAreFixed(before, key);
        if c.now < before[i].now + MINUTE {
          WindowGoesOn(before, c, key, i);
        } else {
          i := n;
          WindowOpens(before, c);
        }
      } else {
        i := n;
        WindowOpens(before, c);
      }
    }
  }

  lemma {:induction false} KnownKeys(calls: seq<Call>, key: string)
    ensures key in Ledger(calls) <==> exists c :: c in calls && c.key == key
  {
    if calls != [] {
      hide Serving;
      var n := |calls| - 1;
      assert calls == calls[..n] + [calls[n]];
      KnownKeys(calls[..n], key);
    }
  }

  lemma LedgerThen(before: seq<Call>, c: Call)
    ensures Ledger(before + [c]) == Counted(Ledger(before), c.key, c.now)
  {
    hide Counted;
    assert (before + [c])[..|before|] == before;
  }

  lemma WindowGoesOn(before: seq<Call>, c: Call, key: string, i: nat)
    requires Opened(before, key, i) && before[i].now > ZERO_TIME
    requires c.key == key ==> c.now < before[i].now + MINUTE
    ensures Opened(before + [c], key, i)
  {
    var calls := before + [c];
    LedgerThen(before, c);
    assert calls[..i] == before[..i] && calls[i..][..|before| - i] == before[i..];
    hide Ledger;
  }

  lemma WindowOpens(before: seq<Call>, c: Call)
    requires c.key in Ledger(before) ==> c.now >= Ledger(before)[c.key].start + MINUTE
    ensures Opened(before + [c], c.key, |before|)
  {
    var calls := before + [c];
    LedgerThen(before, c);
    assert calls[..|before|] == before && calls[|before|..] == [c] && [c][..0] == [];
    hide Ledger;
    assert CallsFor([c], c.key) == 1;
  }
}
