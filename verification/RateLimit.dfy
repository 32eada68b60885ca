/**
 The per-account rate limiter of backend/rate_limit.py: a token bucket, and a table of
 buckets that is bounded and drops stale entries.

 Time is a `real` read from the monotonic clock. `check_rate_limit` reads the clock up to
 three times (on entry, when it builds a bucket, when it consumes), so a call carries
 three readings.
 */
module RateLimit {

  const MAX_ENTRIES := 1000
  const STALE_SECONDS := 3600.0
  const DEFAULT_LIMIT := Limit(10.0, 10.0)

  datatype Limit = Limit(rate: real, capacity: real)
  datatype Bucket = Bucket(tokens: real, lastRefill: real)

  function Min(a: real, b: real): real {
    if a <= b then a else b
  }

  /** The tokens earned from `since` until `now`. */
  function Earned(limit: Limit, since: real, now: real): real {
    (now - since) * limit.rate
  }

  function Refill(limit: Limit, b: Bucket, now: real): real {
    Min(limit.capacity, b.tokens + Earned(limit, b.lastRefill, now))
  }

  function Spend(limit: Limit, b: Bucket, now: real): (Bucket, bool) {
    var tokens := Refill(limit, b, now);
    if tokens >= 1.0 then (Bucket(tokens - 1.0, now), true) else (Bucket(tokens, now), false)
  }

  predicate InBounds(limit: Limit, b: Bucket) {
    0.0 <= b.tokens <= limit.capacity
  }

  // ---------------------------------------------------------------------------------
  // One bucket over a whole run of calls
  // ---------------------------------------------------------------------------------

  ghost predicate Ordered(created: real, times: seq<real>) {
    && (forall i :: 0 <= i < |times| ==> created <= times[i])
    && (forall i, j :: 0 <= i <= j < |times| ==> times[i] <= times[j])
  }

  /** The bucket after the first `n` calls, for a bucket built at `created`. */
  function BucketAfter(limit: Limit, created: real, times: seq<real>, n: nat): Bucket
    requires n <= |times|
  {
    if n == 0 then Bucket(limit.capacity, created)
    else Spend(limit, BucketAfter(limit, created, times, n - 1), times[n - 1]).0
  }

  predicate Allowed(limit: Limit, created: real, times: seq<real>, n: nat)
    requires n < |times|
  {
    Spend(limit, BucketAfter(limit, created, times, n), times[n]).1
  }

  /** How many of the calls `first`, ..., `end - 1` were allowed. */
  function AllowedBetween(limit: Limit, created: real, times: seq<real>, first: nat, end: nat): nat
    requires first <= end <= |times|
    decreases end
  {
    if first == end then 0
    else AllowedBetween(limit, created, times, first, end - 1)
         + if Allowed(limit, created, times, end - 1) then 1 else 0
  }

  // A bucket of rate `r` called at times `t` is a meter that earns the credit between calls,
  // where the credit of a time is `r * t`. The meter needs no multiplication.

  ghost function Credits(limit: Limit, created: real, times: seq<real>): (credits: seq<real>)
    ensures |credits| == |times|
    ensures forall i :: 0 <= i < |times| ==> credits[i] == Earned(limit, created, times[i])
  {
    seq(|times|, i requires 0 <= i < |times| => Earned(limit, created, times[i]))
  }

  /** What is earned, as a product. */
  lemma EarnedIs(limit: Limit, since: real, now: real)
    ensures Earned(limit, since, now) == limit.rate * (now - since)
  {
  }

  lemma EarnedAdds(limit: Limit, t0: real, t1: real, t2: real)
    requires limit.rate >= 0.0 && t0 <= t1 <= t2
    ensures Earned(limit, t0, t2) == Earned(limit, t0, t1) + Earned(limit, t1, t2)
    ensures Earned(limit, t0, t1) >= 0.0 && Earned(limit, t1, t2) >= 0.0
  {
  }

  /** The tokens call `n` finds after the refill. */
  function Meter(capacity: real, credits: seq<real>, n: nat): real
    requires n < |credits|
    decreases n, 1
  {
    if n == 0 then capacity
    else Min(capacity, Meter(capacity, credits, n - 1) - Spent(capacity, credits, n - 1, n) as real
                       + (credits[n] - credits[n - 1]))
  }

  /** How many of the calls `first`, ..., `end - 1` find a whole token. */
  function Spent(capacity: real, credits: seq<real>, first: nat, end: nat): nat
    requires first <= end <= |credits|
    decreases end, 0
  {
    if first == end then 0
    else Spent(capacity, credits, first, end - 1)
         + if Meter(capacity, credits, end - 1) >= 1.0 then 1 else 0
  }

  ghost predicate Rising(credits: seq<real>) {
    forall i, j :: 0 <= i <= j < |credits| ==> credits[i] <= credits[j]
  }

  /** What a window starting at call `i` still leaves free when call `n` arrives. */
  function Headroom(capacity: real, credits: seq<real>, i: nat, n: nat): real
    requires i <= n < |credits|
  {
    capacity + credits[n] - credits[i] - Spent(capacity, credits, i, n) as real
  }

  /** The tokens found by call `n` are exactly the tightest headroom over all windows ending there. */
  lemma {:induction false} MeterIsTightestHeadroom(capacity: real, credits: seq<real>, n: nat)
    returns (tightest: nat)
    requires n < |credits|
    ensures tightest <= n && Meter(capacity, credits, n) == Headroom(capacity, credits, tightest, n)
    ensures forall i :: 0 <= i <= n ==> Meter(capacity, credits, n) <= Headroom(capacity, credits, i, n)
  {
    if n == 0 {
      return 0;
    }
    var before := MeterIsTightestHeadroom(capacity, credits, n - 1);
    forall i | 0 <= i < n
      ensures Meter(capacity, credits, n) <= Headroom(capacity, credits, i, n)
    {
      assert Headroom(capacity, credits, i, n - 1) >= Meter(capacity, credits, n - 1);
      assert Spent(capacity, credits, i, n)
          == Spent(capacity, credits, i, n - 1) + Spent(capacity, credits, n - 1, n);
    }
    assert Spent(capacity, credits, before, n)
        == Spent(capacity, credits, before, n - 1) + Spent(capacity, credits, n - 1, n);
    tightest := if Meter(capacity, credits, n) == capacity then n else before;
  }

  lemma {:induction false} BucketIsMeter(limit: Limit, created: real, times: seq<real>, n: nat)
    requires n < |times| && Ordered(created, times) && limit.rate >= 0.0
    ensures Refill(limit, BucketAfter(limit, created, times, n), times[n])
            == Meter(limit.capacity, Credits(limit, created, times), n)
  {
    hide Earned;
    var b := BucketAfter(limit, created, times, n);
    if n == 0 {
      EarnedAdds(limit, created, created, times[0]);
    } else {
      BucketIsMeter(limit, created, times, n - 1);
      EarnedAdds(limit, created, times[n - 1], times[n]);
      assert Spent(limit.capacity, Credits(limit, created, times), n - 1, n - 1) == 0;
      assert b.lastRefill == times[n - 1];
    }
  }

  lemma {:induction false} AllowedIsSpent(limit: Limit, created: real, times: seq<real>, first: nat, end: nat)
    requires first <= end <= |times| && Ordered(created, times) && limit.rate >= 0.0
    ensures AllowedBetween(limit, created, times, first, end)
            == Spent(limit.capacity, Credits(limit, created, times), first, end)
    decreases end
  {
    hide Earned;
    if first < end {
      AllowedIsSpent(limit, created, times, first, end - 1);
      BucketIsMeter(limit, created, times, end - 1);
    }
  }

  lemma AllowedExactlyWithinEarned(limit: Limit, created: real, times: seq<real>, n: nat)
    requires n < |times| && Ordered(created, times) && limit.rate >= 0.0
    ensures Allowed(limit, created, times, n)
            <==> forall i :: 0 <= i <= n ==>
                   AllowedBetween(limit, created, times, i, n) as real + 1.0
                   <= limit.capacity + Earned(limit, times[i], times[n])
  {
    hide Earned;
    var credits := Credits(limit, created, times);
    var tightest := MeterIsTightestHeadroom(limit.capacity, credits, n);
    BucketIsMeter(limit, created, times, n);
    forall i | 0 <= i <= n
      ensures limit.capacity + Earned(limit, times[i], times[n])
                - AllowedBetween(limit, created, times, i, n) as real
              == Headroom(limit.capacity, credits, i, n)
    {
      AllowedIsSpent(limit, created, times, i, n);
      EarnedAdds(limit, created, times[i], times[n]);
    }
    assert Allowed(limit, created, times, n) <==> Meter(limit.capacity, credits, n) >= 1.0;
    if Meter(limit.capacity, credits, n) < 1.0 {
      assert Headroom(limit.capacity, credits, tightest, n) < 1.0;
      assert AllowedBetween(limit, created, times, tightest, n) as real + 1.0
           > limit.capacity + Earned(limit, times[tightest], times[n]);
    } else {
      forall i | 0 <= i <= n
        ensures AllowedBetween(limit, created, times, i, n) as real + 1.0
                <= limit.capacity + Earned(limit, times[i], times[n])
      {
        assert Headroom(limit.capacity, credits, i, n) >= 1.0;
      }
    }
  }

  /** The decision rule without a bucket: a call is allowed exactly when admitting it keeps
      every window that ends with it within `capacity + rate * elapsed`. */
  lemma AllowedExactlyWhenEveryWindowFits(limit: Limit, created: real, times: seq<real>, n: nat)
    requires n < |times| && Ordered(created, times) && limit.rate >= 0.0
    ensures Allowed(limit, created, times, n)
            <==> forall i :: 0 <= i <= n ==>
                   AllowedBetween(limit, created, times, i, n) as real + 1.0
                   <= limit.capacity + limit.rate * (times[n] - times[i])
  {
    hide Earned, Allowed, AllowedBetween, Ordered;
    AllowedExactlyWithinEarned(limit, created, times, n);
    forall i | 0 <= i <= n
      ensures Earned(limit, times[i], times[n]) == limit.rate * (times[n] - times[i])
    {
      EarnedIs(limit, times[i], times[n]);
    }
  }

  lemma {:induction false} SpentWithinHeadroom(capacity: real, credits: seq<real>, i: nat, j: nat)
    requires i <= j < |credits| && Rising(credits) && capacity >= 0.0
    ensures Spent(capacity, credits, i, j + 1) as real <= capacity + credits[j] - credits[i]
    decreases j
  {
    var tightest := MeterIsTightestHeadroom(capacity, credits, j);
    if Meter(capacity, credits, j) >= 1.0 {
      assert Headroom(capacity, credits, i, j) >= 1.0;
    } else if i < j {
      SpentWithinHeadroom(capacity, credits, i, j - 1);
    }
  }

  lemma AllowedWithinEarned(limit: Limit, created: real, times: seq<real>, i: nat, j: nat)
    requires i <= j < |times| && Ordered(created, times)
    requires limit.rate >= 0.0 && limit.capacity >= 0.0
    ensures AllowedBetween(limit, created, times, i, j + 1) as real
            <= limit.capacity + Earned(limit, times[i], times[j])
  {
    hide Earned;
    var credits := Credits(limit, created, times);
    CreditsRise(limit, created, times);
    SpentWithinHeadroom(limit.capacity, credits, i, j);
    AllowedIsSpent(limit, created, times, i, j + 1);
    EarnedAdds(limit, created, times[i], times[j]);
  }

  /** Between any two calls, ends included, at most `capacity + rate * elapsed` are allowed. */
  lemma WindowBound(limit: Limit, created: real, times: seq<real>, i: nat, j: nat)
    requires i <= j < |times| && Ordered(created, times)
    requires limit.rate >= 0.0 && limit.capacity >= 0.0
    ensures AllowedBetween(limit, created, times, i, j + 1) as real
            <= limit.capacity + limit.rate * (times[j] - times[i])
  {
    hide Earned, AllowedBetween, Ordered;
    AllowedWithinEarned(limit, created, times, i, j);
    EarnedIs(limit, times[i], times[j]);
  }

  lemma CreditsRise(limit: Limit, created: real, times: seq<real>)
    requires Ordered(created, times) && limit.rate >= 0.0
    ensures Rising(Credits(limit, created, times))
  {
    hide Earned;
    forall i, j | 0 <= i <= j < |times|
      ensures Credits(limit, created, times)[i] <= Credits(limit, created, times)[j]
    {
      EarnedAdds(limit, created, times[i], times[j]);
    }
  }

  /** Calls at least `1 / rate` apart are all allowed once the capacity is a whole token. */
  lemma {:induction false} SpacedCallsAllAllowed(limit: Limit, created: real, times: seq<real>, n: nat)
    requires n < |times| && Ordered(created, times)
    requires limit.rate > 0.0 && limit.capacity >= 1.0
    requires forall k :: 0 < k < |times| ==> times[k] - times[k - 1] >= 1.0 / limit.rate
    ensures Allowed(limit, created, times, n)
  {
    hide Earned;
    var credits := Credits(limit, created, times);
    BucketIsMeter(limit, created, times, n);
    if n > 0 {
      SpacedCallsAllAllowed(limit, created, times, n - 1);
      BucketIsMeter(limit, created, times, n - 1);
      GapEarnsToken(limit, times[n - 1], times[n]);
      EarnedAdds(limit, created, times[n - 1], times[n]);
      assert Spent(limit.capacity, credits, n - 1, n - 1) == 0;
    }
  }

  lemma GapEarnsToken(limit: Limit, t0: real, t1: real)
    requires limit.rate > 0.0 && t1 - t0 >= 1.0 / limit.rate
    ensures Earned(limit, t0, t1) >= 1.0
  {
    var inverse := 1.0 / limit.rate;
    assert limit.rate * inverse == 1.0;
    assert (t1 - t0 - inverse) * limit.rate >= 0.0;
  }

  lemma ConsumeStaysInBounds(limit: Limit, b: Bucket, now: real)
    requires limit.rate >= 0.0 && InBounds(limit, b) && b.lastRefill <= now
    ensures InBounds(limit, Spend(limit, b, now).0)
  {
    assert (now - b.lastRefill) * limit.rate >= 0.0;
  }

  // ---------------------------------------------------------------------------------
  // The table of buckets
  // ---------------------------------------------------------------------------------

  type Table = map<string, Bucket>

  /** One call of `check_rate_limit` with its clock readings in the order they are taken. */
  datatype Call = Call(id: string, entered: real, built: real, consumed: real) {
    predicate Timely(now: real) {
      now <= entered <= built <= consumed
    }
  }

  /** `Granted` returns; `Exhausted` and `Refused` (no room for a new bucket) both raise 429. */
  datatype Outcome = Granted | Exhausted | Refused

  predicate Fresh(b: Bucket, now: real) {
    now - b.lastRefill <= STALE_SECONDS
  }

  function Evict(table: Table, now: real): Table {
    if |table| >= MAX_ENTRIES then map k | k in table && Fresh(table[k], now) :: table[k] else table
  }

  function Serve(table: Table, c: Call): (Table, bool) {
    var b := if c.id in table then table[c.id] else Bucket(DEFAULT_LIMIT.capacity, c.built);
    var (b', ok) := Spend(DEFAULT_LIMIT, b, c.consumed);
    (table[c.id := b'], ok)
  }

  function Check(table: Table, c: Call): (Table, Outcome) {
    var kept := Evict(table, c.entered);
    if c.id !in kept && |kept| >= MAX_ENTRIES then (kept, Refused)
    else
      var (table', ok) := Serve(kept, c);
      (table', if ok then Granted else Exhausted)
  }

  /** The table stays within its bound. */
  lemma CheckKeepsTableBounded(table: Table, c: Call)
    requires |table| <= MAX_ENTRIES
    ensures |Check(table, c).0| <= MAX_ENTRIES
  {
    var kept := Evict(table, c.entered);
    SubsetSize(kept.Keys, table.Keys);
    var table' := Check(table, c).0;
    if Check(table, c).1 != Refused {
      assert table'.Keys == kept.Keys + {c.id};
    }
  }

  lemma SubsetSize<T>(a: set<T>, b: set<T>)
    requires a <= b
    ensures |a| <= |b|
  {
    assert b == a + (b - a);
  }

  lemma OneMoreKey<K, V>(m: map<K, V>, k: K, v: V)
    requires k !in m
    ensures |m[k := v].Keys| == |m.Keys| + 1
  {
    assert m[k := v].Keys == m.Keys + {k};
  }

  /** The last clock reading of a run. */
  function LastReading(calls: seq<Call>, now: real): real {
    if calls == [] then now else calls[|calls| - 1].consumed
  }

  predicate Timely(calls: seq<Call>, now: real) {
    calls == []
    || (Timely(calls[..|calls| - 1], now) && calls[|calls| - 1].Timely(LastReading(calls[..|calls| - 1], now)))
  }

  function BoundedAfter(table: Table, calls: seq<Call>): Table {
    if calls == [] then table else Check(BoundedAfter(table, calls[..|calls| - 1]), calls[|calls| - 1]).0
  }

  /** The calls the bounded table did not refuse for lack of room. */
  function Served(table: Table, calls: seq<Call>): seq<Call> {
    if calls == [] then []
    else
      var before, c := calls[..|calls| - 1], calls[|calls| - 1];
      Served(table, before) + if Check(BoundedAfter(table, before), c).1 == Refused then [] else [c]
  }

  /** The bounded table's verdicts on the calls it served. */
  function Verdicts(table: Table, calls: seq<Call>): seq<bool> {
    if calls == [] then []
    else
      var before, c := calls[..|calls| - 1], calls[|calls| - 1];
      var outcome := Check(BoundedAfter(table, before), c).1;
      Verdicts(table, before) + if outcome == Refused then [] else [outcome == Granted]
  }

  /** A table that never deletes a bucket and never refuses one. */
  function UnboundedAfter(table: Table, calls: seq<Call>): Table {
    if calls == [] then table else Serve(UnboundedAfter(table, calls[..|calls| - 1]), calls[|calls| - 1]).0
  }

  function UnboundedVerdicts(table: Table, calls: seq<Call>): seq<bool> {
    if calls == [] then []
    else
      var before, c := calls[..|calls| - 1], calls[|calls| - 1];
      UnboundedVerdicts(table, before) + [Serve(UnboundedAfter(table, before), c).1]
  }

  /** The bounded table agrees with the unbounded one wherever it has an entry, and what it
      lacks is stale. */
  ghost predicate Agree(bounded: Table, unbounded: Table, now: real) {
    && bounded.Keys <= unbounded.Keys
    && (forall k :: k in bounded ==> bounded[k] == unbounded[k])
    && (forall k :: k in unbounded && k !in bounded ==> !Fresh(unbounded[k], now))
    && (forall k :: k in unbounded ==>
          InBounds(DEFAULT_LIMIT, unbounded[k]) && unbounded[k].lastRefill <= now)
  }

  /** A bucket idle for longer than the stale limit consumes like a bucket just built. */
  lemma StaleConsumesLikeNew(b: Bucket, c: Call)
    requires InBounds(DEFAULT_LIMIT, b) && c.entered <= c.built <= c.consumed && !Fresh(b, c.entered)
    ensures Spend(DEFAULT_LIMIT, b, c.consumed)
            == Spend(DEFAULT_LIMIT, Bucket(DEFAULT_LIMIT.capacity, c.built), c.consumed)
  {
  }

  ghost function FreshIds(table: Table, now: real): set<string> {
    set k | k in table && Fresh(table[k], now)
  }

  /** One call: the two tables stay in agreement and decide alike, and the bounded one refuses
      exactly when the caller has no fresh bucket while 1000 other ids do. */
  lemma CheckMatchesUnbounded(bounded: Table, unbounded: Table, c: Call, now: real)
    requires Agree(bounded, unbounded, now) && c.Timely(now) && |bounded| <= MAX_ENTRIES
    ensures var (bounded', outcome) := Check(bounded, c);
            && (outcome == Refused <==>
                  && c.id !in FreshIds(unbounded, c.entered)
                  && |FreshIds(unbounded, c.entered)| >= MAX_ENTRIES)
            && (outcome == Refused ==> Agree(bounded', unbounded, c.consumed))
            && (outcome != Refused ==>
                  && (outcome == Granted) == Serve(unbounded, c).1
                  && Agree(bounded', Serve(unbounded, c).0, c.consumed))
  {
    var kept := Evict(bounded, c.entered);
    var live := FreshIds(unbounded, c.entered);
    assert live <= bounded.Keys;
    assert live <= kept.Keys;
    SubsetSize(live, kept.Keys);
    SubsetSize(kept.Keys, bounded.Keys);
    if |bounded| >= MAX_ENTRIES {
      assert kept.Keys == live;
    }
    if Check(bounded, c).1 != Refused {
      if c.id in unbounded {
        ConsumeStaysInBounds(DEFAULT_LIMIT, unbounded[c.id], c.consumed);
        if c.id !in kept {
          StaleConsumesLikeNew(unbounded[c.id], c);
        }
      } else {
        ConsumeStaysInBounds(DEFAULT_LIMIT, Bucket(DEFAULT_LIMIT.capacity, c.built), c.consumed);
      }
    }
  }

  /** Over every run, the bounded table decides each call it serves as the unbounded table does. */
  lemma {:induction false} BoundedRefinesUnbounded(bounded: Table, unbounded: Table, calls: seq<Call>, now: real)
    requires Agree(bounded, unbounded, now) && |bounded| <= MAX_ENTRIES && Timely(calls, now)
    ensures Verdicts(bounded, calls) == UnboundedVerdicts(unbounded, Served(bounded, calls))
    ensures |BoundedAfter(bounded, calls)| <= MAX_ENTRIES
    ensures Agree(BoundedAfter(bounded, calls), UnboundedAfter(unbounded, Served(bounded, calls)),
                  LastReading(calls, now))
  {
    hide Check, Serve, Agree;
    if calls != [] {
      var (before, c) := (calls[..|calls| - 1], calls[|calls| - 1]);
      BoundedRefinesUnbounded(bounded, unbounded, before, now);
      var (b, u) := (BoundedAfter(bounded, before), UnboundedAfter(unbounded, Served(bounded, before)));
      CheckMatchesUnbounded(b, u, c, LastReading(before, now));
      CheckKeepsTableBounded(b, c);
      var served := Served(bounded, before);
      if Check(b, c).1 == Refused {
        assert served + [] == served && Verdicts(bounded, before) + [] == Verdicts(bounded, before);
      } else {
        assert (served + [c])[..|served|] == served;
      }
    }
  }

  /** From the empty table. */
  lemma EvictionIsInvisible(calls: seq<Call>, now: real)
    requires Timely(calls, now)
    ensures Verdicts(map[], calls) == UnboundedVerdicts(map[], Served(map[], calls))
  {
    BoundedRefinesUnbounded(map[], map[], calls, now);
  }

  // ---------------------------------------------------------------------------------
  // The calls of one id
  // ---------------------------------------------------------------------------------

  function CallsOf(id: string, calls: seq<Call>): seq<Call> {
    if calls == [] then []
    else
      var c := calls[|calls| - 1];
      CallsOf(id, calls[..|calls| - 1]) + if c.id == id then [c] else []
  }

  function Times(calls: seq<Call>): (times: seq<real>)
    ensures |times| == |calls| && forall i :: 0 <= i < |calls| ==> times[i] == calls[i].consumed
  {
    seq(|calls|, i requires 0 <= i < |calls| => calls[i].consumed)
  }

  /** The verdicts on the calls of one id. */
  function VerdictsOf(id: string, calls: seq<Call>, verdicts: seq<bool>): seq<bool>
    requires |verdicts| == |calls|
  {
    if calls == [] then []
    else
      var n := |calls| - 1;
      VerdictsOf(id, calls[..n], verdicts[..n]) + if calls[n].id == id then [verdicts[n]] else []
  }

  lemma {:induction false} OneVerdictEach(table: Table, calls: seq<Call>)
    ensures |Verdicts(table, calls)| == |Served(table, calls)|
  {
    hide Check;
    if calls != [] {
      OneVerdictEach(table, calls[..|calls| - 1]);
    }
  }

  /** The verdicts of a run from the empty table on the calls of one id that it served. */
  function OwnVerdicts(id: string, calls: seq<Call>): seq<bool> {
    OneVerdictEach(map[], calls);
    VerdictsOf(id, Served(map[], calls), Verdicts(map[], calls))
  }

  function OwnCalls(id: string, calls: seq<Call>): seq<Call> {
    CallsOf(id, Served(map[], calls))
  }

  /** A bucket remembers only the calls up to now. */
  lemma {:induction false} BucketOfPrefix(limit: Limit, created: real, times: seq<real>, more: seq<real>, n: nat)
    requires n <= |times|
    ensures BucketAfter(limit, created, times + more, n) == BucketAfter(limit, created, times, n)
  {
    hide Spend;
    if n > 0 {
      BucketOfPrefix(limit, created, times, more, n - 1);
    }
  }

  lemma TimesSnoc(calls: seq<Call>, c: Call)
    ensures Times(calls + [c]) == Times(calls) + [c.consumed]
  {
  }

  /** What the unbounded table holds for an id is the bucket of its own calls. */
  lemma {:induction false} OwnBucket(id: string, calls: seq<Call>)
    ensures var (own, table) := (CallsOf(id, calls), UnboundedAfter(map[], calls));
            && (id in table <==> own != [])
            && (own != [] ==> table[id] == BucketAfter(DEFAULT_LIMIT, own[0].built, Times(own), |own|))
  {
    hide Spend, Times;
    if calls != [] {
      var (before, c) := (calls[..|calls| - 1], calls[|calls| - 1]);
      OwnBucket(id, before);
      if c.id == id {
        var own := CallsOf(id, before);
        TimesSnoc(own, c);
        BucketOfPrefix(DEFAULT_LIMIT, (own + [c])[0].built, Times(own), [c.consumed], |own|);
        OneMoreCall(own, c);
      } else {
        assert CallsOf(id, before) + [] == CallsOf(id, before);
      }
    }
  }

  lemma OneMoreCall(own: seq<Call>, c: Call)
    ensures var created := (own + [c])[0].built;
            && BucketAfter(DEFAULT_LIMIT, created, Times(own + [c]), |own| + 1)
               == Spend(DEFAULT_LIMIT, BucketAfter(DEFAULT_LIMIT, created, Times(own + [c]), |own|), c.consumed).0
            && BucketAfter(DEFAULT_LIMIT, created, Times(own + [c]), 0) == Bucket(DEFAULT_LIMIT.capacity, created)
  {
    hide Spend;
  }

  /** The verdict of the unbounded table on the next call is that of the id's own bucket. */
  lemma NextVerdict(calls: seq<Call>, c: Call)
    ensures var own := CallsOf(c.id, calls) + [c];
            Serve(UnboundedAfter(map[], calls), c).1
            <==> Allowed(DEFAULT_LIMIT, own[0].built, Times(own), |own| - 1)
  {
    hide Spend, UnboundedAfter;
    var own := CallsOf(c.id, calls);
    OwnBucket(c.id, calls);
    TimesSnoc(own, c);
    BucketOfPrefix(DEFAULT_LIMIT, (own + [c])[0].built, Times(own), [c.consumed], |own|);
    OneMoreCall(own, c);
  }

  lemma {:induction false} UnboundedVerdictsAreTheBuckets(id: string, calls: seq<Call>)
    ensures |UnboundedVerdicts(map[], calls)| == |calls|
    ensures var (own, mine) := (CallsOf(id, calls), VerdictsOf(id, calls, UnboundedVerdicts(map[], calls)));
            && |mine| == |own|
            && forall n :: 0 <= n < |own| ==>
                 (mine[n] <==> Allowed(DEFAULT_LIMIT, own[0].built, Times(own), n))
  {
    hide Serve, Allowed, Times, UnboundedAfter;
    if calls != [] {
      var (before, c) := (calls[..|calls| - 1], calls[|calls| - 1]);
      UnboundedVerdictsAreTheBuckets(id, before);
      assert UnboundedVerdicts(map[], calls)[..|before|] == UnboundedVerdicts(map[], before);
      if c.id == id {
        NextVerdict(before, c);
        var own := CallsOf(id, before);
        forall n | 0 <= n < |own|
          ensures Allowed(DEFAULT_LIMIT, (own + [c])[0].built, Times(own + [c]), n)
                  <==> Allowed(DEFAULT_LIMIT, own[0].built, Times(own), n)
        {
          AllowedOfPrefix(own, c, n);
        }
      } else {
        assert CallsOf(id, before) + [] == CallsOf(id, before);
      }
    }
  }

  lemma AllowedOfPrefix(own: seq<Call>, c: Call, n: nat)
    requires n < |own|
    ensures Allowed(DEFAULT_LIMIT, (own + [c])[0].built, Times(own + [c]), n)
            <==> Allowed(DEFAULT_LIMIT, own[0].built, Times(own), n)
  {
    hide Spend;
    TimesSnoc(own, c);
    BucketOfPrefix(DEFAULT_LIMIT, own[0].built, Times(own), [c.consumed], n);
  }

  /** Over every run from the empty table the verdicts on the served calls of one id are those of one
      bucket of ten tokens, earning ten a second, built at the first of them and asked at each. */
  lemma VerdictsAreTheBuckets(id: string, calls: seq<Call>, now: real)
    requires Timely(calls, now)
    ensures var (own, mine) := (OwnCalls(id, calls), OwnVerdicts(id, calls));
            && |mine| == |own|
            && forall n :: 0 <= n < |own| ==>
                 (mine[n] <==> Allowed(Limit(10.0, 10.0), own[0].built, Times(own), n))
  {
    hide Allowed, Served, Verdicts, UnboundedVerdicts, CallsOf;
    EvictionIsInvisible(calls, now);
    UnboundedVerdictsAreTheBuckets(id, Served(map[], calls));
  }

  /** So the calls of other ids change no verdict. */
  lemma OthersChangeNoVerdict(id: string, calls: seq<Call>, others: seq<Call>, now: real)
    requires Timely(calls, now) && Timely(others, now) && OwnCalls(id, calls) == OwnCalls(id, others)
    ensures OwnVerdicts(id, calls) == OwnVerdicts(id, others)
  {
    hide OwnCalls, OwnVerdicts, Allowed, Times;
    VerdictsAreTheBuckets(id, calls, now);
    VerdictsAreTheBuckets(id, others, now);
  }

  function Grants(verdicts: seq<bool>): nat {
    if verdicts == [] then 0
    else Grants(verdicts[..|verdicts| - 1]) + if verdicts[|verdicts| - 1] then 1 else 0
  }

  /** The verdicts count as the bucket's do. */
  lemma {:induction false} GrantsAreAllowed(mine: seq<bool>, created: real, times: seq<real>, i: nat, j: nat)
    requires i <= j <= |times| && |mine| == |times|
    requires forall n :: 0 <= n < |times| ==> (mine[n] <==> Allowed(DEFAULT_LIMIT, created, times, n))
    ensures Grants(mine[i..j]) == AllowedBetween(DEFAULT_LIMIT, created, times, i, j)
    decreases j
  {
    hide Allowed;
    if i < j {
      GrantsAreAllowed(mine, created, times, i, j - 1);
      assert mine[i..j][..j - i - 1] == mine[i..j - 1];
    }
  }

  lemma {:induction false} OwnInOrder(id: string, calls: seq<Call>, now: real)
    requires Timely(calls, now)
    ensures forall i :: 0 <= i < |CallsOf(id, calls)| ==>
              CallsOf(id, calls)[i].built <= CallsOf(id, calls)[i].consumed <= LastReading(calls, now)
    ensures forall i, j :: 0 <= i < j < |CallsOf(id, calls)| ==>
              CallsOf(id, calls)[i].consumed <= CallsOf(id, calls)[j].entered
  {
    if calls != [] {
      OwnInOrder(id, calls[..|calls| - 1], now);
    }
  }

  lemma {:induction false} ServedIsTimely(table: Table, calls: seq<Call>, now: real)
    requires Timely(calls, now)
    ensures Timely(Served(table, calls), now)
    ensures now <= LastReading(Served(table, calls), now) <= LastReading(calls, now)
  {
    hide Check;
    if calls != [] {
      var (before, c) := (calls[..|calls| - 1], calls[|calls| - 1]);
      ServedIsTimely(table, before, now);
      var served := Served(table, before);
      assert served + [] == served && (served + [c])[..|served|] == served;
    }
  }

  lemma OwnIsOrdered(id: string, calls: seq<Call>, now: real)
    requires Timely(calls, now) && OwnCalls(id, calls) != []
    ensures Ordered(OwnCalls(id, calls)[0].built, Times(OwnCalls(id, calls)))
  {
    hide Served, CallsOf;
    ServedIsTimely(map[], calls, now);
    OwnInOrder(id, Served(map[], calls), now);
    CallsAreTimely(id, Served(map[], calls), now);
  }

  lemma {:induction false} CallsAreTimely(id: string, calls: seq<Call>, now: real)
    requires Timely(calls, now)
    ensures forall i :: 0 <= i < |CallsOf(id, calls)| ==>
              CallsOf(id, calls)[i].entered <= CallsOf(id, calls)[i].built <= CallsOf(id, calls)[i].consumed
  {
    if calls != [] {
      CallsAreTimely(id, calls[..|calls| - 1], now);
    }
  }

  /** `check_rate_limit` without tables or buckets. Over every run, a served call is granted if and only
      if granting it keeps every window of its id's calls that ends with it within ten calls and ten
      more for each second it lasts. */
  lemma GrantedExactlyWhenEveryWindowFits(id: string, calls: seq<Call>, now: real, n: nat)
    requires Timely(calls, now) && n < |OwnCalls(id, calls)|
    ensures var (own, mine) := (OwnCalls(id, calls), OwnVerdicts(id, calls));
            && |mine| == |own|
            && (mine[n] <==> forall i :: 0 <= i <= n ==>
                  Grants(mine[i..n]) as real + 1.0 <= 10.0 + 10.0 * (own[n].consumed - own[i].consumed))
  {
    hide OwnCalls, OwnVerdicts, Allowed, Grants, Ordered;
    var (own, mine) := (OwnCalls(id, calls), OwnVerdicts(id, calls));
    VerdictsAreTheBuckets(id, calls, now);
    OwnIsOrdered(id, calls, now);
    var created, times := own[0].built, Times(own);
    AllowedExactlyWhenEveryWindowFits(DEFAULT_LIMIT, created, times, n);
    forall i | 0 <= i <= n
      ensures Grants(mine[i..n]) == AllowedBetween(DEFAULT_LIMIT, created, times, i, n)
    {
      GrantsAreAllowed(mine, created, times, i, n);
    }
    hide AllowedBetween;
  }

  /** So between any two served calls of one id, ends included, at most ten are granted, and ten more
      for each second between them. */
  lemma GrantsWithinRate(id: string, calls: seq<Call>, now: real, i: nat, j: nat)
    requires Timely(calls, now) && i <= j < |OwnCalls(id, calls)|
    ensures var (own, mine) := (OwnCalls(id, calls), OwnVerdicts(id, calls));
            && |mine| == |own|
            && Grants(mine[i..j + 1]) as real <= 10.0 + 10.0 * (own[j].consumed - own[i].consumed)
  {
    hide OwnCalls, OwnVerdicts, Allowed, Grants, Ordered;
    var (own, mine) := (OwnCalls(id, calls), OwnVerdicts(id, calls));
    VerdictsAreTheBuckets(id, calls, now);
    OwnIsOrdered(id, calls, now);
    var created, times := own[0].built, Times(own);
    WindowBound(DEFAULT_LIMIT, created, times, i, j);
    GrantsAreAllowed(mine, created, times, i, j + 1);
  }

  // ---------------------------------------------------------------------------------
  // When there is no room
  // ---------------------------------------------------------------------------------

  /** The ids with a served call within the last hour. */
  function RecentIds(served: seq<Call>, now: real): set<string> {
    set c | c in served && now - c.consumed <= 3600.0 :: c.id
  }

  /** Over every run a call is refused for lack of room if and only if its own id has no served call
      within the hour before it and at least a thousand ids do. */
  lemma RefusedExactlyWhenAThousandAreRecent(calls: seq<Call>, c: Call, now: real)
    requires Timely(calls + [c], now)
    ensures var recent := RecentIds(Served(map[], calls), c.entered);
            Check(BoundedAfter(map[], calls), c).1 == Refused <==> c.id !in recent && |recent| >= 1000
  {
    hide Check, Served;
    assert (calls + [c])[..|calls|] == calls;
    BoundedRefinesUnbounded(map[], map[], calls, now);
    var (served, unbounded) := (Served(map[], calls), UnboundedAfter(map[], Served(map[], calls)));
    CheckMatchesUnbounded(BoundedAfter(map[], calls), unbounded, c, LastReading(calls, now));
    ServedIsTimely(map[], calls, now);
    FreshIsRecent(served, c.entered, now);
  }

  lemma FreshIsRecent(served: seq<Call>, entered: real, now: real)
    requires Timely(served, now)
    ensures FreshIds(UnboundedAfter(map[], served), entered) == RecentIds(served, entered)
  {
    hide UnboundedAfter;
    forall id
      ensures id in FreshIds(UnboundedAfter(map[], served), entered) <==> id in RecentIds(served, entered)
    {
      OwnBucket(id, served);
      OwnCallsAreThere(id, served);
      OwnInOrder(id, served, now);
      CallsAreTimely(id, served, now);
      var own := CallsOf(id, served);
      if own != [] {
        LastRefillIsLastCall(own);
        assert own[|own| - 1] in served;
        hide CallsOf, BucketAfter;
        if c :| c in served && entered - c.consumed <= 3600.0 && c.id == id {
          var k :| 0 <= k < |own| && own[k] == c;
        }
      }
    }
  }

  lemma LastRefillIsLastCall(own: seq<Call>)
    requires own != []
    ensures BucketAfter(DEFAULT_LIMIT, own[0].built, Times(own), |own|).lastRefill == own[|own| - 1].consumed
  {
  }

  lemma {:induction false} OwnCallsAreThere(id: string, calls: seq<Call>)
    ensures forall c :: c in CallsOf(id, calls) <==> c in calls && c.id == id
  {
    if calls != [] {
      OwnCallsAreThere(id, calls[..|calls| - 1]);
      assert calls == calls[..|calls| - 1] + [calls[|calls| - 1]];
    }
  }

  // ---------------------------------------------------------------------------------
  // The objects of the source
  // ---------------------------------------------------------------------------------

  class TokenBucket {
    const limit: Limit
    var tokens: real
    var lastRefill: real

    ghost predicate Valid()
      reads this
    {
      limit.rate >= 0.0 && InBounds(limit, View())
    }

    ghost function View(): Bucket
      reads this
    {
      Bucket(tokens, lastRefill)
    }

    /** A sound bucket with the default limit and this content. */
    ghost predicate Holds(b: Bucket)
      reads this
    {
      Valid() && limit == DEFAULT_LIMIT && View() == b
    }

    constructor (limit: Limit, now: real)
      requires limit.rate >= 0.0 && limit.capacity >= 0.0
      ensures Valid() && this.limit == limit && View() == Bucket(limit.capacity, now)
    {
      this.limit := limit;
      tokens := limit.capacity;
      lastRefill := now;
    }

    method Consume(now: real) returns (ok: bool)
      requires Valid() && lastRefill <= now
      modifies this
      ensures Valid() && (View(), ok) == Spend(limit, old(View()), now)
    {
      hide Earned;
      ConsumeStaysInBounds(limit, View(), now);
      tokens := Min(limit.capacity, tokens + Earned(limit, lastRefill, now));
      lastRefill := now;
      if tokens >= 1.0 {
        tokens := tokens - 1.0;
        return true;
      }
      return false;
    }
  }

  method NewBucket(built: real) returns (bucket: TokenBucket)
    ensures fresh(bucket) && bucket.Holds(Bucket(DEFAULT_LIMIT.capacity, built))
  {
    bucket := new TokenBucket(DEFAULT_LIMIT, built);
  }

  method ConsumeHeld(bucket: TokenBucket, ghost b: Bucket, now: real) returns (ok: bool)
    requires bucket.Holds(b) && b.lastRefill <= now
    modifies bucket
    ensures bucket.Holds(Spend(DEFAULT_LIMIT, b, now).0) && ok == Spend(DEFAULT_LIMIT, b, now).1
  {
    hide Spend;
    ok := bucket.Consume(now);
  }

  class RateLimiter {
    var buckets: map<string, TokenBucket>
    ghost var Contents: Table

    ghost predicate Valid()
      reads this, buckets.Values
    {
      |buckets.Keys| <= MAX_ENTRIES && Mirrored()
    }

    /** The contents are those of the buckets, which are distinct objects. */
    ghost predicate Mirrored()
      reads this, buckets.Values
    {
      && Contents.Keys == buckets.Keys
      && (forall k :: k in buckets ==> buckets[k].Holds(Contents[k]))
      && (forall j, k :: j in buckets && k in buckets && j != k ==> buckets[j] != buckets[k])
    }

    constructor ()
      ensures Valid() && Contents == map[]
    {
      buckets := map[];
      Contents := map[];
    }

    /** Deletes the given ids one by one. */
    method DeleteAll(ids: set<string>)
      modifies this`buckets
      ensures buckets == old(buckets) - ids
    {
      var rest := ids;
      while rest != {}
        invariant rest <= ids && buckets == old(buckets) - (ids - rest)
        decreases rest
      {
        var k :| k in rest;
        rest := rest - {k};
        buckets := buckets - {k};
      }
    }

    /** The eviction pass at the head of `check_rate_limit`. */
    method MakeRoom(now: real)
      requires Valid()
      modifies this
      ensures Valid() && Contents == Evict(old(Contents), now)
      ensures |old(Contents)| < 1000 ==> Contents == old(Contents)
      ensures |old(Contents)| >= 1000 ==>
                forall k :: k in Contents <==> k in old(Contents) && now - old(Contents)[k].lastRefill <= 3600.0
      ensures forall k :: k in buckets ==> k in old(buckets) && buckets[k] == old(buckets[k])
      ensures forall k :: k in Contents ==> k in old(Contents) && Contents[k] == old(Contents[k])
    {
      hide TokenBucket.Valid;
      assert |Contents| == |Contents.Keys|;
      if |buckets.Keys| >= MAX_ENTRIES {
        DropStale(now);
        SubsetSize(buckets.Keys, old(buckets).Keys);
      }
    }

    method DropStale(now: real)
      requires Mirrored()
      modifies this
      ensures Mirrored() && Contents == map k | k in old(Contents) && Fresh(old(Contents)[k], now) :: old(Contents)[k]
      ensures forall k :: k in buckets ==> k in old(buckets) && buckets[k] == old(buckets[k])
    {
      hide TokenBucket.Valid;
      var stale := set k | k in buckets && now - buckets[k].lastRefill > STALE_SECONDS;
      ghost var live := map k | k in Contents && Fresh(Contents[k], now) :: Contents[k];
      DeleteAll(stale);
      Contents := live;
    }

    /** Builds a bucket for an id that has none. */
    method AddBucket(id: string, built: real)
      requires Valid() && id !in buckets && |buckets.Keys| < MAX_ENTRIES
      modifies this
      ensures Valid() && Contents == old(Contents)[id := Bucket(DEFAULT_LIMIT.capacity, built)]
      ensures id in buckets && fresh(buckets[id]) && buckets == old(buckets)[id := buckets[id]]
    {
      hide TokenBucket.Holds, RateLimiter.Mirrored;
      var bucket := NewBucket(built);
      StoreBucket(id, bucket, Bucket(DEFAULT_LIMIT.capacity, built));
    }

    method StoreBucket(id: string, bucket: TokenBucket, ghost b: Bucket)
      requires Valid() && id !in buckets && |buckets.Keys| < MAX_ENTRIES
      requires bucket.Holds(b) && bucket !in buckets.Values
      modifies this
      ensures Valid() && Contents == old(Contents)[id := b] && buckets == old(buckets)[id := bucket]
    {
      hide TokenBucket.Holds;
      OneMoreKey(buckets, id, bucket);
      buckets := buckets[id := bucket];
      Contents := Contents[id := b];
    }

    /** Consumes from the bucket of an id that has one. */
    method ConsumeFrom(id: string, now: real) returns (ok: bool)
      requires Valid() && id in buckets && Contents[id].lastRefill <= now
      modifies this`Contents, buckets[id]
      ensures Valid()
      ensures var (b, granted) := Spend(DEFAULT_LIMIT, old(Contents)[id], now);
              ok == granted && Contents == old(Contents)[id := b]
    {
      hide Spend, TokenBucket.Holds;
      ok := ConsumeHeld(buckets[id], Contents[id], now);
      Contents := Contents[id := Spend(DEFAULT_LIMIT, Contents[id], now).0];
    }

    /** Builds the bucket if there is none, then consumes from it. */
    method Admit(c: Call) returns (ok: bool)
      requires Valid() && c.built <= c.consumed
      requires c.id in buckets || |buckets.Keys| < MAX_ENTRIES
      requires c.id in buckets ==> Contents[c.id].lastRefill <= c.consumed
      modifies this, if c.id in buckets then {buckets[c.id]} else {}
      ensures Valid() && (Contents, ok) == Serve(old(Contents), c)
    {
      hide Earned, InBounds, Spend, Refill, TokenBucket.Holds;
      ghost var before := Contents;
      if c.id !in buckets {
        AddBucket(c.id, c.built);
      }
      ok := ConsumeFrom(c.id, c.consumed);
      assert Contents == Serve(before, c).0;
    }

    method CheckRateLimit(c: Call) returns (outcome: Outcome)
      requires Valid() && c.entered <= c.built <= c.consumed
      requires forall k :: k in Contents ==> Contents[k].lastRefill <= c.entered
      modifies this, buckets.Values
      ensures Valid() && (Contents, outcome) == Check(old(Contents), c)
    {
      hide Earned, InBounds, Fresh, Evict, Serve;
      MakeRoom(c.entered);
      assert |Contents| == |Contents.Keys|;
      if c.id !in buckets && |buckets.Keys| >= MAX_ENTRIES {
        return Refused;
      }
      var ok := Admit(c);
      outcome := if ok then Granted else Exhausted;
    }
  }
}
