/**
 The sliding-window rate limiter. Each key keeps the times of its recent accepted requests; a
 request drops the expired ones and is accepted if fewer than `limit` remain; a background task
 cleans all keys. Instants are integers (nanoseconds).
*/
module RateLimiter {
  import opened Common

  datatype Config = Config(limit: int, window: int)

  type Requests = map<string, seq<int>>

  /** The times strictly after the cutoff, in order. */
  function Recent(times: seq<int>, cutoff: int): seq<int> {
    if times == [] then []
    else
      var init, last := times[..|times| - 1], times[|times| - 1];
      if last > cutoff then Recent(init, cutoff) + [last] else Recent(init, cutoff)
  }

  function Stored(requests: Requests, key: string): seq<int> {
    if key in requests then requests[key] else []
  }

  function DoAllow(c: Config, requests: Requests, key: string, now: int): (Requests, bool) {
    var recent := Recent(Stored(requests, key), now - c.window);
    if |recent| >= c.limit then (requests, false) else (requests[key := recent + [now]], true)
  }

  function DoCleanup(c: Config, requests: Requests, now: int): Requests {
    map key | key in requests && Recent(requests[key], now - c.window) != [] :: Recent(requests[key], now - c.window)
  }

  // ---------------------------------------------------------------------------------------
  // Facts about filtering
  // ---------------------------------------------------------------------------------------

  lemma {:induction false} RecentTwice(times: seq<int>, a: int, b: int)
    requires a <= b
    ensures Recent(Recent(times, a), b) == Recent(times, b)
  {
    if times != [] {
      var init, last := times[..|times| - 1], times[|times| - 1];
      RecentTwice(init, a, b);
      if last > a {
        assert (Recent(init, a) + [last])[..|Recent(init, a)|] == Recent(init, a);
      }
    }
  }

  lemma RecentSnoc(times: seq<int>, t: int, cutoff: int)
    ensures Recent(times + [t], cutoff) == Recent(times, cutoff) + if t > cutoff then [t] else []
  {
    assert (times + [t])[..|times|] == times;
  }

  lemma {:induction false} RecentSize(times: seq<int>, cutoff: int)
    ensures |Recent(times, cutoff)| <= |times|
  {
    if times != [] {
      RecentSize(times[..|times| - 1], cutoff);
    }
  }

  // ---------------------------------------------------------------------------------------
  // Runs
  // ---------------------------------------------------------------------------------------

  datatype Op = Allow(key: string, now: int) | Cleanup(now: int)

  function Step(c: Config, requests: Requests, op: Op): Requests {
    match op
    case Allow(key, now) => DoAllow(c, requests, key, now).0
    case Cleanup(now) => DoCleanup(c, requests, now)
  }

  function Run(c: Config, ops: seq<Op>): Requests {
    if ops == [] then map[] else Step(c, Run(c, ops[..|ops| - 1]), ops[|ops| - 1])
  }

  /** The clock does not go back from one operation to the next. */
  ghost predicate Monotone(ops: seq<Op>) {
    forall i, j :: 0 <= i < j < |ops| ==> ops[i].now <= ops[j].now
  }

  /** A clock reading is at most `lag` behind any reading that an earlier operation used. */
  ghost predicate Lags(ops: seq<Op>, lag: nat) {
    forall i, j :: 0 <= i < j < |ops| ==> ops[i].now <= ops[j].now + lag
  }

  /** No operation used a reading after `latest`. */
  ghost predicate Until(ops: seq<Op>, latest: int) {
    forall i :: 0 <= i < |ops| ==> ops[i].now <= latest
  }

  /** The times at which the limiter accepted requests of `key` during a run. */
  function Accepted(c: Config, ops: seq<Op>, key: string): seq<int> {
    if ops == [] then []
    else
      var before, op := ops[..|ops| - 1], ops[|ops| - 1];
      Accepted(c, before, key) +
      if op.Allow? && op.key == key && DoAllow(c, Run(c, before), key, op.now).1 then [op.now] else []
  }

  /** The specification's answer: it has the full acceptance history and nothing is ever cleaned. */
  predicate SpecAllows(c: Config, history: seq<int>, now: int) {
    |Recent(history, now - c.window)| < c.limit
  }

  /** Stored and full history agree on everything a later request can look at. */
  ghost predicate Agrees(c: Config, requests: Requests, key: string, history: seq<int>, now: int) {
    forall cutoff :: cutoff >= now - c.window ==> Recent(Stored(requests, key), cutoff) == Recent(history, cutoff)
  }

  lemma AgreesAllow(c: Config, requests: Requests, key: string, history: seq<int>, now: int, latest: int)
    requires Agrees(c, requests, key, history, latest) && now <= latest && DoAllow(c, requests, key, now).1
    ensures Agrees(c, DoAllow(c, requests, key, now).0, key, history + [now], latest)
  {
    var after := DoAllow(c, requests, key, now).0;
    var recent := Recent(Stored(requests, key), now - c.window);
    forall cutoff | cutoff >= latest - c.window
      ensures Recent(Stored(after, key), cutoff) == Recent(history + [now], cutoff)
    {
      RecentSnoc(recent, now, cutoff);
      RecentSnoc(history, now, cutoff);
      RecentTwice(Stored(requests, key), now - c.window, cutoff);
    }
  }

  lemma AgreesCleanup(c: Config, requests: Requests, key: string, history: seq<int>, now: int, latest: int)
    requires Agrees(c, requests, key, history, latest) && now <= latest
    ensures Agrees(c, DoCleanup(c, requests, now), key, history, latest)
  {
    var after := DoCleanup(c, requests, now);
    forall cutoff | cutoff >= latest - c.window ensures Recent(Stored(after, key), cutoff) == Recent(history, cutoff) {
      RecentTwice(Stored(requests, key), now - c.window, cutoff);
    }
  }

  /** In every run, whatever its clock does, the two agree on windows that start after all earlier ones. */
  lemma {:induction false} RunAgrees(c: Config, ops: seq<Op>, key: string, latest: int)
    requires Until(ops, latest)
    ensures Agrees(c, Run(c, ops), key, Accepted(c, ops, key), latest)
  {
    if ops != [] {
      var before, op := ops[..|ops| - 1], ops[|ops| - 1];
      RunAgrees(c, before, key, latest);
      if op.Cleanup? {
        assert Accepted(c, ops, key) == Accepted(c, before, key);
        AgreesCleanup(c, Run(c, before), key, Accepted(c, before, key), op.now, latest);
      } else if op.key == key && DoAllow(c, Run(c, before), key, op.now).1 {
        AgreesAllow(c, Run(c, before), key, Accepted(c, before, key), op.now, latest);
      } else {
        assert Stored(Run(c, ops), key) == Stored(Run(c, before), key);
        assert Accepted(c, ops, key) == Accepted(c, before, key);
      }
    }
  }

  /**
   Refinement: a request whose clock reading is not before any earlier one is answered exactly as the
   full-history specification answers it, so a cleanup at any time is invisible.
  */
  lemma AllowMatchesFullHistory(c: Config, ops: seq<Op>, key: string, now: int)
    requires Until(ops, now)
    ensures DoAllow(c, Run(c, ops), key, now).1 <==> SpecAllows(c, Accepted(c, ops, key), now)
  {
    RunAgrees(c, ops, key, now);
  }

  lemma StepWithinLimit(c: Config, requests: Requests, op: Op, key: string)
    requires |Stored(requests, key)| <= Max(c.limit, 0)
    ensures |Stored(Step(c, requests, op), key)| <= Max(c.limit, 0)
  {
    RecentSize(Stored(requests, key), op.now - c.window);
  }

  /** No stored list ever exceeds the limit, whatever the clock does. */
  lemma {:induction false} StoredWithinLimit(c: Config, ops: seq<Op>, key: string)
    ensures |Stored(Run(c, ops), key)| <= Max(c.limit, 0)
  {
    if ops != [] {
      StoredWithinLimit(c, ops[..|ops| - 1], key);
      StepWithinLimit(c, Run(c, ops[..|ops| - 1]), ops[|ops| - 1], key);
    }
  }

  // ---------------------------------------------------------------------------------------
  // The window bound
  // ---------------------------------------------------------------------------------------

  /** How many of the times lie in (lo, hi]. */
  function CountIn(times: seq<int>, lo: int, hi: int): nat {
    if times == [] then 0
    else
      CountIn(times[..|times| - 1], lo, hi) +
      if lo < times[|times| - 1] <= hi then 1 else 0
  }

  lemma {:induction false} CountInRecent(times: seq<int>, lo: int, hi: int, cutoff: int)
    requires cutoff <= lo
    ensures CountIn(times, lo, hi) <= |Recent(times, cutoff)|
  {
    if times != [] {
      CountInRecent(times[..|times| - 1], lo, hi, cutoff);
    }
  }

  lemma CountInSnoc(times: seq<int>, t: int, lo: int, hi: int)
    ensures CountIn(times + [t], lo, hi) == CountIn(times, lo, hi) + if lo < t <= hi then 1 else 0
  {
    assert (times + [t])[..|times|] == times;
  }

  lemma {:induction false} CountInShrinks(times: seq<int>, lo: int, later: int, hi: int)
    requires lo <= later
    ensures CountIn(times, later, hi) <= CountIn(times, lo, hi)
  {
    if times != [] {
      CountInShrinks(times[..|times| - 1], lo, later, hi);
    }
  }

  /** A request accepted at `now` finds fewer than `limit` earlier ones in an interval no store has lost. */
  lemma CountBeforeAccepted(c: Config, requests: Requests, key: string, history: seq<int>, now: int, latest: int, lo: int, hi: int)
    requires Agrees(c, requests, key, history, latest) && DoAllow(c, requests, key, now).1
    requires latest - c.window <= lo && now - c.window <= lo
    ensures CountIn(history, lo, hi) < c.limit
  {
    CountInRecent(history, lo, hi, lo);
    RecentTwice(Stored(requests, key), now - c.window, lo);
    RecentSize(Recent(Stored(requests, key), now - c.window), lo);
  }

  lemma AcceptedKeepsBound(c: Config, requests: Requests, key: string, history: seq<int>, now: int, lag: nat, x: int)
    requires Agrees(c, requests, key, history, now + lag) && DoAllow(c, requests, key, now).1
    requires CountIn(history, x - c.window + lag, x) <= Max(c.limit, 0)
    ensures CountIn(history + [now], x - c.window + lag, x) <= Max(c.limit, 0)
  {
    var lo := x - c.window + lag;
    CountInSnoc(history, now, lo, x);
    if lo < now <= x {
      CountBeforeAccepted(c, requests, key, history, now, now + lag, lo, x);
    }
  }

  /**
   What a lagging clock costs: when readings lag by at most `lag`, at most max(limit, 0) requests are
   accepted in every interval that is shorter than the window by `lag`.
  */
  lemma {:induction false} LagBound(c: Config, ops: seq<Op>, lag: nat, key: string, x: int)
    requires Lags(ops, lag)
    ensures CountIn(Accepted(c, ops, key), x - c.window + lag, x) <= Max(c.limit, 0)
  {
    if ops != [] {
      var before, op := ops[..|ops| - 1], ops[|ops| - 1];
      LagBound(c, before, lag, key, x);
      if op.Allow? && op.key == key && DoAllow(c, Run(c, before), key, op.now).1 {
        RunAgrees(c, before, key, op.now + lag);
        AcceptedKeepsBound(c, Run(c, before), key, Accepted(c, before, key), op.now, lag, x);
      } else {
        assert Accepted(c, ops, key) == Accepted(c, before, key);
      }
    }
  }

  /**
   The window bound: for every key, every run of requests and cleanups with a nondecreasing clock,
   and every instant x, at most max(limit, 0) requests are accepted in (x - window, x].
  */
  lemma WindowBound(c: Config, ops: seq<Op>, key: string, x: int)
    requires Monotone(ops)
    ensures CountIn(Accepted(c, ops, key), x - c.window, x) <= Max(c.limit, 0)
  {
    LagBound(c, ops, 0, key, x);
  }

  /** Filtering keeps exactly the times after the cutoff, when none is later than `now`. */
  lemma {:induction false} RecentCounts(times: seq<int>, cutoff: int, now: int)
    requires forall i :: 0 <= i < |times| ==> times[i] <= now
    ensures |Recent(times, cutoff)| == CountIn(times, cutoff, now)
  {
    if times != [] {
      RecentCounts(times[..|times| - 1], cutoff, now);
    }
  }

  lemma {:induction false} AcceptedUntil(c: Config, ops: seq<Op>, key: string, now: int)
    requires Until(ops, now)
    ensures forall i :: 0 <= i < |Accepted(c, ops, key)| ==> Accepted(c, ops, key)[i] <= now
  {
    if ops != [] {
      AcceptedUntil(c, ops[..|ops| - 1], key, now);
    }
  }

  lemma SpecCounts(c: Config, history: seq<int>, now: int)
    requires forall i :: 0 <= i < |history| ==> history[i] <= now
    ensures SpecAllows(c, history, now) <==> CountIn(history, now - c.window, now) < c.limit
  {
    RecentCounts(history, now - c.window, now);
  }

  /** A request that is not before any earlier one is accepted if and only if fewer than `limit` were accepted in its window. */
  lemma AllowExactly(c: Config, ops: seq<Op>, key: string, now: int)
    requires Until(ops, now)
    ensures DoAllow(c, Run(c, ops), key, now).1 <==> CountIn(Accepted(c, ops, key), now - c.window, now) < c.limit
  {
    AllowMatchesFullHistory(c, ops, key, now);
    AcceptedUntil(c, ops, key, now);
    SpecCounts(c, Accepted(c, ops, key), now);
  }

  lemma CleanupOfKey(c: Config, requests: Requests, key: string, now: int)
    ensures var recent := Recent(Stored(requests, key), now - c.window);
            && (key in DoCleanup(c, requests, now) <==> recent != [])
            && (key in DoCleanup(c, requests, now) ==> DoCleanup(c, requests, now)[key] == recent)
  {
  }

  lemma CleanupAgrees(c: Config, requests: Requests, key: string, history: seq<int>, now: int)
    requires Agrees(c, requests, key, history, now) && forall i :: 0 <= i < |history| ==> history[i] <= now
    ensures CleanupKeeps(c, DoCleanup(c, requests, now), key, history, now)
  {
    RecentCounts(history, now - c.window, now);
    RecentAfter(Stored(requests, key), now - c.window);
    CleanupOfKey(c, requests, key, now);
  }

  /** A key is left exactly with a time of its history in the window, and then with as many, all in the window. */
  ghost predicate CleanupKeeps(c: Config, left: Requests, key: string, history: seq<int>, now: int) {
    var recent := CountIn(history, now - c.window, now);
    && (key in left <==> recent > 0)
    && (key in left ==> |left[key]| == recent && forall i :: 0 <= i < |left[key]| ==> left[key][i] > now - c.window)
  }

  /** What a cleanup leaves: exactly the keys with an accepted request in the window, each with those requests only. */
  lemma CleanupExactly(c: Config, ops: seq<Op>, key: string, now: int)
    requires Until(ops, now)
    ensures CleanupKeeps(c, DoCleanup(c, Run(c, ops), now), key, Accepted(c, ops, key), now)
  {
    RunAgrees(c, ops, key, now);
    AcceptedUntil(c, ops, key, now);
    CleanupAgrees(c, Run(c, ops), key, Accepted(c, ops, key), now);
  }

  lemma {:induction false} RecentAfter(times: seq<int>, cutoff: int)
    ensures forall i :: 0 <= i < |Recent(times, cutoff)| ==> Recent(times, cutoff)[i] > cutoff
  {
    if times != [] {
      RecentAfter(times[..|times| - 1], cutoff);
    }
  }

  // ---------------------------------------------------------------------------------------
  // How much a lagging clock costs, exactly
  // ---------------------------------------------------------------------------------------

  /** The limit is kept in the interval that ends at `x` and is shorter than the window by `short`. */
  predicate WithinLimit(c: Config, ops: seq<Op>, key: string, short: int, x: int) {
    CountIn(Accepted(c, ops, key), x - c.window + short, x) <= Max(c.limit, 0)
  }

  /** The limit is kept in all such intervals of all runs whose clock lags at most `lag`. */
  ghost predicate Bounded(c: Config, lag: nat, short: int) {
    forall ops, key, x :: Lags(ops, lag) ==> WithinLimit(c, ops, key, short, x)
  }

  lemma RunSnoc(c: Config, ops: seq<Op>, op: Op, key: string)
    ensures Run(c, ops + [op]) == Step(c, Run(c, ops), op)
    ensures Accepted(c, ops + [op], key) == Accepted(c, ops, key) +
              if op.Allow? && op.key == key && DoAllow(c, Run(c, ops), key, op.now).1 then [op.now] else []
  {
    assert (ops + [op])[..|ops|] == ops;
  }

  ghost predicate AllAtZero(ops: seq<Op>) {
    forall i :: 0 <= i < |ops| ==> ops[i].now == 0
  }

  /** `n` times, all of them 0. */
  ghost predicate Zeros(times: seq<int>, n: nat) {
    |times| == n && forall i :: 0 <= i < n ==> times[i] == 0
  }

  lemma {:induction false} RecentZeros(times: seq<int>, n: nat, cutoff: int)
    requires Zeros(times, n)
    ensures Recent(times, cutoff) == if cutoff < 0 then times else []
  {
    if n > 0 {
      RecentZeros(times[..n - 1], n - 1, cutoff);
      assert times[..n - 1] + [0] == times;
    }
  }

  lemma {:induction false} CountInZeros(times: seq<int>, n: nat, lo: int, hi: int)
    requires Zeros(times, n) && lo < 0 <= hi
    ensures CountIn(times, lo, hi) == n
  {
    if n > 0 {
      CountInZeros(times[..n - 1], n - 1, lo, hi);
    }
  }

  lemma NothingExpired(c: Config, requests: Requests, key: string, times: seq<int>, n: nat)
    requires Stored(requests, key) == times && Zeros(times, n) && n < c.limit && 0 < c.window
    ensures DoAllow(c, requests, key, 0) == (requests[key := times + [0]], true)
  {
    RecentZeros(times, n, 0 - c.window);
  }

  lemma BurstGrows(c: Config, ops: seq<Op>, times: seq<int>, key: string)
    requires Accepted(c, ops, key) == times == Stored(Run(c, ops), key)
    requires DoAllow(c, Run(c, ops), key, 0) == (Run(c, ops)[key := times + [0]], true)
    ensures Accepted(c, ops + [Allow(key, 0)], key) == times + [0] == Stored(Run(c, ops + [Allow(key, 0)]), key)
  {
    RunSnoc(c, ops, Allow(key, 0), key);
  }

  /** A burst of requests at the instant 0, up to the limit, is accepted and stored. */
  lemma {:induction false} Burst(c: Config, n: nat, key: string) returns (ops: seq<Op>, times: seq<int>)
    requires n <= c.limit && 0 < c.window
    ensures AllAtZero(ops) && Zeros(times, n) && Accepted(c, ops, key) == times == Stored(Run(c, ops), key)
  {
    if n == 0 {
      return [], [];
    }
    ops, times := Burst(c, n - 1, key);
    NothingExpired(c, Run(c, ops), key, times, n - 1);
    BurstGrows(c, ops, times, key);
    ops, times := ops + [Allow(key, 0)], times + [0];
  }

  /** With an empty window nothing ever counts against a request. */
  lemma EmptyWindowStep(c: Config, requests: Requests, key: string)
    requires 0 < c.limit && c.window <= 0 && Recent(Stored(requests, key), -c.window) == []
    ensures DoAllow(c, requests, key, 0) == (requests[key := [0]], true)
    ensures Recent(Stored(requests[key := [0]], key), -c.window) == []
  {
    RecentSnoc([], 0, -c.window);
    assert [] + [0] == [0];
  }

  /** Then a burst of any size is accepted. */
  lemma {:induction false} UnlimitedBurst(c: Config, n: nat, key: string) returns (ops: seq<Op>, times: seq<int>)
    requires 0 < c.limit && c.window <= 0
    ensures AllAtZero(ops) && Zeros(times, n) && Accepted(c, ops, key) == times
    ensures Recent(Stored(Run(c, ops), key), -c.window) == []
  {
    if n == 0 {
      return [], [];
    }
    ops, times := UnlimitedBurst(c, n - 1, key);
    EmptyWindowStep(c, Run(c, ops), key);
    RunSnoc(c, ops, Allow(key, 0), key);
    ops, times := ops + [Allow(key, 0)], times + [0];
  }

  lemma CleanupEmpties(c: Config, requests: Requests, key: string, now: int)
    requires Recent(Stored(requests, key), now - c.window) == []
    ensures Stored(DoCleanup(c, requests, now), key) == []
  {
  }

  /** The run that lags: a burst, a cleanup that drops it, and a request whose reading may be older than the cleanup's. */
  lemma LaggingRun(c: Config, key: string, now: int, lag: nat) returns (ops: seq<Op>, times: seq<int>)
    requires 0 < c.limit && 0 < c.window <= now + lag && 0 <= now
    ensures Lags(ops, lag) && Zeros(times, c.limit) && Accepted(c, ops, key) == times + [now]
  {
    ops, times := Burst(c, c.limit, key);
    RecentZeros(times, c.limit, 0);
    RunSnoc(c, ops, Cleanup(c.window), key);
    CleanupEmpties(c, Run(c, ops), key, c.window);
    RunSnoc(c, ops + [Cleanup(c.window)], Allow(key, now), key);
    ops := ops + [Cleanup(c.window)] + [Allow(key, now)];
  }

  lemma Exceeds(c: Config, ops: seq<Op>, key: string, times: seq<int>, short: int, x: int)
    requires Accepted(c, ops, key) == times && 0 < c.limit && CountIn(times, x - c.window + short, x) == c.limit + 1
    ensures !WithinLimit(c, ops, key, short, x)
  {
  }

  /** An interval that is not short enough can hold one request too many. */
  lemma TooLongBreaks(c: Config, lag: nat, short: int) returns (ops: seq<Op>, key: string, x: int)
    requires 0 < c.limit && short < lag && short < c.window
    ensures Lags(ops, lag) && !WithinLimit(c, ops, key, short, x)
  {
    var times;
    key, x := "k", if c.window <= 0 then 0 else c.window - short - 1;
    if c.window <= 0 {
      ops, times := UnlimitedBurst(c, c.limit + 1, key);
      CountInZeros(times, c.limit + 1, x - c.window + short, x);
    } else {
      ops, times := LaggingRun(c, key, x, lag);
      CountInZeros(times, c.limit, x - c.window + short, x);
      CountInSnoc(times, x, x - c.window + short, x);
      times := times + [x];
    }
    Exceeds(c, ops, key, times, short, x);
  }

  lemma {:induction false} NothingInEmptyInterval(times: seq<int>, lo: int, hi: int)
    requires hi <= lo
    ensures CountIn(times, lo, hi) == 0
  {
    if times != [] {
      NothingInEmptyInterval(times[..|times| - 1], lo, hi);
    }
  }

  lemma {:induction false} NothingAcceptedWithoutLimit(c: Config, ops: seq<Op>, key: string)
    requires c.limit <= 0
    ensures Accepted(c, ops, key) == []
  {
    if ops != [] {
      NothingAcceptedWithoutLimit(c, ops[..|ops| - 1], key);
    }
  }

  /**
   The limiter reads the clock before it takes its lock, so readings can lag. For every configuration
   and every lag: intervals shorter than the window by `short` respect the limit in all runs if and
   only if `short` is at least the lag, or the interval is empty, or nothing is ever accepted. For
   whole windows, `short` is 0: the bound holds exactly when no reading lags.
  */
  lemma BoundExactly(c: Config, lag: nat, short: int)
    ensures Bounded(c, lag, short) <==> short >= lag || short >= c.window || c.limit <= 0
  {
    if short >= lag || short >= c.window || c.limit <= 0 {
      forall ops, key, x | Lags(ops, lag) ensures WithinLimit(c, ops, key, short, x) {
        ShortEnough(c, ops, lag, key, short, x);
      }
    } else {
      var ops, key, x := TooLongBreaks(c, lag, short);
      assert Lags(ops, lag) && !WithinLimit(c, ops, key, short, x);
    }
  }

  /** With any limit and window worth having, a lag of any size lets one request too many into some whole window. */
  lemma StaleClockBreaksBound(c: Config, lag: nat) returns (ops: seq<Op>, key: string, x: int)
    requires 0 < c.limit && 0 < c.window && 0 < lag
    ensures Lags(ops, lag) && CountIn(Accepted(c, ops, key), x - c.window, x) > Max(c.limit, 0)
  {
    ops, key, x := TooLongBreaks(c, lag, 0);
  }

  lemma ShortEnough(c: Config, ops: seq<Op>, lag: nat, key: string, short: int, x: int)
    requires Lags(ops, lag) && (short >= lag || short >= c.window || c.limit <= 0)
    ensures WithinLimit(c, ops, key, short, x)
  {
    if c.limit <= 0 {
      NothingAcceptedWithoutLimit(c, ops, key);
    } else if short >= c.window {
      NothingInEmptyInterval(Accepted(c, ops, key), x - c.window + short, x);
    } else {
      LagBound(c, ops, lag, key, x);
      CountInShrinks(Accepted(c, ops, key), x - c.window + lag, x - c.window + short, x);
    }
  }

  // ---------------------------------------------------------------------------------------
  // The limiter itself
  // ---------------------------------------------------------------------------------------

  method FilterRecent(times: seq<int>, cutoff: int) returns (recent: seq<int>)
    ensures recent == Recent(times, cutoff)
  {
    recent := [];
    for i := 0 to |times|
      invariant recent == Recent(times[..i], cutoff)
    {
      assert times[..i + 1][..i] == times[..i];
      if times[i] > cutoff {
        recent := recent + [times[i]];
      }
    }
    assert times[..|times|] == times;
  }

  class Limiter {
    var requests: Requests
    const config: Config

    constructor (limit: int, window: int)
      ensures requests == map[] && config == Config(limit, window)
    {
      requests, config := map[], Config(limit, window);
    }

    method AllowRequest(key: string, now: int) returns (ok: bool)
      modifies this
      ensures (requests, ok) == DoAllow(config, old(requests), key, now)
    {
      var windowStart := now - config.window;
      var times := if key in requests then requests[key] else [];
      var recent := FilterRecent(times, windowStart);
      if |recent| >= config.limit {
        return false;
      }
      requests := requests[key := recent + [now]];
      return true;
    }

    /** One tick of the cleaner: every key, in whatever order the map yields them. */
    method CleanupTick(now: int)
      modifies this
      ensures requests == DoCleanup(config, old(requests), now)
    {
      var windowStart := now - config.window;
      ghost var target := DoCleanup(config, requests, now);
      var todo := requests.Keys;
      while todo != {}
        invariant todo <= old(requests).Keys
        invariant forall key :: key in requests <==> key in todo || key in target
        invariant forall key :: key in todo ==> requests[key] == old(requests)[key]
        invariant forall key :: key in requests && key !in todo ==> requests[key] == target[key]
        decreases todo
      {
        var key :| key in todo;
        var recent := FilterRecent(requests[key], windowStart);
        if |recent| == 0 {
          requests := requests - {key};
        } else {
          requests := requests[key := recent];
        }
        todo := todo - {key};
      }
    }
  }
}
