/** The token bucket of `RateLimitingService.allowRequest`, over whole runs and exact reals. */
module RateLimiter {

  datatype Bucket = Bucket(tokens: real, lastRefill: real)

  function Min(a: real, b: real): real { if a <= b then a else b }

  function Max(a: real, b: real): real { if a >= b then a else b }

  function Rate(capacity: real): real { capacity / 60.0 }

  /** What a bucket of this capacity earns over some seconds. */
  function Earned(capacity: real, seconds: real): real { seconds * Rate(capacity) }

  /** Tokens at hand when a request arrives, after the refill. */
  function Refilled(capacity: real, b: Bucket, now: real): real {
    Min(capacity, b.tokens + Earned(capacity, Max(0.0, now - b.lastRefill)))
  }

  function AllowRequest(capacity: real, b: Bucket, now: real): (bool, Bucket) {
    var newTokens := Refilled(capacity, b, now);
    if newTokens >= 1.0 then (true, Bucket(newTokens - 1.0, now)) else (false, Bucket(newTokens, now))
  }

  // ---------- runs ----------

  ghost predicate Chronological(times: seq<real>) {
    forall i, j :: 0 <= i < j < |times| ==> times[i] <= times[j]
  }

  /** The bucket after the first k requests. */
  function After(capacity: real, b: Bucket, times: seq<real>, k: nat): Bucket
    requires k <= |times|
  {
    if k == 0 then b else AllowRequest(capacity, After(capacity, b, times, k - 1), times[k - 1]).1
  }

  /** The decision on request k. */
  predicate Allowed(capacity: real, b: Bucket, times: seq<real>, k: nat)
    requires k < |times|
  {
    AllowRequest(capacity, After(capacity, b, times, k), times[k]).0
  }

  /** How many of the requests i..j are allowed. */
  function CountAllowed(capacity: real, b: Bucket, times: seq<real>, i: nat, j: nat): nat
    requires i <= j <= |times|
    decreases j
  {
    if i == j then 0
    else CountAllowed(capacity, b, times, i, j - 1) + if Allowed(capacity, b, times, j - 1) then 1 else 0
  }

  /** A bucket between empty and full; nothing is asked of the clock. */
  ghost predicate InRange(capacity: real, b: Bucket) { 0.0 <= b.tokens <= capacity }

  // ---------- the clock the bucket goes by ----------

  /** The time that counts between requests i and k: steps back count as standing still. */
  function Elapsed(times: seq<real>, i: nat, k: nat): (r: real)
    requires i <= k < |times|
    ensures r >= 0.0
    decreases k
  {
    if i == k then 0.0 else Elapsed(times, i, k - 1) + Max(0.0, times[k] - times[k - 1])
  }

  lemma {:induction false} ElapsedSplits(times: seq<real>, i: nat, j: nat, k: nat)
    requires i <= j <= k < |times|
    ensures Elapsed(times, i, k) == Elapsed(times, i, j) + Elapsed(times, j, k)
  {
    if j < k { ElapsedSplits(times, i, j, k - 1); }
  }

  lemma {:induction false} ElapsedWhenChronological(times: seq<real>, i: nat, k: nat)
    requires i <= k < |times| && Chronological(times)
    ensures Elapsed(times, i, k) == times[k] - times[i]
  {
    if i < k { ElapsedWhenChronological(times, i, k - 1); }
  }

  /** The time that counts is wall-clock time on every stretch exactly when the clock never steps back. */
  lemma ElapsedIsWallTimeIff(times: seq<real>)
    ensures (forall i: nat, k: nat :: i <= k < |times| ==> Elapsed(times, i, k) == times[k] - times[i]) <==> Chronological(times)
  {
    if Chronological(times) {
      forall i: nat, k: nat | i <= k < |times| ensures Elapsed(times, i, k) == times[k] - times[i] {
        ElapsedWhenChronological(times, i, k);
      }
    } else {
      var i, k :| 0 <= i < k < |times| && times[i] > times[k];
      assert Elapsed(times, i, k) != times[k] - times[i];
    }
  }

  /** The effective clock: the last refill plus the steps forward since. */
  function EffectiveTime(start: real, times: seq<real>, k: nat): real
    requires k < |times|
  {
    start + Max(0.0, times[0] - start) + Elapsed(times, 0, k)
  }

  function EffectiveClock(start: real, times: seq<real>): seq<real> {
    seq(|times|, k requires 0 <= k < |times| => EffectiveTime(start, times, k))
  }

  lemma EffectiveStretch(start: real, times: seq<real>, i: nat, k: nat)
    requires i <= k < |times|
    ensures EffectiveTime(start, times, k) - EffectiveTime(start, times, i) == Elapsed(times, i, k)
  {
    ElapsedSplits(times, 0, i, k);
  }

  lemma EffectiveClockForward(start: real, times: seq<real>)
    ensures Chronological(EffectiveClock(start, times))
    ensures times != [] ==> start <= EffectiveClock(start, times)[0]
  {
    forall i, k | 0 <= i < k < |times| ensures EffectiveTime(start, times, i) <= EffectiveTime(start, times, k) {
      EffectiveStretch(start, times, i, k);
    }
  }

  lemma EarnedNonnegative(capacity: real, seconds: real)
    requires capacity >= 0.0 && seconds >= 0.0
    ensures Earned(capacity, seconds) >= 0.0
  {
    assert Rate(capacity) >= 0.0;
  }

  lemma EarnedAdds(capacity: real, x: real, y: real)
    ensures Earned(capacity, x) + Earned(capacity, y) == Earned(capacity, x + y)
  {}

  lemma RefillTime(capacity: real, b: Bucket, times: seq<real>, k: nat)
    requires k < |times|
    ensures After(capacity, b, times, k).lastRefill == if k == 0 then b.lastRefill else times[k - 1]
  {}

  /** One request: the bucket stays in range and loses a token exactly when it allows the request. */
  lemma StepFacts(capacity: real, b: Bucket, now: real, elapsed: real)
    requires InRange(capacity, b) && elapsed == Max(0.0, now - b.lastRefill)
    ensures var r := Refilled(capacity, b, now);
            var (allowed, b') := AllowRequest(capacity, b, now);
            0.0 <= r <= capacity && r == Min(capacity, b.tokens + Earned(capacity, elapsed)) &&
            b'.tokens == r - (if allowed then 1.0 else 0.0) >= 0.0
  {
    EarnedNonnegative(capacity, elapsed);
  }

  /** Tokens stay between 0 and the capacity, whatever the clock does. */
  lemma {:induction false} TokensInRange(capacity: real, b: Bucket, times: seq<real>, k: nat)
    requires k <= |times| && InRange(capacity, b)
    ensures InRange(capacity, After(capacity, b, times, k))
  {
    if k > 0 {
      var before := After(capacity, b, times, k - 1);
      TokensInRange(capacity, b, times, k - 1);
      StepFacts(capacity, before, times[k - 1], Max(0.0, times[k - 1] - before.lastRefill));
    }
  }

  /** Where two clocks show the same step forward, equal buckets decide and stay alike. */
  lemma SameStep(capacity: real, b: Bucket, c: Bucket, now: real, shown: real)
    requires b.tokens == c.tokens && Max(0.0, now - b.lastRefill) == Max(0.0, shown - c.lastRefill)
    ensures AllowRequest(capacity, b, now).0 == AllowRequest(capacity, c, shown).0
    ensures AllowRequest(capacity, b, now).1.tokens == AllowRequest(capacity, c, shown).1.tokens
  {
    assert Refilled(capacity, b, now) == Refilled(capacity, c, shown);
  }

  lemma SameForward(b: Bucket, times: seq<real>, clock: seq<real>, k: nat, last: real, shown: real)
    requires clock == EffectiveClock(b.lastRefill, times) && k < |times|
    requires last == (if k == 0 then b.lastRefill else times[k - 1]) && shown == (if k == 0 then b.lastRefill else clock[k - 1])
    ensures Max(0.0, times[k] - last) == Max(0.0, clock[k] - shown)
  {
    if k > 0 { EffectiveStretch(b.lastRefill, times, k - 1, k); }
  }

  /** For any clock at all, tokens and decisions are those of the run on the effective clock. */
  lemma {:induction false} SameOnEffectiveClock(capacity: real, b: Bucket, times: seq<real>, clock: seq<real>, k: nat)
    requires k <= |times| && clock == EffectiveClock(b.lastRefill, times)
    ensures After(capacity, b, times, k).tokens == After(capacity, b, clock, k).tokens
    ensures k < |times| ==> Allowed(capacity, b, times, k) == Allowed(capacity, b, clock, k)
  {
    if k > 0 {
      SameOnEffectiveClock(capacity, b, times, clock, k - 1);
      SameAfterOne(capacity, b, times, clock, k - 1);
    }
    if k < |times| { SameAfterOne(capacity, b, times, clock, k); }
  }

  lemma SameAfterOne(capacity: real, b: Bucket, times: seq<real>, clock: seq<real>, k: nat)
    requires k < |times| && clock == EffectiveClock(b.lastRefill, times)
    requires After(capacity, b, times, k).tokens == After(capacity, b, clock, k).tokens
    ensures Allowed(capacity, b, times, k) == Allowed(capacity, b, clock, k)
    ensures After(capacity, b, times, k + 1).tokens == After(capacity, b, clock, k + 1).tokens
  {
    var before, there := After(capacity, b, times, k), After(capacity, b, clock, k);
    RefillTime(capacity, b, times, k);
    RefillTime(capacity, b, clock, k);
    SameForward(b, times, clock, k, before.lastRefill, there.lastRefill);
    SameStep(capacity, before, there, times[k], clock[k]);
  }

  /** The limit that a full bucket at request i puts on the tokens at request k. */
  ghost function Limit(capacity: real, b: Bucket, times: seq<real>, i: nat, k: nat): real
    requires i <= k < |times|
  {
    capacity + Earned(capacity, Elapsed(times, i, k)) - CountAllowed(capacity, b, times, i, k) as real
  }

  ghost function AtHand(capacity: real, b: Bucket, times: seq<real>, k: nat): real
    requires k < |times|
  {
    Refilled(capacity, After(capacity, b, times, k), times[k])
  }

  /** From one request to the next, tokens at hand and limits change alike, up to the cap. */
  lemma NextRequest(capacity: real, b: Bucket, times: seq<real>, i: nat, k: nat)
    requires i < k < |times| && InRange(capacity, b)
    ensures var change := Limit(capacity, b, times, i, k) - Limit(capacity, b, times, i, k - 1);
            AtHand(capacity, b, times, k) == Min(capacity, AtHand(capacity, b, times, k - 1) + change)
  {
    RefillTime(capacity, b, times, k);
    EarnedAdds(capacity, Max(0.0, times[k] - times[k - 1]), Elapsed(times, i, k - 1));
  }

  /** Tokens at hand at request k: no more than any earlier full bucket would leave. */
  lemma {:induction false} TokensFromFull(capacity: real, b: Bucket, times: seq<real>, i: nat, k: nat)
    requires i <= k < |times| && InRange(capacity, b)
    ensures AtHand(capacity, b, times, k) <= Limit(capacity, b, times, i, k)
  {
    if i < k {
      TokensFromFull(capacity, b, times, i, k - 1);
      NextRequest(capacity, b, times, i, k);
    } else {
      assert Earned(capacity, 0.0) == 0.0;
    }
  }

  lemma BoundByEarned(capacity: real, b: Bucket, times: seq<real>, i: nat, j: nat, earned: real)
    requires i < j <= |times| && InRange(capacity, b) && earned == Earned(capacity, Elapsed(times, i, j - 1))
    ensures CountAllowed(capacity, b, times, i, j) as real <= capacity + earned
  {
    var before := After(capacity, b, times, j - 1);
    TokensFromFull(capacity, b, times, i, j - 1);
    TokensInRange(capacity, b, times, j - 1);
    StepFacts(capacity, before, times[j - 1], Max(0.0, times[j - 1] - before.lastRefill));
  }

  lemma EarnedMeans(capacity: real, seconds: real, earned: real)
    requires earned == Earned(capacity, seconds)
    ensures earned == seconds * (capacity / 60.0)
  {}

  /** The rate bound, for any clock: of the consecutive requests i..j, at most `capacity` plus a sixtieth of it for each
      second that counts between them are allowed. */
  lemma RateBound(capacity: real, b: Bucket, times: seq<real>, i: nat, j: nat, seconds: real)
    requires i < j <= |times| && InRange(capacity, b) && seconds == Elapsed(times, i, j - 1)
    ensures CountAllowed(capacity, b, times, i, j) as real <= capacity + seconds * (capacity / 60.0)
  {
    BoundByEarned(capacity, b, times, i, j, Earned(capacity, seconds));
    EarnedMeans(capacity, seconds, Earned(capacity, seconds));
  }

  lemma WindowByEarned(capacity: real, b: Bucket, times: seq<real>, i: nat, j: nat, s: real, t: real, earned: real)
    requires i <= j <= |times| && InRange(capacity, b) && Chronological(times) && s <= t && earned == Earned(capacity, t - s)
    requires forall k :: 0 <= k < |times| ==> (s <= times[k] <= t <==> i <= k < j)
    ensures CountAllowed(capacity, b, times, i, j) as real <= capacity + earned
  {
    EarnedNonnegative(capacity, t - s);
    if i < j {
      ElapsedWhenChronological(times, i, j - 1);
      var span := times[j - 1] - times[i];
      BoundByEarned(capacity, b, times, i, j, Earned(capacity, span));
      assert s <= times[i] && times[j - 1] <= t;
      EarnedNonnegative(capacity, t - s - span);
      EarnedAdds(capacity, span, t - s - span);
    }
  }

  /** When the clock never steps back: within any window of time [s, t] at most
      capacity + (t - s) * capacity / 60 requests are allowed. */
  lemma WindowBound(capacity: real, b: Bucket, times: seq<real>, i: nat, j: nat, s: real, t: real, seconds: real)
    requires i <= j <= |times| && InRange(capacity, b) && Chronological(times) && s <= t && seconds == t - s
    requires forall k :: 0 <= k < |times| ==> (s <= times[k] <= t <==> i <= k < j)
    ensures CountAllowed(capacity, b, times, i, j) as real <= capacity + seconds * (capacity / 60.0)
  {
    WindowByEarned(capacity, b, times, i, j, s, t, Earned(capacity, seconds));
    EarnedMeans(capacity, seconds, Earned(capacity, seconds));
  }

  /** Starting full, the tokens at hand are exactly the tightest of those limits. */
  lemma {:induction false} TightWindow(capacity: real, b: Bucket, times: seq<real>, k: nat) returns (i: nat)
    requires k < |times| && InRange(capacity, b) && b.tokens == capacity
    ensures i <= k && AtHand(capacity, b, times, k) == Limit(capacity, b, times, i, k)
  {
    assert Earned(capacity, 0.0) == 0.0;
    i := k;
    if k == 0 {
      var elapsed := Max(0.0, times[0] - b.lastRefill);
      StepFacts(capacity, b, times[0], elapsed);
      EarnedNonnegative(capacity, elapsed);
    } else if AtHand(capacity, b, times, k) != capacity {
      i := TightWindow(capacity, b, times, k - 1);
      NextRequest(capacity, b, times, i, k);
    }
  }

  /** Allowing request k too would keep the rate bound over the requests i..k. */
  ghost predicate KeepsRate(capacity: real, b: Bucket, times: seq<real>, i: nat, k: nat)
    requires i <= k < |times|
  {
    CountAllowed(capacity, b, times, i, k) as real + 1.0 <= capacity + Earned(capacity, Elapsed(times, i, k))
  }

  lemma KeepsRateMeans(capacity: real, b: Bucket, times: seq<real>, i: nat, k: nat, seconds: real)
    requires i <= k < |times| && seconds == Elapsed(times, i, k)
    ensures KeepsRate(capacity, b, times, i, k)
            <==> CountAllowed(capacity, b, times, i, k) as real + 1.0 <= capacity + seconds * (capacity / 60.0)
  {
    EarnedMeans(capacity, seconds, Earned(capacity, seconds));
  }

  lemma KeepsRateIffLimit(capacity: real, b: Bucket, times: seq<real>, i: nat, k: nat)
    requires i <= k < |times|
    ensures KeepsRate(capacity, b, times, i, k) <==> 1.0 <= Limit(capacity, b, times, i, k)
  {}

  /** The limiter is exact, for any clock: starting full, request k is allowed if and only if allowing it keeps
      the rate bound over every stretch that ends with it. */
  lemma AllowedIffWithinRate(capacity: real, b: Bucket, times: seq<real>, k: nat)
    requires k < |times| && InRange(capacity, b) && b.tokens == capacity
    ensures Allowed(capacity, b, times, k) <==> forall i: nat :: i <= k ==> KeepsRate(capacity, b, times, i, k)
  {
    var tight := TightWindow(capacity, b, times, k);
    KeepsRateIffLimit(capacity, b, times, tight, k);
    if Allowed(capacity, b, times, k) {
      forall i: nat | i <= k ensures KeepsRate(capacity, b, times, i, k) {
        TokensFromFull(capacity, b, times, i, k);
        KeepsRateIffLimit(capacity, b, times, i, k);
      }
    }
  }

  // ---------- denied requests cost nothing ----------

  /** Refilling in two steps is refilling once, when nothing is taken in between. */
  lemma RefillTwice(capacity: real, b: Bucket, u: real, w: real)
    requires 0.0 <= capacity && b.lastRefill <= u <= w
    ensures Refilled(capacity, Bucket(Refilled(capacity, b, u), u), w) == Refilled(capacity, b, w)
  {
    EarnedAdds(capacity, u - b.lastRefill, w - u);
    EarnedNonnegative(capacity, w - u);
  }

  /** Decisions of a whole run. */
  function Decisions(capacity: real, b: Bucket, times: seq<real>): (d: seq<bool>)
    ensures |d| == |times|
    decreases |times|
  {
    if times == [] then []
    else
      var (allowed, next) := AllowRequest(capacity, b, times[0]);
      [allowed] + Decisions(capacity, next, times[1..])
  }

  /** A denied request changes no later decision. */
  lemma DeniedIsFree(capacity: real, b: Bucket, u: real, later: seq<real>)
    requires 0.0 <= capacity && b.lastRefill <= u && (later != [] ==> u <= later[0])
    requires !AllowRequest(capacity, b, u).0
    ensures Decisions(capacity, AllowRequest(capacity, b, u).1, later) == Decisions(capacity, b, later)
  {
    if later != [] {
      RefillTwice(capacity, b, u, later[0]);
    }
  }

  /** The bucket at the end of a run. */
  function End(capacity: real, b: Bucket, times: seq<real>): Bucket
    decreases |times|
  {
    if times == [] then b else End(capacity, AllowRequest(capacity, b, times[0]).1, times[1..])
  }

  lemma {:induction false} EndTime(capacity: real, b: Bucket, times: seq<real>)
    ensures End(capacity, b, times).lastRefill == if times == [] then b.lastRefill else times[|times| - 1]
    decreases |times|
  {
    if times != [] { EndTime(capacity, AllowRequest(capacity, b, times[0]).1, times[1..]); }
  }

  lemma {:induction false} DecisionsJoin(capacity: real, b: Bucket, before: seq<real>, later: seq<real>)
    ensures Decisions(capacity, b, before + later) == Decisions(capacity, b, before) + Decisions(capacity, End(capacity, b, before), later)
    decreases |before|
  {
    if before == [] {
      assert before + later == later;
    } else {
      assert (before + later)[0] == before[0] && (before + later)[1..] == before[1..] + later;
      DecisionsJoin(capacity, AllowRequest(capacity, b, before[0]).1, before[1..], later);
    }
  }

  lemma FirstDecision(capacity: real, b: Bucket, u: real, later: seq<real>)
    ensures var (allowed, next) := AllowRequest(capacity, b, u);
            Decisions(capacity, b, [u] + later) == [allowed] + Decisions(capacity, next, later)
  {
    assert ([u] + later)[1..] == later;
  }

  /** Inserting a denied request anywhere in a run leaves every other decision as it was, provided that it comes
      between its neighbours; elsewhere the clock may do anything. */
  lemma InsertDenied(capacity: real, b: Bucket, before: seq<real>, u: real, later: seq<real>)
    requires 0.0 <= capacity && (if before == [] then b.lastRefill else before[|before| - 1]) <= u && (later != [] ==> u <= later[0])
    requires !Decisions(capacity, b, before + [u] + later)[|before|]
    ensures var d := Decisions(capacity, b, before + [u] + later);
            Decisions(capacity, b, before + later) == d[..|before|] + d[|before| + 1..]
  {
    var there := End(capacity, b, before);
    assert before + [u] + later == before + ([u] + later);
    DecisionsJoin(capacity, b, before, [u] + later);
    DecisionsJoin(capacity, b, before, later);
    FirstDecision(capacity, there, u, later);
    EndTime(capacity, b, before);
    DeniedIsFree(capacity, there, u, later);
  }

  // ---------- the wall clock may not step back ----------

  /** A minute forward fills the bucket, so the request after it passes. */
  lemma MinuteRefills(capacity: real, b: Bucket, times: seq<real>, k: nat)
    requires 1.0 <= capacity && InRange(capacity, b) && 0 < k < |times| && times[k - 1] + 60.0 <= times[k]
    ensures Allowed(capacity, b, times, k)
  {
    var before, elapsed := After(capacity, b, times, k), times[k] - times[k - 1];
    TokensInRange(capacity, b, times, k);
    RefillTime(capacity, b, times, k);
    StepFacts(capacity, before, times[k], elapsed);
    assert Earned(capacity, 60.0) == capacity;
    EarnedAdds(capacity, 60.0, elapsed - 60.0);
    EarnedNonnegative(capacity, elapsed - 60.0);
  }

  /** Every second request comes a minute after the one before it, wherever the clock was set back to. */
  ghost predicate Pairs(times: seq<real>, n: nat) {
    2 * n <= |times| && forall k {:trigger times[k]} :: 0 <= k < 2 * n && k % 2 == 1 ==> times[k - 1] + 60.0 <= times[k]
  }

  lemma {:induction false} EverySecondPasses(capacity: real, b: Bucket, times: seq<real>, n: nat)
    requires 1.0 <= capacity && InRange(capacity, b) && Pairs(times, n)
    ensures CountAllowed(capacity, b, times, 0, 2 * n) >= n
  {
    if n > 0 {
      var k := 2 * n - 1;
      assert times[k - 1] + 60.0 <= times[k];
      EverySecondPasses(capacity, b, times, n - 1);
      MinuteRefills(capacity, b, times, k);
      assert CountAllowed(capacity, b, times, 0, k) >= CountAllowed(capacity, b, times, 0, k - 1);
    }
  }

  /** In wall-clock time there is no bound at all once the clock may step back: any number of requests can pass
      while it only ever shows 0 and 60 seconds. */
  lemma ClockMustNotStepBack(capacity: real, b: Bucket, n: nat) returns (times: seq<real>)
    requires 1.0 <= capacity && InRange(capacity, b)
    ensures |times| == 2 * n && forall k :: 0 <= k < |times| ==> times[k] == if k % 2 == 1 then 60.0 else 0.0
    ensures CountAllowed(capacity, b, times, 0, |times|) >= n
  {
    times := seq(2 * n, k => if k % 2 == 1 then 60.0 else 0.0);
    EverySecondPasses(capacity, b, times, n);
  }

  /** For one, three requests of a capacity of one pass while the clock shows a single minute, although that
      minute earns one token. */
  lemma ThreeInAMinute() returns (times: seq<real>)
    ensures times == [0.0, 60.0, 0.0, 60.0, 0.0, 60.0] && !Chronological(times)
    ensures CountAllowed(1.0, Bucket(1.0, 0.0), times, 0, |times|) as real > 1.0 + (times[5] - times[0]) / 60.0
  {
    times := ClockMustNotStepBack(1.0, Bucket(1.0, 0.0), 3);
    assert times[1] > times[2];
    assert Earned(1.0, 60.0) == 1.0;
  }
}
