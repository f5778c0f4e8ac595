/** The bounded per-tenant map of `checkRateLimit`. A JavaScript Map iterates in insertion order; the
    resolver deletes and re-inserts the asking tenant, and drops the first key when the map is full. */
module TokenMap {
  import opened RateLimiter

  const MAX_MEMORY_TOKENS: nat := 10000
  const FREE_CAPACITY: real := 60.0

  predicate NoRepeats(s: seq<string>) { forall i, j :: 0 <= i < j < |s| ==> s[i] != s[j] }

  /** Deleting a key. */
  function Without(s: seq<string>, t: string): (r: seq<string>)
    ensures |r| <= |s| && forall j :: 0 <= j < |r| ==> r[j] in s && r[j] != t
  {
    if s == [] then [] else if s[0] == t then Without(s[1..], t) else [s[0]] + Without(s[1..], t)
  }

  /** One request's effect on the key order; an empty oldest key is falsy and is not evicted. */
  function Touch(order: seq<string>, t: string, max: nat): seq<string> {
    if t in order then Without(order, t) + [t]
    else if |order| >= max && order != [] && order[0] != "" then order[1..] + [t]
    else order + [t]
  }

  function Keys(history: seq<string>, max: nat): seq<string> {
    if history == [] then [] else Touch(Keys(history[..|history| - 1], max), history[|history| - 1], max)
  }

  /** The tenants seen so far, ordered by last request. */
  function ByLastRequest(history: seq<string>): seq<string> {
    if history == [] then []
    else Without(ByLastRequest(history[..|history| - 1]), history[|history| - 1]) + [history[|history| - 1]]
  }

  function LastOf(s: seq<string>, n: nat): seq<string> { if |s| <= n then s else s[|s| - n..] }

  // ---------- deletion ----------

  lemma {:induction false} WithoutMembers(s: seq<string>, t: string)
    ensures forall x :: x in Without(s, t) <==> x in s && x != t
    ensures t !in s ==> Without(s, t) == s
  {
    if s != [] {
      WithoutMembers(s[1..], t);
      assert s == [s[0]] + s[1..];
    }
  }

  lemma {:induction false} WithoutNoRepeats(s: seq<string>, t: string)
    requires NoRepeats(s)
    ensures NoRepeats(Without(s, t))
  {
    if s != [] {
      WithoutNoRepeats(s[1..], t);
      var r := Without(s[1..], t);
      forall j | 0 <= j < |r| ensures r[j] != s[0] {
        var k :| 0 <= k < |s[1..]| && s[1..][k] == r[j];
      }
    }
  }

  lemma {:induction false} WithoutConcat(a: seq<string>, b: seq<string>, t: string)
    ensures Without(a + b, t) == Without(a, t) + Without(b, t)
  {
    if a == [] {
      assert a + b == b;
    } else {
      assert (a + b)[1..] == a[1..] + b;
      WithoutConcat(a[1..], b, t);
    }
  }

  lemma {:induction false} WithoutOnce(s: seq<string>, t: string)
    requires NoRepeats(s) && t in s
    ensures |Without(s, t)| == |s| - 1
  {
    if s[0] == t {
      WithoutMembers(s[1..], t);
    } else {
      WithoutOnce(s[1..], t);
    }
  }

  // ---------- the key order is the order of last requests ----------

  lemma {:induction false} ByLastRequestFacts(history: seq<string>)
    ensures NoRepeats(ByLastRequest(history)) && forall x :: x in ByLastRequest(history) <==> x in history
  {
    if history != [] {
      var front, t := history[..|history| - 1], history[|history| - 1];
      ByLastRequestFacts(front);
      WithoutMembers(ByLastRequest(front), t);
      WithoutNoRepeats(ByLastRequest(front), t);
      assert history == front + [t];
    }
  }

  lemma TouchRefreshes(p: seq<string>, order: seq<string>, t: string)
    requires NoRepeats(order) && t in order && t !in p
    ensures Without(p + order, t) + [t] == p + (Without(order, t) + [t]) && |Without(order, t)| == |order| - 1
  {
    WithoutConcat(p, order, t);
    WithoutMembers(p, t);
    WithoutOnce(order, t);
  }

  lemma TouchDropsOldest(p: seq<string>, order: seq<string>, t: string)
    requires t !in order && order != []
    ensures Without(p + order, t) + [t] == (Without(p, t) + [order[0]]) + (order[1..] + [t])
  {
    WithoutConcat(p, order, t);
    WithoutMembers(order, t);
    Regroup(Without(p, t), order, t);
  }

  lemma Regroup(a: seq<string>, order: seq<string>, t: string)
    requires order != []
    ensures (a + order) + [t] == (a + [order[0]]) + (order[1..] + [t])
  {}

  lemma LastOfConcat(p: seq<string>, s: seq<string>)
    ensures LastOf(p + s, |s|) == s
  {}

  lemma TouchFull(p: seq<string>, order: seq<string>, t: string, max: nat)
    requires |order| == max > 0 && NoRepeats(order) && order[0] != "" && !(t in p && t in order)
    ensures Touch(order, t, max) == LastOf(Without(p + order, t) + [t], max)
  {
    if t in order {
      TouchRefreshes(p, order, t);
      LastOfConcat(p, Without(order, t) + [t]);
    } else {
      TouchDropsOldest(p, order, t);
      LastOfConcat(Without(p, t) + [order[0]], order[1..] + [t]);
    }
  }

  lemma SplitRecent(recent: seq<string>, max: nat) returns (p: seq<string>, order: seq<string>)
    requires 0 < max <= |recent| && NoRepeats(recent) && "" !in recent
    ensures recent == p + order && order == LastOf(recent, max) && |order| == max && NoRepeats(order) && order[0] != ""
  {
    p, order := recent[..|recent| - max], recent[|recent| - max..];
    assert order[0] in recent;
  }

  /** Touching the most recent `max` tenants gives the most recent `max` tenants. */
  lemma TouchRecent(recent: seq<string>, t: string, max: nat)
    requires max > 0 && NoRepeats(recent) && "" !in recent
    ensures Touch(LastOf(recent, max), t, max) == LastOf(Without(recent, t) + [t], max)
  {
    if |recent| < max {
      WithoutMembers(recent, t);
    } else {
      var p, order := SplitRecent(recent, max);
      if t in p && t in order { RepeatedInBoth(p, order, t); }
      TouchFull(p, order, t, max);
    }
  }

  lemma RepeatedInBoth(p: seq<string>, q: seq<string>, t: string)
    requires t in p && t in q
    ensures !NoRepeats(p + q)
  {
    var i :| 0 <= i < |p| && p[i] == t;
    var j :| 0 <= j < |q| && q[j] == t;
    assert (p + q)[i] == (p + q)[|p| + j];
  }

  /** For non-empty tenant ids the map holds exactly the `max` most recently seen tenants, in order of
      last request; in particular it never exceeds `max`. */
  lemma {:induction false} KeysAreMostRecent(history: seq<string>, max: nat)
    requires max > 0 && "" !in history
    ensures Keys(history, max) == LastOf(ByLastRequest(history), max)
  {
    if history != [] {
      var front, t := history[..|history| - 1], history[|history| - 1];
      assert forall x :: x in front ==> x in history;
      KeysAreMostRecent(front, max);
      ByLastRequestFacts(front);
      TouchRecent(ByLastRequest(front), t, max);
    }
  }

  // ---------- who is dropped ----------

  /** The tenants that asked after the last request of t. */
  ghost function AskedSince(history: seq<string>, t: string): set<string> {
    if history == [] || history[|history| - 1] == t then {}
    else AskedSince(history[..|history| - 1], t) + {history[|history| - 1]}
  }

  lemma WithoutAround(p: seq<string>, t: string, q: seq<string>, x: string)
    requires x != t
    ensures Without(p + [t] + q, x) == Without(p, x) + [t] + Without(q, x)
  {
    WithoutConcat(p + [t], q, x);
    WithoutConcat(p, [t], x);
  }

  lemma FollowersAfterAnother(p: seq<string>, t: string, q: seq<string>, last: string)
    requires last != t && NoRepeats(p + [t] + q)
    ensures Without(p + [t] + q, last) + [last] == Without(p, last) + [t] + (Without(q, last) + [last])
    ensures |Without(q, last) + [last]| == if last in q then |q| else |q| + 1
    ensures forall x :: x in Without(q, last) + [last] <==> x in q || x == last
  {
    WithoutAround(p, t, q, last);
    WithoutMembers(q, last);
    if last in q {
      assert NoRepeats(q) by { assert forall k :: 0 <= k < |q| ==> q[k] == (p + [t] + q)[|p| + 1 + k]; }
      WithoutOnce(q, last);
    }
  }

  /** In the order of last requests, what follows t is exactly what asked since, without repeats. */
  lemma {:induction false} FollowersAskedSince(history: seq<string>, t: string) returns (p: seq<string>, q: seq<string>)
    requires t in history
    ensures ByLastRequest(history) == p + [t] + q
    ensures |AskedSince(history, t)| == |q| && forall x :: x in AskedSince(history, t) <==> x in q
  {
    var front, last := history[..|history| - 1], history[|history| - 1];
    if last == t {
      p, q := Without(ByLastRequest(front), t), [];
    } else {
      assert t in front by { assert history == front + [last]; }
      p, q := FollowersAskedSince(front, t);
      ByLastRequestFacts(front);
      FollowersAfterAnother(p, t, q, last);
      GrownSet(AskedSince(front, t), last);
      p, q := Without(p, last), Without(q, last) + [last];
    }
  }

  lemma GrownSet(s: set<string>, x: string)
    ensures |s + {x}| == if x in s then |s| else |s| + 1
  {
    if x in s { assert s + {x} == s; }
  }

  /** A tenant that has asked is still in the map if and only if fewer than `max` distinct other tenants
      have asked since its last request. */
  lemma KeptIffRecent(history: seq<string>, t: string, max: nat)
    requires max > 0 && "" !in history && t in history
    ensures t in Keys(history, max) <==> |AskedSince(history, t)| < max
    ensures t !in AskedSince(history, t)
  {
    KeysAreMostRecent(history, max);
    ByLastRequestFacts(history);
    var p, q := FollowersAskedSince(history, t);
    if t in q { RepeatedInBoth(p + [t], q, t); }
    if |q| < max {
      KeptSuffix(p, t, q, max);
    } else {
      DroppedSuffix(p + [t], q, max);
    }
  }

  lemma KeptSuffix(p: seq<string>, t: string, q: seq<string>, max: nat)
    requires |q| < max
    ensures t in LastOf(p + [t] + q, max)
  {
    var r := p + [t] + q;
    var kept := LastOf(r, max);
    assert kept[|kept| - |q| - 1] == r[|p|] == t;
  }

  lemma DroppedSuffix(p: seq<string>, q: seq<string>, max: nat)
    requires |q| >= max
    ensures LastOf(p + q, max) == LastOf(q, max)
    ensures forall x :: x in LastOf(q, max) ==> x in q
  {}

  lemma NeverOverfull(history: seq<string>, max: nat)
    requires max > 0 && "" !in history
    ensures |Keys(history, max)| <= max
  {
    KeysAreMostRecent(history, max);
  }

  /** One request keeps the bound unless the map is full, the tenant is new, and the oldest key is the
      empty string. */
  lemma BoundKeptIff(order: seq<string>, t: string, max: nat)
    requires max > 0 && NoRepeats(order) && |order| <= max
    ensures |Touch(order, t, max)| <= max <==> !(|order| == max && t !in order && order[0] == "")
  {
    if t in order { WithoutOnce(order, t); }
  }

  /** From then on the map grows with every new tenant: once "" came first, nobody is ever dropped. */
  lemma {:induction false} EmptyIdOverfills(others: seq<string>, max: nat)
    requires max > 0 && NoRepeats([""] + others)
    ensures Keys([""] + others, max) == [""] + others
  {
    var history := [""] + others;
    if others == [] {
      assert history[..0] == [] && Keys(history[..0], max) == [];
    } else {
      var front, last := others[..|others| - 1], others[|others| - 1];
      assert history[..|history| - 1] == [""] + front && history == ([""] + front) + [last];
      assert history[|history| - 1] == last;
      EmptyIdOverfills(front, max);
    }
  }

  // ---------- the resolver ----------

  /** What one request evicts. */
  function Evicted(order: seq<string>, t: string, max: nat): set<string> {
    if t !in order && |order| >= max && order != [] && order[0] != "" then {order[0]} else {}
  }

  lemma AppendFacts(s: seq<string>, t: string)
    requires NoRepeats(s) && t !in s
    ensures NoRepeats(s + [t]) && forall x :: x in s + [t] <==> x == t || x in s
  {}

  lemma TailFacts(s: seq<string>)
    requires NoRepeats(s) && s != []
    ensures NoRepeats(s[1..]) && forall x :: x in s[1..] <==> x in s && x != s[0]
  {
    forall x ensures x in s[1..] <==> x in s && x != s[0] {
      if x in s && x != s[0] {
        var i :| 0 <= i < |s| && s[i] == x;
        assert s[1..][i - 1] == x;
      }
    }
  }

  lemma TouchMembers(order: seq<string>, t: string, max: nat)
    requires NoRepeats(order)
    ensures NoRepeats(Touch(order, t, max))
    ensures forall x :: x in Touch(order, t, max) <==> x == t || (x in order && x !in Evicted(order, t, max))
  {
    if t in order {
      WithoutMembers(order, t);
      WithoutNoRepeats(order, t);
      AppendFacts(Without(order, t), t);
    } else if |order| >= max && order != [] && order[0] != "" {
      TailFacts(order);
      AppendFacts(order[1..], t);
    } else {
      AppendFacts(order, t);
    }
  }

  /** A tenant's requests since it was last admitted, and what each of them was answered. */
  datatype Asked = Asked(times: seq<real>, answers: seq<bool>)

  const Nothing := Asked([], [])

  /** The answers are those of the token bucket that is full at the first request. */
  ghost predicate Answered(asked: Asked) {
    |asked.answers| == |asked.times| &&
    forall k :: 0 <= k < |asked.times| ==>
      asked.answers[k] == Allowed(FREE_CAPACITY, Bucket(FREE_CAPACITY, asked.times[0]), asked.times, k)
  }

  /** So is the bucket after them. */
  ghost predicate LeadsTo(asked: Asked, b: Bucket) {
    asked.times != [] && Answered(asked)
    && b == After(FREE_CAPACITY, Bucket(FREE_CAPACITY, asked.times[0]), asked.times, |asked.times|)
  }

  /** The keys and the map agree, and every kept bucket is the one its tenant's requests lead to. */
  ghost predicate Consistent(order: seq<string>, tokens: map<string, Bucket>, since: map<string, Asked>) {
    NoRepeats(order) && (forall t :: t in tokens <==> t in order) && (forall t :: t in since <==> t in order) &&
    forall t :: t in order ==> LeadsTo(since[t], tokens[t])
  }

  lemma ConsistentStep(order: seq<string>, tokens: map<string, Bucket>, since: map<string, Asked>, t: string,
                       max: nat, asked: Asked, next: Bucket)
    requires Consistent(order, tokens, since) && LeadsTo(asked, next)
    ensures var gone := Evicted(order, t, max);
            Consistent(Touch(order, t, max), (tokens - gone)[t := next], (since - gone)[t := asked])
  {
    TouchMembers(order, t, max);
    var after, gone := Touch(order, t, max), Evicted(order, t, max);
    forall x | x in after ensures LeadsTo((since - gone)[t := asked][x], (tokens - gone)[t := next][x]) {
      assert x == t || (x in order && x !in gone);
    }
  }

  lemma CheckStep(history: seq<string>, order: seq<string>, tokens: map<string, Bucket>, since: map<string, Asked>, t: string,
                  asked: Asked, next: Bucket, kept: map<string, Asked>)
    requires order == Keys(history, MAX_MEMORY_TOKENS) && Consistent(order, tokens, since) && LeadsTo(asked, next)
    requires kept == (since - Evicted(order, t, MAX_MEMORY_TOKENS))[t := asked]
    ensures Touch(order, t, MAX_MEMORY_TOKENS) == Keys(history + [t], MAX_MEMORY_TOKENS)
    ensures Consistent(Touch(order, t, MAX_MEMORY_TOKENS), (tokens - Evicted(order, t, MAX_MEMORY_TOKENS))[t := next], kept)
    ensures t in kept && kept[t] == asked
    ensures forall x :: x in kept && x != t ==> x in since && kept[x] == since[x]
  {
    ConsistentStep(order, tokens, since, t, MAX_MEMORY_TOKENS, asked, next);
    KeysStep(history, t);
  }

  ghost function With(asked: Asked, now: real, allowed: bool): Asked {
    Asked(asked.times + [now], asked.answers + [allowed])
  }

  class RateLimitResolver {
    var order: seq<string>            // the Map's keys, in insertion order
    var memoryTokens: map<string, Bucket>
    ghost var history: seq<string>    // every tenant that asked
    ghost var since: map<string, Asked>  // what each kept tenant asked and was told

    ghost predicate Valid()
      reads this
    {
      order == Keys(history, MAX_MEMORY_TOKENS) && Consistent(order, memoryTokens, since)
    }

    constructor ()
      ensures Valid() && history == []
    {
      order, memoryTokens, history, since := [], map[], [], map[];
    }

    /** The answers a tenant gets are the token bucket's, run over its requests since it was last admitted; the
        key order moves as `Touch` says. */
    method CheckRateLimit(tenantId: string, now: real) returns (isAllowed: bool)
      requires Valid()
      modifies this
      ensures Valid() && history == old(history) + [tenantId]
      ensures tenantId in since
      ensures since[tenantId] == With(if tenantId in old(since) then old(since)[tenantId] else Nothing, now, isAllowed)
      ensures forall t :: t in since && t != tenantId ==> t in old(since) && since[t] == old(since)[t]
    {
      var state := if tenantId in memoryTokens then memoryTokens[tenantId] else Bucket(FREE_CAPACITY, now);
      ghost var asked := if tenantId in since then since[tenantId] else Nothing;
      var next;
      isAllowed, next := Ask(asked, state, now);
      asked := With(asked, now, isAllowed);
      ghost var kept := (since - Evicted(order, tenantId, MAX_MEMORY_TOKENS))[tenantId := asked];
      CheckStep(history, order, memoryTokens, since, tenantId, asked, next, kept);
      history, since := history + [tenantId], kept;
      Store(tenantId, next);
    }

    /** Delete and re-insert the tenant's entry, or make room for a new one. */
    method Store(tenantId: string, next: Bucket)
      requires forall t :: t in memoryTokens <==> t in order
      modifies this`order, this`memoryTokens
      ensures order == Touch(old(order), tenantId, MAX_MEMORY_TOKENS)
      ensures memoryTokens == (old(memoryTokens) - Evicted(old(order), tenantId, MAX_MEMORY_TOKENS))[tenantId := next]
    {
      MapEdits(memoryTokens, tenantId, next);
      if tenantId in memoryTokens {
        order, memoryTokens := Without(order, tenantId), memoryTokens - {tenantId};
      } else if |order| >= MAX_MEMORY_TOKENS {
        var oldestKey := order[0];
        if oldestKey != "" {
          order, memoryTokens := order[1..], memoryTokens - {oldestKey};
        }
      }
      order, memoryTokens := order + [tenantId], memoryTokens[tenantId := next];
    }
  }

  lemma MapEdits(tokens: map<string, Bucket>, t: string, next: Bucket)
    ensures (tokens - {t})[t := next] == tokens[t := next] && tokens - {} == tokens
  {}

  lemma KeysStep(history: seq<string>, t: string)
    ensures Keys(history + [t], MAX_MEMORY_TOKENS) == Touch(Keys(history, MAX_MEMORY_TOKENS), t, MAX_MEMORY_TOKENS)
  {
    assert (history + [t])[..|history|] == history;
  }

  lemma {:induction false} AfterExtends(b: Bucket, times: seq<real>, now: real, k: nat)
    requires k <= |times|
    ensures After(FREE_CAPACITY, b, times + [now], k) == After(FREE_CAPACITY, b, times, k)
  {
    if k > 0 { AfterExtends(b, times, now, k - 1); }
  }

  method Ask(ghost asked: Asked, state: Bucket, now: real) returns (allowed: bool, next: Bucket)
    requires if asked == Nothing then state == Bucket(FREE_CAPACITY, now) else LeadsTo(asked, state)
    ensures LeadsTo(With(asked, now, allowed), next)
  {
    AskedStep(asked, state, now);
    var (isAllowed, newState) := AllowRequest(FREE_CAPACITY, state, now);
    allowed, next := isAllowed, newState;
  }

  lemma AskedStep(asked: Asked, state: Bucket, now: real)
    requires if asked == Nothing then state == Bucket(FREE_CAPACITY, now) else LeadsTo(asked, state)
    ensures var (allowed, next) := AllowRequest(FREE_CAPACITY, state, now);
            LeadsTo(With(asked, now, allowed), next)
  {
    var times := asked.times;
    var all := times + [now];
    forall k | 0 <= k <= |times| ensures After(FREE_CAPACITY, Bucket(FREE_CAPACITY, all[0]), all, k)
                                      == After(FREE_CAPACITY, Bucket(FREE_CAPACITY, all[0]), times, k) {
      AfterExtends(Bucket(FREE_CAPACITY, all[0]), times, now, k);
    }
  }

  /** How many of the answers i..j are yes. */
  function Passed(answers: seq<bool>, i: nat, j: nat): nat
    requires i <= j <= |answers|
    decreases j
  {
    if i == j then 0 else Passed(answers, i, j - 1) + if answers[j - 1] then 1 else 0
  }

  lemma {:induction false} PassedIsAllowed(asked: Asked, i: nat, j: nat)
    requires Answered(asked) && i <= j <= |asked.times| && asked.times != []
    ensures Passed(asked.answers, i, j)
         == CountAllowed(FREE_CAPACITY, Bucket(FREE_CAPACITY, asked.times[0]), asked.times, i, j)
    decreases j
  {
    if i < j { PassedIsAllowed(asked, i, j - 1); }
  }

  /** Each kept tenant is held to its own bucket, whatever the others and the clock do: of the answers i..j it
      got since its admission, at most 60 plus one for each second that counts are yes. */
  lemma TenantBound(resolver: RateLimitResolver, t: string, i: nat, j: nat)
    requires resolver.Valid() && t in resolver.since
    requires i < j <= |resolver.since[t].answers|
    ensures |resolver.since[t].times| == |resolver.since[t].answers|
    ensures Passed(resolver.since[t].answers, i, j) as real <= 60.0 + Elapsed(resolver.since[t].times, i, j - 1)
  {
    var times := resolver.since[t].times;
    PassedIsAllowed(resolver.since[t], i, j);
    RateBound(FREE_CAPACITY, Bucket(FREE_CAPACITY, times[0]), times, i, j, Elapsed(times, i, j - 1));
  }

  /** A yes to request k keeps the bound over the requests i..k: 60, and one more for each second that counts. */
  ghost predicate WithinRate(asked: Asked, i: nat, k: nat)
    requires i <= k < |asked.answers| && |asked.answers| == |asked.times|
  {
    Passed(asked.answers, i, k) as real + 1.0 <= 60.0 + Elapsed(asked.times, i, k)
  }

  lemma WithinIffKeeps(asked: Asked, b: Bucket, i: nat, k: nat, seconds: real)
    requires Answered(asked) && i <= k < |asked.times| && b == Bucket(FREE_CAPACITY, asked.times[0]) && seconds == Elapsed(asked.times, i, k)
    ensures KeepsRate(FREE_CAPACITY, b, asked.times, i, k) <==> WithinRate(asked, i, k)
  {
    PassedIsAllowed(asked, i, k);
    OnePerSecond(seconds);
  }

  lemma AnsweredIffWithin(asked: Asked, k: nat)
    requires Answered(asked) && k < |asked.answers|
    ensures asked.answers[k] <==> forall i: nat :: i <= k ==> WithinRate(asked, i, k)
  {
    var b := Bucket(FREE_CAPACITY, asked.times[0]);
    AllowedIffWithinRate(FREE_CAPACITY, b, asked.times, k);
    forall i: nat | i <= k ensures KeepsRate(FREE_CAPACITY, b, asked.times, i, k) <==> WithinRate(asked, i, k) {
      WithinIffKeeps(asked, b, i, k, Elapsed(asked.times, i, k));
    }
  }

  /** And to nothing else: an answer is yes exactly when that keeps the bound over every stretch of the tenant's requests
      that ends there. */
  lemma AnsweredIffWithinRate(resolver: RateLimitResolver, t: string, k: nat)
    requires resolver.Valid() && t in resolver.since && k < |resolver.since[t].answers|
    ensures |resolver.since[t].answers| == |resolver.since[t].times|
    ensures resolver.since[t].answers[k] <==> forall i: nat :: i <= k ==> WithinRate(resolver.since[t], i, k)
  {
    assert LeadsTo(resolver.since[t], resolver.memoryTokens[t]);
    AnsweredIffWithin(resolver.since[t], k);
  }

  /** Of the tenants that have asked, none under an empty id, those are kept after whose last request fewer than ten
      thousand others asked. */
  lemma KeptTenants(resolver: RateLimitResolver, t: string)
    requires resolver.Valid() && "" !in resolver.history
    ensures t in resolver.memoryTokens <==> t in resolver.history && |AskedSince(resolver.history, t)| < 10000
    ensures |resolver.memoryTokens| <= 10000
  {
    var order, history := resolver.order, resolver.history;
    KeysAreMostRecent(history, MAX_MEMORY_TOKENS);
    ByLastRequestFacts(history);
    NeverOverfull(history, MAX_MEMORY_TOKENS);
    KeySet(order, resolver.memoryTokens.Keys);
    if t in history { KeptIffRecent(history, t, MAX_MEMORY_TOKENS); }
  }

  lemma {:induction false} KeySet(order: seq<string>, keys: set<string>)
    requires NoRepeats(order) && forall t :: t in keys <==> t in order
    ensures |keys| == |order|
    decreases |order|
  {
    if order == [] {
      assert keys == {};
    } else {
      TailFacts(order);
      KeySet(order[1..], keys - {order[0]});
    }
  }

  /** ... where those that asked since are the tenants with a request after every one of its own. */
  lemma {:induction false} AskedSinceMeans(history: seq<string>, t: string, x: string)
    ensures x in AskedSince(history, t) <==> exists j :: 0 <= j < |history| && history[j] == x && forall k :: j <= k < |history| ==> history[k] != t
  {
    if history != [] {
      var n := |history| - 1;
      AskedSinceMeans(history[..n], t, x);
      if history[n] != t {
        if j :| 0 <= j < n && history[..n][j] == x && forall k :: j <= k < n ==> history[..n][k] != t {
          assert forall k :: j <= k < |history| ==> k == n || history[k] == history[..n][k];
          assert history[j] == x;
        }
        if j :| 0 <= j < |history| && history[j] == x && (forall k :: j <= k < |history| ==> history[k] != t) && j < n {
          assert history[..n][j] == x && forall k :: j <= k < n ==> history[..n][k] != t;
        }
      }
    }
  }

  lemma OnePerSecond(seconds: real)
    ensures Earned(FREE_CAPACITY, seconds) == seconds
  {
    assert Rate(FREE_CAPACITY) == 1.0;
  }
}
