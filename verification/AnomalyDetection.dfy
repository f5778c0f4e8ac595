/** The local fallback of anomaly detection: loss entries are counted per actor, and an actor whose count
    lies more than one and a half standard deviations above the mean is reported. The square root is a
    parameter, known only by what it means. */
module AnomalyDetection {
  import opened Options
  import opened Statistics

  datatype Entry = Entry(reason: string, actorId: Option<string>, actor: Option<string>)

  datatype Severity = Critical | High | Medium | Low

  datatype Alert = Alert(severity: Severity, confidence: real, actorId: string, count: nat)

  datatype Summary = Summary(alerts: seq<Alert>, totalCritical: nat, totalHigh: nat, totalMedium: nat,
                             totalLow: nat, overallRiskScore: real)

  predicate Loss(e: Entry) {
    e.reason == "shrinkage" || e.reason == "write_off" || e.reason == "damage"
  }

  function ActorOf(e: Entry): string {
    if e.actorId.Some? then e.actorId.value
    else if e.actor.Some? && e.actor.value != "" then e.actor.value
    else "unknown"
  }

  // ---------- what is counted ----------

  function CountOf(entries: seq<Entry>, actor: string): nat {
    if entries == [] then 0
    else CountOf(entries[..|entries| - 1], actor)
         + if Loss(entries[|entries| - 1]) && ActorOf(entries[|entries| - 1]) == actor then 1 else 0
  }

  /** The actors with a loss entry, each once, in the order of their first one. */
  function FirstSeen(entries: seq<Entry>): seq<string> {
    if entries == [] then []
    else
      var seen, e := FirstSeen(entries[..|entries| - 1]), entries[|entries| - 1];
      if Loss(e) && ActorOf(e) !in seen then seen + [ActorOf(e)] else seen
  }

  function Losses(entries: seq<Entry>): nat {
    if entries == [] then 0
    else Losses(entries[..|entries| - 1]) + if Loss(entries[|entries| - 1]) then 1 else 0
  }

  function Counts(entries: seq<Entry>, actors: seq<string>): seq<nat> {
    seq(|actors|, i requires 0 <= i < |actors| => CountOf(entries, actors[i]))
  }

  function Reals(counts: seq<nat>): seq<real> {
    seq(|counts|, i requires 0 <= i < |counts| => counts[i] as real)
  }

  lemma {:induction false} SeenIffCounted(entries: seq<Entry>, actor: string)
    ensures actor in FirstSeen(entries) <==> CountOf(entries, actor) > 0
  {
    if entries != [] {
      SeenIffCounted(entries[..|entries| - 1], actor);
    }
  }

  lemma {:induction false} SeenOnce(entries: seq<Entry>, i: nat, j: nat)
    requires i < j < |FirstSeen(entries)|
    ensures FirstSeen(entries)[i] != FirstSeen(entries)[j]
  {
    var front := entries[..|entries| - 1];
    if j < |FirstSeen(front)| {
      SeenOnce(front, i, j);
    }
  }

  /** The actors and their counts over the entries so far. */
  ghost predicate Tallied(entries: seq<Entry>, actors: seq<string>, counts: map<string, nat>) {
    && actors == FirstSeen(entries)
    && (forall a :: a in counts <==> a in actors)
    && (forall a :: a in counts ==> counts[a] == CountOf(entries, a))
  }

  function OneMore(counts: map<string, nat>, actor: string): nat { (if actor in counts then counts[actor] else 0) + 1 }

  lemma TalliedMore(entries: seq<Entry>, e: Entry, actors: seq<string>, counts: map<string, nat>, actor: string)
    requires Tallied(entries, actors, counts) && actor == ActorOf(e)
    ensures !Loss(e) ==> Tallied(entries + [e], actors, counts)
    ensures Loss(e) ==> Tallied(entries + [e], if actor in counts then actors else actors + [actor], counts[actor := OneMore(counts, actor)])
  {
    assert (entries + [e])[..|entries|] == entries;
    SeenIffCounted(entries, actor);
  }

  method CountActors(entries: seq<Entry>) returns (actors: seq<string>, counts: map<string, nat>)
    ensures actors == FirstSeen(entries)
    ensures forall a :: a in counts <==> a in actors
    ensures forall a :: a in counts ==> counts[a] == CountOf(entries, a)
  {
    actors, counts := [], map[];
    ghost var done := [];
    for i := 0 to |entries|
      invariant done == entries[..i] && Tallied(done, actors, counts)
    {
      var e := entries[i];
      TalliedMore(done, e, actors, counts, ActorOf(e));
      done := done + [e];
      if e.reason == "shrinkage" || e.reason == "write_off" || e.reason == "damage" {
        var actor := "unknown";
        if e.actorId.Some? { actor := e.actorId.value; } else if e.actor.Some? && e.actor.value != "" { actor := e.actor.value; }
        if actor !in counts { actors := actors + [actor]; }
        counts := counts[actor := OneMore(counts, actor)];
      }
    }
    assert done == entries;
  }

  // ---------- mean and deviation ----------

  /** `Math.sqrt(variance) || 1`. */
  function Deviation(v: seq<real>, sqrt: real -> real): real
    requires v != []
  {
    var root := sqrt(Variance(v));
    if root == 0.0 then 1.0 else root
  }

  method MeanAndDeviation(values: seq<nat>, sqrt: real -> real) returns (mean: real, std: real)
    requires values != []
    ensures mean == Mean(Reals(values)) && std == Deviation(Reals(values), sqrt)
  {
    var n := |values|;
    var sum, sumSq := 0.0, 0.0;
    ghost var done: seq<real> := [];
    for i := 0 to n
      invariant done == Reals(values)[..i]
      invariant sum == Sum(done) && sumSq == SumOfSquares(done)
    {
      var v := values[i] as real;
      ghost var before := done;
      done := done + [v];
      assert done[..|done| - 1] == before && Reals(values)[..i + 1] == done;
      sum := sum + v;
      sumSq := sumSq + v * v;
    }
    assert done == Reals(values);
    mean := sum / n as real;
    var spread := sumSq / n as real - mean * mean;
    OnePassIsVariance(done, mean, sumSq, n as real, spread);
    var variance := if spread > 0.0 then spread else 0.0;
    std := sqrt(variance);
    if std == 0.0 { std := 1.0; }
  }

  // ---------- alerts ----------

  function ZScore(count: nat, mean: real, std: real): real
    requires std != 0.0
  {
    (count as real - mean) / std
  }

  function Confidence(z: real): real { if z / 4.0 < 1.0 then z / 4.0 else 1.0 }

  function SeverityOf(confidence: real): Severity {
    if confidence >= 0.8 then Critical else if confidence >= 0.6 then High
    else if confidence >= 0.4 then Medium else Low
  }

  function AlertFor(actor: string, count: nat, z: real): Alert {
    Alert(SeverityOf(Confidence(z)), Confidence(z), actor, count)
  }

  function Alerts(actors: seq<string>, counts: seq<nat>, mean: real, std: real): (r: seq<Alert>)
    requires |actors| == |counts| && std != 0.0
    decreases |actors|
  {
    if actors == [] then []
    else
      var k := |actors| - 1;
      var z := ZScore(counts[k], mean, std);
      Alerts(actors[..k], counts[..k], mean, std) + if z > 1.5 then [AlertFor(actors[k], counts[k], z)] else []
  }

  method FlagActors(actors: seq<string>, counts: map<string, nat>, mean: real, std: real) returns (alerts: seq<Alert>)
    requires std != 0.0 && forall a :: a in actors ==> a in counts
    ensures alerts == Alerts(actors, seq(|actors|, i requires 0 <= i < |actors| => counts[actors[i]]), mean, std)
  {
    alerts := [];
    ghost var all := seq(|actors|, i requires 0 <= i < |actors| => counts[actors[i]]);
    ghost var done, seen := [], [];
    for i := 0 to |actors|
      invariant done == actors[..i] && seen == all[..i]
      invariant alerts == Alerts(done, seen, mean, std)
    {
      var actor := actors[i];
      var count := counts[actor];
      assert (done + [actor])[..i] == done && (seen + [count])[..i] == seen;
      done, seen := done + [actor], seen + [count];
      var zScore := (count as real - mean) / std;
      if zScore > 1.5 {
        var confidence := if zScore / 4.0 < 1.0 then zScore / 4.0 else 1.0;
        var severity := if confidence >= 0.8 then Critical else if confidence >= 0.6 then High
                        else if confidence >= 0.4 then Medium else Low;
        alerts := alerts + [Alert(severity, confidence, actor, count)];
      }
    }
    assert done == actors && seen == all;
  }

  function CountSeverity(alerts: seq<Alert>, s: Severity): nat {
    if alerts == [] then 0
    else CountSeverity(alerts[..|alerts| - 1], s) + if alerts[|alerts| - 1].severity == s then 1 else 0
  }

  function TotalConfidence(alerts: seq<Alert>): real {
    if alerts == [] then 0.0 else TotalConfidence(alerts[..|alerts| - 1]) + alerts[|alerts| - 1].confidence
  }

  function Summarised(alerts: seq<Alert>): Summary {
    Summary(alerts, CountSeverity(alerts, Critical), CountSeverity(alerts, High), CountSeverity(alerts, Medium),
            CountSeverity(alerts, Low), if alerts == [] then 0.0 else TotalConfidence(alerts) / |alerts| as real)
  }

  method Summarise(alerts: seq<Alert>) returns (summary: Summary)
    ensures summary == Summarised(alerts)
  {
    var critical, high, medium, low, sumConfidence := 0, 0, 0, 0, 0.0;
    ghost var done := [];
    for i := 0 to |alerts|
      invariant done == alerts[..i] && sumConfidence == TotalConfidence(done)
      invariant critical == CountSeverity(done, Critical) && high == CountSeverity(done, High)
      invariant medium == CountSeverity(done, Medium) && low == CountSeverity(done, Low)
    {
      var a := alerts[i];
      assert (done + [a])[..i] == done;
      done := done + [a];
      sumConfidence := sumConfidence + a.confidence;
      match a.severity
      case Critical => critical := critical + 1;
      case High => high := high + 1;
      case Medium => medium := medium + 1;
      case Low => low := low + 1;
    }
    assert done == alerts;
    summary := Summary(alerts, critical, high, medium, low,
                       if |alerts| > 0 then sumConfidence / |alerts| as real else 0.0);
  }

  /** The specification: loss counts per actor, textbook mean and deviation, one alert per outlier. */
  function Fallback(entries: seq<Entry>, sqrt: real -> real): Summary {
    var actors := FirstSeen(entries);
    var counts := Counts(entries, actors);
    if actors == [] then Summarised([])
    else Summarised(Alerts(actors, counts, Mean(Reals(counts)), Deviation(Reals(counts), sqrt)))
  }

  method BasicFallback(entries: seq<Entry>, sqrt: real -> real) returns (summary: Summary)
    ensures summary == Fallback(entries, sqrt)
  {
    var actors, counts := CountActors(entries);
    var values := seq(|actors|, i requires 0 <= i < |actors| => counts[actors[i]]);
    assert values == Counts(entries, actors);
    var alerts := [];
    if |values| > 0 {
      var mean, std := MeanAndDeviation(values, sqrt);
      alerts := FlagActors(actors, counts, mean, std);
    }
    summary := Summarise(alerts);
  }

  // ---------- what the fallback promises ----------

  lemma ZAbove(count: nat, mean: real, std: real)
    requires std > 0.0
    ensures ZScore(count, mean, std) > 1.5 <==> count as real > mean + 1.5 * std
  {
    var z := ZScore(count, mean, std);
    assert z * std == count as real - mean;
    if z > 1.5 { assert z * std > 1.5 * std; } else { assert z * std <= 1.5 * std; }
  }

  lemma RealsOfPrefix(counts: seq<nat>)
    requires counts != []
    ensures Reals(counts)[..|counts| - 1] == Reals(counts[..|counts| - 1])
  {}

  lemma {:induction false} OneAlertPerOutlier(actors: seq<string>, counts: seq<nat>, mean: real, std: real)
    requires |actors| == |counts| && std > 0.0
    ensures |Alerts(actors, counts, mean, std)| == CountAbove(Reals(counts), mean + 1.5 * std)
    decreases |actors|
  {
    if actors != [] {
      var k := |actors| - 1;
      OneAlertPerOutlier(actors[..k], counts[..k], mean, std);
      RealsOfPrefix(counts);
      ZAbove(counts[k], mean, std);
    }
  }

  lemma {:induction false} AlertIffOutlier(actors: seq<string>, counts: seq<nat>, mean: real, std: real, i: nat)
    requires |actors| == |counts| && std > 0.0 && i < |actors|
    requires forall x, y :: 0 <= x < y < |actors| ==> actors[x] != actors[y]
    ensures counts[i] as real > mean + 1.5 * std
            ==> AlertFor(actors[i], counts[i], ZScore(counts[i], mean, std)) in Alerts(actors, counts, mean, std)
    ensures forall a :: a in Alerts(actors, counts, mean, std) && a.actorId == actors[i]
                        ==> counts[i] as real > mean + 1.5 * std && a.count == counts[i]
    decreases |actors|
  {
    var k := |actors| - 1;
    ZAbove(counts[k], mean, std);
    forall a | a in Alerts(actors[..k], counts[..k], mean, std)
      ensures a.actorId in actors[..k]
    {
      AlertNamesActor(actors[..k], counts[..k], mean, std, a);
    }
    if i < k {
      AlertIffOutlier(actors[..k], counts[..k], mean, std, i);
    }
  }

  lemma {:induction false} AlertNamesActor(actors: seq<string>, counts: seq<nat>, mean: real, std: real, a: Alert)
    requires |actors| == |counts| && std != 0.0 && a in Alerts(actors, counts, mean, std)
    ensures a.actorId in actors && a.confidence > 0.375 && a.confidence <= 1.0
    ensures a.severity == SeverityOf(a.confidence)
    decreases |actors|
  {
    var k := |actors| - 1;
    if a in Alerts(actors[..k], counts[..k], mean, std) {
      AlertNamesActor(actors[..k], counts[..k], mean, std, a);
    }
  }

  lemma ZAtLeast(count: nat, mean: real, std: real, c: real, z: real)
    requires std > 0.0 && z == ZScore(count, mean, std)
    ensures z >= c <==> count as real >= mean + c * std
  {
    assert z * std == count as real - mean;
    if z >= c { assert z * std >= c * std; } else { assert z * std < c * std; }
  }

  /** Severities by the number of deviations above the mean. */
  ghost predicate SeverityFits(severity: Severity, count: real, mean: real, std: real) {
    && (severity.Critical? <==> count >= mean + 3.2 * std)
    && (severity.High? <==> mean + 2.4 * std <= count < mean + 3.2 * std)
    && (severity.Medium? <==> mean + 1.6 * std <= count < mean + 2.4 * std)
    && (severity.Low? <==> mean + 1.5 * std < count < mean + 1.6 * std)
  }

  lemma AlertFits(actor: string, count: nat, mean: real, std: real, z: real)
    requires std > 0.0 && z == ZScore(count, mean, std) && z > 1.5
    ensures SeverityFits(AlertFor(actor, count, z).severity, count as real, mean, std)
  {
    ZAtLeast(count, mean, std, 3.2, z);
    ZAtLeast(count, mean, std, 2.4, z);
    ZAtLeast(count, mean, std, 1.6, z);
    ZAbove(count, mean, std);
  }

  lemma {:induction false} AlertsFit(entries: seq<Entry>, actors: seq<string>, counts: seq<nat>, mean: real, std: real, a: Alert)
    requires |actors| == |counts| && std > 0.0 && a in Alerts(actors, counts, mean, std)
    requires forall i :: 0 <= i < |actors| ==> counts[i] == CountOf(entries, actors[i])
    ensures a.actorId in actors && a.count == CountOf(entries, a.actorId)
    ensures SeverityFits(a.severity, a.count as real, mean, std)
    decreases |actors|
  {
    var k := |actors| - 1;
    var z := ZScore(counts[k], mean, std);
    if z > 1.5 { AlertFits(actors[k], counts[k], mean, std, z); }
    if a in Alerts(actors[..k], counts[..k], mean, std) {
      AlertsFit(entries, actors[..k], counts[..k], mean, std, a);
    }
  }

  /** An alert carries its actor's number of losses; it is critical, high or medium when that number is at least
      3.2, 2.4 or 1.6 deviations above the mean. */
  lemma SeverityByDistance(entries: seq<Entry>, sqrt: real -> real, a: Alert, v: seq<real>)
    requires IsSquareRoot(sqrt) && a in Fallback(entries, sqrt).alerts && v == Reals(Counts(entries, FirstSeen(entries)))
    ensures v != [] && a.count == CountOf(entries, a.actorId)
    ensures SeverityFits(a.severity, a.count as real, Mean(v), Deviation(v, sqrt))
  {
    FewOutliers(v, sqrt, Mean(v), Deviation(v, sqrt));
    AlertsFit(entries, FirstSeen(entries), Counts(entries, FirstSeen(entries)), Mean(v), Deviation(v, sqrt), a);
  }

  lemma FewOutliers(v: seq<real>, sqrt: real -> real, m: real, std: real)
    requires v != [] && IsSquareRoot(sqrt) && m == Mean(v) && std == Deviation(v, sqrt)
    ensures std > 0.0
    ensures var f := CountAbove(v, m + 1.5 * std); f > 0 ==> 13 * f < 4 * |v|
  {
    var n, around, variance := Size(v), SumAround(v, m), Variance(v);
    Quotient(Sum(v), n, m);
    Quotient(around, n, variance);
    SumAroundNonnegative(v, m);
    NonnegativeFactor(variance, n);
    var root := sqrt(variance);
    assert root >= 0.0 && root * root == variance;
    if root == 0.0 {
      forall i | 0 <= i < |v| ensures v[i] <= m + 1.5 * std { NoSpread(v, m, i); }
      NoneAbove(v, m + 1.5 * std);
    } else {
      FewAbove(v, m, variance, std, m + 1.5 * std, CountAbove(v, m + 1.5 * std), n, around);
    }
  }

  /** An actor is reported exactly when it has losses, and more than one and a half deviations above the mean of all
      actors with losses; then with the confidence and severity of that distance. */
  lemma ReportedIffOutlier(entries: seq<Entry>, sqrt: real -> real, actor: string, v: seq<real>)
    requires IsSquareRoot(sqrt) && v == Reals(Counts(entries, FirstSeen(entries)))
    ensures var alerts, count := Fallback(entries, sqrt).alerts, CountOf(entries, actor);
            if actor !in FirstSeen(entries) || count as real <= Mean(v) + 1.5 * Deviation(v, sqrt)
            then forall a :: a in alerts ==> a.actorId != actor
            else Deviation(v, sqrt) > 0.0 && AlertFor(actor, count, ZScore(count, Mean(v), Deviation(v, sqrt))) in alerts
  {
    var actors := FirstSeen(entries);
    if actors != [] {
      var counts, mean, std := Counts(entries, actors), Mean(v), Deviation(v, sqrt);
      FewOutliers(v, sqrt, mean, std);
      forall x, y | 0 <= x < y < |actors| ensures actors[x] != actors[y] { SeenOnce(entries, x, y); }
      forall a | a in Alerts(actors, counts, mean, std) ensures a.actorId in actors { AlertNamesActor(actors, counts, mean, std, a); }
      if actor in actors {
        var i :| 0 <= i < |actors| && actors[i] == actor;
        AlertIffOutlier(actors, counts, mean, std, i);
      }
    }
  }

  /** Fewer than 4 in 13 of the actors with losses are ever reported; with three of them or fewer, nobody is. */
  lemma FewAlerts(entries: seq<Entry>, sqrt: real -> real)
    requires IsSquareRoot(sqrt)
    ensures var f, n := |Fallback(entries, sqrt).alerts|, |FirstSeen(entries)|;
            (f > 0 ==> 13 * f < 4 * n) && (n <= 3 ==> f == 0)
  {
    var actors := FirstSeen(entries);
    if actors != [] {
      var counts := Counts(entries, actors);
      var v := Reals(counts);
      var mean, std := Mean(v), Deviation(v, sqrt);
      FewOutliers(v, sqrt, mean, std);
      OneAlertPerOutlier(actors, counts, mean, std);
    }
  }

  // ---------- the bound is tight ----------

  function Name(i: nat): string { seq(i + 1, _ => 'a') }

  function LossBy(i: nat): Entry { Entry("damage", Some(Name(i)), None) }

  /** One loss for each of n actors, and then a second one for the first f of them. */
  function OneOrTwo(n: nat, f: nat): seq<Entry> {
    if f > 0 then OneOrTwo(n, f - 1) + [LossBy(f - 1)] else if n > 0 then OneOrTwo(n - 1, 0) + [LossBy(n - 1)] else []
  }

  function Names(n: nat): seq<string> { seq(n, i requires 0 <= i < n => Name(i)) }

  lemma NamesDiffer(i: nat, j: nat)
    ensures Name(i) == Name(j) <==> i == j
  {
    assert |Name(i)| == i + 1 && |Name(j)| == j + 1;
  }

  lemma NewName(n: nat)
    ensures Name(n) !in Names(n)
  {
    var names := Names(n);
    forall i | 0 <= i < n ensures names[i] != Name(n) { NamesDiffer(i, n); }
  }

  lemma {:induction false} CountsOfOneOrTwo(n: nat, f: nat, i: nat)
    ensures CountOf(OneOrTwo(n, f), Name(i)) == (if i < n then 1 else 0) + if i < f then 1 else 0
  {
    var all := OneOrTwo(n, f);
    if f > 0 {
      CountsOfOneOrTwo(n, f - 1, i);
      NamesDiffer(f - 1, i);
      assert all[..|all| - 1] == OneOrTwo(n, f - 1);
    } else if n > 0 {
      CountsOfOneOrTwo(n - 1, 0, i);
      NamesDiffer(n - 1, i);
      assert all[..|all| - 1] == OneOrTwo(n - 1, 0);
    }
  }

  lemma {:induction false} ActorsOfOneOrTwo(n: nat, f: nat)
    requires f <= n
    ensures FirstSeen(OneOrTwo(n, f)) == Names(n)
  {
    var all := OneOrTwo(n, f);
    if f > 0 {
      ActorsOfOneOrTwo(n, f - 1);
      assert all[..|all| - 1] == OneOrTwo(n, f - 1) && Names(n)[f - 1] == Name(f - 1);
    } else if n > 0 {
      ActorsOfOneOrTwo(n - 1, 0);
      assert all[..|all| - 1] == OneOrTwo(n - 1, 0);
      NewName(n - 1);
      assert Names(n) == Names(n - 1) + [Name(n - 1)];
    }
  }

  lemma CountsAreTwoLevels(n: nat, f: nat)
    requires f <= n
    ensures Reals(Counts(OneOrTwo(n, f), Names(n))) == TwoLevels(n, f)
  {
    forall i | 0 <= i < n ensures CountOf(OneOrTwo(n, f), Names(n)[i]) as real == TwoLevels(n, f)[i] {
      CountsOfOneOrTwo(n, f, i);
    }
  }

  lemma LevelsAbove(n: nat, f: nat, sqrt: real -> real, v: seq<real>, m: real, std: real)
    requires IsSquareRoot(sqrt) && f > 0 && 13 * f < 4 * n && v == TwoLevels(n, f)
    requires m == Mean(v) && std == Deviation(v, sqrt)
    ensures std > 0.0 && CountAbove(v, m + 1.5 * std) == f
  {
    var size, around, variance := Size(v), SumAround(v, m), Variance(v);
    var high, low := Square(2.0 - m), Square(1.0 - m);
    Quotient(Sum(v), size, m);
    Quotient(around, size, variance);
    SumOfLevels(n, f);
    SumAroundLevels(n, f, m, around, high, low);
    LevelsSpread(size, f as real, m, variance, around, high, low);
    SumAroundNonnegative(v, m);
    NonnegativeFactor(variance, size);
    var root := sqrt(variance);
    assert root >= 0.0 && root * root == variance;
    HighAbove(size, f as real, m, variance, root);
    AboveBetween(n, f, m + 1.5 * std);
  }

  /** The bound is tight: whenever 13 f < 4 n, some losses of n actors have exactly f of them reported. */
  lemma EveryFewerCanAlert(n: nat, f: nat, sqrt: real -> real)
    requires IsSquareRoot(sqrt) && f > 0 && 13 * f < 4 * n
    ensures |FirstSeen(OneOrTwo(n, f))| == n && |Fallback(OneOrTwo(n, f), sqrt).alerts| == f
  {
    var entries, v := OneOrTwo(n, f), TwoLevels(n, f);
    var counts := Counts(entries, Names(n));
    ActorsOfOneOrTwo(n, f);
    CountsAreTwoLevels(n, f);
    var m, std := Mean(v), Deviation(v, sqrt);
    LevelsAbove(n, f, sqrt, v, m, std);
    OneAlertPerOutlier(Names(n), counts, m, std);
  }

  // ---------- the mean ----------

  lemma OneCountMore(front: seq<Entry>, e: Entry, seen: seq<string>, j: nat)
    requires seen == FirstSeen(front) && j < |seen| && Loss(e) && ActorOf(e) == seen[j]
    ensures var v := Reals(Counts(front, seen)); Reals(Counts(front + [e], seen)) == v[j := v[j] + 1.0]
  {
    assert (front + [e])[..|front|] == front;
    var v, w := Reals(Counts(front, seen)), Reals(Counts(front + [e], seen));
    forall i | 0 <= i < |seen| ensures w[i] == if i == j then v[j] + 1.0 else v[i] {
      if i < j { SeenOnce(front, i, j); } else if j < i { SeenOnce(front, j, i); }
    }
  }

  /** Each loss is counted for exactly one actor: the counts add up to the losses, and the mean the alerts
      are measured from is the number of losses per actor. */
  lemma {:induction false} CountsAddUp(entries: seq<Entry>)
    ensures Sum(Reals(Counts(entries, FirstSeen(entries)))) == Losses(entries) as real
  {
    if entries != [] {
      var front, e := entries[..|entries| - 1], entries[|entries| - 1];
      assert entries == front + [e];
      CountsAddUp(front);
      var seen, actors := FirstSeen(front), FirstSeen(entries);
      var v, w := Reals(Counts(front, seen)), Reals(Counts(entries, actors));
      SeenIffCounted(front, ActorOf(e));
      if !Loss(e) {
        assert w == v;
      } else if ActorOf(e) in seen {
        var j :| 0 <= j < |seen| && seen[j] == ActorOf(e);
        OneCountMore(front, e, seen, j);
        SumUpdate(v, w, j, 1.0);
      } else {
        assert w[..|v|] == v && w[|v|] == 1.0;
      }
    }
  }

  // ---------- the summary ----------

  lemma {:induction false} ScoreBetween(alerts: seq<Alert>)
    requires forall a :: a in alerts ==> 0.375 < a.confidence <= 1.0
    ensures 0.375 * |alerts| as real <= TotalConfidence(alerts) <= |alerts| as real
    ensures alerts != [] ==> 0.375 * |alerts| as real < TotalConfidence(alerts)
  {
    if alerts != [] {
      ScoreBetween(alerts[..|alerts| - 1]);
    }
  }

  lemma {:induction false} SeveritiesPartition(alerts: seq<Alert>)
    ensures CountSeverity(alerts, Critical) + CountSeverity(alerts, High) + CountSeverity(alerts, Medium)
            + CountSeverity(alerts, Low) == |alerts|
  {
    if alerts != [] {
      SeveritiesPartition(alerts[..|alerts| - 1]);
    }
  }

  lemma QuotientBetween(x: real, lo: real, n: real)
    requires n > 0.0 && lo * n < x <= n
    ensures lo < x / n <= 1.0
  {
    assert x / n * n == x;
  }

  /** The four totals split the alerts; the risk score is 0 without alerts, and otherwise above 3/8 and at
      most 1. */
  lemma SummaryIsConsistent(entries: seq<Entry>, sqrt: real -> real)
    requires IsSquareRoot(sqrt)
    ensures var r := Fallback(entries, sqrt);
            && r.totalCritical + r.totalHigh + r.totalMedium + r.totalLow == |r.alerts|
            && (r.alerts == [] ==> r.overallRiskScore == 0.0)
            && (r.alerts != [] ==> 0.375 < r.overallRiskScore <= 1.0)
  {
    var r := Fallback(entries, sqrt);
    SeveritiesPartition(r.alerts);
    if r.alerts != [] {
      var actors := FirstSeen(entries);
      var counts := Counts(entries, actors);
      var mean, std := Mean(Reals(counts)), Deviation(Reals(counts), sqrt);
      forall a | a in r.alerts ensures 0.375 < a.confidence <= 1.0 {
        AlertNamesActor(actors, counts, mean, std, a);
      }
      ScoreBetween(r.alerts);
      QuotientBetween(TotalConfidence(r.alerts), 0.375, |r.alerts| as real);
    }
  }
}
