/** What is counted as a loss, for whom, and what alerts and totals say of it, on the entries' own fields. */
module AnomalyMeaning {
  import opened Options
  import opened Statistics
  import opened AnomalyDetection

  /** The entries that are losses of an actor: shrinkage, write-offs and damage, of the actor named by its id, else by a
      non-empty name, else of "unknown". */
  ghost function LossesOf(entries: seq<Entry>, actor: string): set<int> {
    set i | 0 <= i < |entries| && entries[i].reason in {"shrinkage", "write_off", "damage"}
            && match entries[i].actorId
               case Some(id) => actor == id
               case None => if entries[i].actor in {None, Some("")} then actor == "unknown" else entries[i].actor == Some(actor)
  }

  lemma LossesMore(front: seq<Entry>, e: Entry, actor: string)
    ensures LossesOf(front + [e], actor) == LossesOf(front, actor) + if Loss(e) && ActorOf(e) == actor then {|front|} else {}
  {
    var all := front + [e];
    assert forall i :: 0 <= i < |front| ==> all[i] == front[i];
    assert all[|front|] == e;
  }

  /** The count of an actor is the number of its losses. */
  lemma {:induction false} CountMeans(entries: seq<Entry>, actor: string)
    ensures CountOf(entries, actor) == |LossesOf(entries, actor)|
  {
    if entries == [] {
      assert LossesOf(entries, actor) == {};
    } else {
      var front, e := entries[..|entries| - 1], entries[|entries| - 1];
      assert entries == front + [e];
      CountMeans(front, actor);
      LossesMore(front, e, actor);
    }
  }

  /** The actors that are compared are those with a loss, each once. */
  lemma ActorsMean(entries: seq<Entry>, actor: string)
    ensures actor in FirstSeen(entries) <==> LossesOf(entries, actor) != {}
    ensures forall i, j :: 0 <= i < j < |FirstSeen(entries)| ==> FirstSeen(entries)[i] != FirstSeen(entries)[j]
  {
    SeenIffCounted(entries, actor);
    CountMeans(entries, actor);
    forall i, j | 0 <= i < j < |FirstSeen(entries)| ensures FirstSeen(entries)[i] != FirstSeen(entries)[j] { SeenOnce(entries, i, j); }
  }

  /** ... in the order of their first losses: before any loss of a later one there is one of an earlier one. */
  lemma {:induction false} ActorsByFirstLoss(entries: seq<Entry>, i: nat, j: nat, y: int) returns (x: int)
    requires i < j < |FirstSeen(entries)| && y in LossesOf(entries, FirstSeen(entries)[j])
    ensures x in LossesOf(entries, FirstSeen(entries)[i]) && x < y
  {
    var front, e := entries[..|entries| - 1], entries[|entries| - 1];
    var seen := FirstSeen(front);
    assert entries == front + [e];
    LossesMore(front, e, FirstSeen(entries)[i]);
    LossesMore(front, e, FirstSeen(entries)[j]);
    if y < |front| {
      ActorsMean(front, FirstSeen(entries)[j]);
      x := ActorsByFirstLoss(front, i, j, y);
    } else {
      ActorsMean(front, FirstSeen(entries)[i]);
      assert FirstSeen(entries)[i] == seen[i];
      x :| x in LossesOf(front, seen[i]);
    }
  }

  /** How many losses each of them has. */
  ghost function LossCounts(entries: seq<Entry>): seq<real> {
    seq(|FirstSeen(entries)|, i requires 0 <= i < |FirstSeen(entries)| => |LossesOf(entries, FirstSeen(entries)[i])| as real)
  }

  lemma CountsMean(entries: seq<Entry>)
    ensures LossCounts(entries) == Reals(Counts(entries, FirstSeen(entries)))
  {
    forall i | 0 <= i < |FirstSeen(entries)| ensures LossCounts(entries)[i] == CountOf(entries, FirstSeen(entries)[i]) as real {
      CountMeans(entries, FirstSeen(entries)[i]);
    }
  }

  lemma ConfidenceFits(count: nat, mean: real, std: real, z: real)
    requires std > 0.0 && z == ZScore(count, mean, std)
    ensures 4.0 * (Confidence(z) * std) == if count as real - mean < 4.0 * std then count as real - mean else 4.0 * std
  {
    assert z * std == count as real - mean;
    ZAtLeast(count, mean, std, 4.0, z);
    assert z < 4.0 ==> 4.0 * (z / 4.0) == z;
  }

  /** An alert of one of the losing actors: with its losses, more than one and a half deviations above the mean. */
  ghost predicate Tells(entries: seq<Entry>, a: Alert, mean: real, std: real) {
    var count := |LossesOf(entries, a.actorId)| as real;
    && LossesOf(entries, a.actorId) != {} && a.count as real == count && count > mean + 1.5 * std
    && 4.0 * (a.confidence * std) == (if count - mean < 4.0 * std then count - mean else 4.0 * std)
    && SeverityFits(a.severity, count, mean, std)
  }

  lemma AlertTells(entries: seq<Entry>, actor: string, count: nat, mean: real, std: real)
    requires std > 0.0 && count == |LossesOf(entries, actor)| > 0 && count as real > mean + 1.5 * std
    ensures Tells(entries, AlertFor(actor, count, ZScore(count, mean, std)), mean, std)
  {
    var z := ZScore(count, mean, std);
    ZAbove(count, mean, std);
    AlertFits(actor, count, mean, std, z);
    ConfidenceFits(count, mean, std, z);
  }

  lemma {:induction false} AlertsTell(entries: seq<Entry>, actors: seq<string>, counts: seq<nat>, mean: real, std: real, p: nat) returns (i: nat)
    requires |actors| == |counts| && std > 0.0 && p < |Alerts(actors, counts, mean, std)|
    requires forall k :: 0 <= k < |actors| ==> counts[k] == |LossesOf(entries, actors[k])| > 0
    ensures i < |actors| && Alerts(actors, counts, mean, std)[p].actorId == actors[i]
    ensures Tells(entries, Alerts(actors, counts, mean, std)[p], mean, std)
    decreases |actors|
  {
    var k := |actors| - 1;
    if p < |Alerts(actors[..k], counts[..k], mean, std)| {
      i := AlertsTell(entries, actors[..k], counts[..k], mean, std, p);
    } else {
      ZAbove(counts[k], mean, std);
      AlertTells(entries, actors[k], counts[k], mean, std);
      i := k;
    }
  }

  /** The alerts are one for each actor with more losses than the mean and one and a half deviations, and tell them. */
  lemma AlertsMean(entries: seq<Entry>, sqrt: real -> real, actor: string, mean: real, std: real)
    requires IsSquareRoot(sqrt)
    requires LossCounts(entries) != [] ==> mean == Mean(LossCounts(entries)) && std == Deviation(LossCounts(entries), sqrt)
    ensures var alerts, losses := Fallback(entries, sqrt).alerts, LossesOf(entries, actor);
            && (forall a :: a in alerts ==> Tells(entries, a, mean, std))
            && (losses != {} && |losses| as real > mean + 1.5 * std <==> exists a :: a in alerts && a.actorId == actor)
  {
    var actors, counts, alerts := FirstSeen(entries), Counts(entries, FirstSeen(entries)), Fallback(entries, sqrt).alerts;
    CountsMean(entries);
    ActorsMean(entries, actor);
    if actors == [] { return; }
    FewOutliers(LossCounts(entries), sqrt, mean, std);
    forall k | 0 <= k < |actors| ensures counts[k] == |LossesOf(entries, actors[k])| > 0 {
      CountMeans(entries, actors[k]);
      ActorsMean(entries, actors[k]);
    }
    forall a | a in alerts ensures Tells(entries, a, mean, std) {
      var p :| 0 <= p < |alerts| && alerts[p] == a;
      var i := AlertsTell(entries, actors, counts, mean, std, p);
    }
    ReportedIffOutlier(entries, sqrt, actor, LossCounts(entries));
    CountMeans(entries, actor);
  }

  lemma {:induction false} AlertsFollowActors(actors: seq<string>, counts: seq<nat>, mean: real, std: real, p: nat, q: nat) returns (i: nat, j: nat)
    requires |actors| == |counts| && std > 0.0 && p < q < |Alerts(actors, counts, mean, std)|
    ensures i < j < |actors|
    ensures Alerts(actors, counts, mean, std)[p].actorId == actors[i] && Alerts(actors, counts, mean, std)[q].actorId == actors[j]
    decreases |actors|
  {
    var k := |actors| - 1;
    var before := Alerts(actors[..k], counts[..k], mean, std);
    if q < |before| {
      i, j := AlertsFollowActors(actors[..k], counts[..k], mean, std, p, q);
    } else {
      AlertNamesActor(actors[..k], counts[..k], mean, std, before[p]);
      i :| 0 <= i < k && actors[..k][i] == before[p].actorId;
      j := k;
    }
  }

  /** The alerts come in the order of their actors' first losses, one for an actor. */
  lemma AlertsByFirstLoss(entries: seq<Entry>, sqrt: real -> real, p: nat, q: nat, y: int) returns (x: int)
    requires IsSquareRoot(sqrt) && p < q < |Fallback(entries, sqrt).alerts|
    requires y in LossesOf(entries, Fallback(entries, sqrt).alerts[q].actorId)
    ensures x in LossesOf(entries, Fallback(entries, sqrt).alerts[p].actorId) && x < y
    ensures Fallback(entries, sqrt).alerts[p].actorId != Fallback(entries, sqrt).alerts[q].actorId
  {
    var actors, v := FirstSeen(entries), LossCounts(entries);
    CountsMean(entries);
    FewOutliers(v, sqrt, Mean(v), Deviation(v, sqrt));
    var i, j := AlertsFollowActors(actors, Counts(entries, actors), Mean(v), Deviation(v, sqrt), p, q);
    SeenOnce(entries, i, j);
    x := ActorsByFirstLoss(entries, i, j, y);
  }

  // ---------- the summary ----------

  ghost function Having(alerts: seq<Alert>, s: Severity): set<int> { set i | 0 <= i < |alerts| && alerts[i].severity == s }

  lemma HavingMore(front: seq<Alert>, a: Alert, s: Severity)
    ensures Having(front + [a], s) == Having(front, s) + if a.severity == s then {|front|} else {}
  {
    assert forall i :: 0 <= i < |front| ==> (front + [a])[i] == front[i];
  }

  lemma {:induction false} SeveritiesCounted(alerts: seq<Alert>, s: Severity)
    ensures CountSeverity(alerts, s) == |Having(alerts, s)|
  {
    if alerts == [] {
      assert Having(alerts, s) == {};
    } else {
      var k := |alerts| - 1;
      SeveritiesCounted(alerts[..k], s);
      assert alerts == alerts[..k] + [alerts[k]];
      HavingMore(alerts[..k], alerts[k], s);
    }
  }

  ghost function Confidences(alerts: seq<Alert>): seq<real> { seq(|alerts|, i requires 0 <= i < |alerts| => alerts[i].confidence) }

  lemma {:induction false} ConfidencesAdded(alerts: seq<Alert>)
    ensures TotalConfidence(alerts) == Sum(Confidences(alerts))
  {
    if alerts != [] {
      var k := |alerts| - 1;
      ConfidencesAdded(alerts[..k]);
      assert Confidences(alerts)[..k] == Confidences(alerts[..k]);
    }
  }

  /** Each total is the number of alerts of its severity, and the score is their mean confidence. */
  lemma SummaryMeans(entries: seq<Entry>, sqrt: real -> real)
    requires IsSquareRoot(sqrt)
    ensures var r := Fallback(entries, sqrt);
            && r.totalCritical == |set i | 0 <= i < |r.alerts| && r.alerts[i].severity == Critical|
            && r.totalHigh == |set i | 0 <= i < |r.alerts| && r.alerts[i].severity == High|
            && r.totalMedium == |set i | 0 <= i < |r.alerts| && r.alerts[i].severity == Medium|
            && r.totalLow == |set i | 0 <= i < |r.alerts| && r.alerts[i].severity == Low|
            && r.overallRiskScore == (if r.alerts == [] then 0.0 else Mean(Confidences(r.alerts)))
  {
    var r := Fallback(entries, sqrt);
    SeveritiesCounted(r.alerts, Critical);
    SeveritiesCounted(r.alerts, High);
    SeveritiesCounted(r.alerts, Medium);
    SeveritiesCounted(r.alerts, Low);
    ConfidencesAdded(r.alerts);
  }
}
