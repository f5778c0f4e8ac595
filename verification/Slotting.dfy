/** Slotting suggestions: `fallbackLocalHeuristic` sorts by velocity, builds a suffix-minimum
    array and uses two binary searches per item. The specification is the quadratic scan it
    replaces. Distances and quantities are exact reals. */
module Slotting {
  import opened Options
  import opened Sorting
  import opened Statistics

  datatype Coordinate = Coordinate(id: string, x: real, y: real, z: Option<real>)
  datatype Placement = Placement(sku: string, locationId: string)
  datatype Dispatch = Dispatch(sku: string, locationId: string, quantity: real)
  datatype Slot = Slot(sku: string, locationId: string, velocity: real, distance: real)
  datatype Recommendation = Recommendation(
    sku: string, currentLocationId: string, currentDistance: real, currentVelocity: real,
    recommendedLocationId: string, recommendedDistance: real, potentialSwapSku: string, estimatedSavings: real)

  function Abs(x: real): real { if x < 0.0 then -x else x }

  function Manhattan(c: Coordinate): real {
    Abs(c.x) + Abs(c.y) + 2.0 * (if c.z.Some? then Abs(c.z.value) else 0.0)
  }

  function PlaceKey(sku: string, locationId: string): string { sku + ":" + locationId }

  // ---------- what the two lookup tables hold ----------

  /** The distance of the last coordinate with this id. */
  function LastDistance(locations: seq<Coordinate>, id: string): Option<real> {
    if locations == [] then None
    else
      var last := locations[|locations| - 1];
      if last.id == id then Some(Manhattan(last)) else LastDistance(locations[..|locations| - 1], id)
  }

  /** Units dispatched under this key, signs ignored. */
  function Velocity(dispatches: seq<Dispatch>, key: string): (v: real)
    ensures v >= 0.0
  {
    if dispatches == [] then 0.0
    else
      var last := dispatches[|dispatches| - 1];
      Velocity(dispatches[..|dispatches| - 1], key)
      + if PlaceKey(last.sku, last.locationId) == key then Abs(last.quantity) else 0.0
  }

  /** A missing distance counts as 99, and so does a distance of 0 (`0 || 99`). */
  function EffectiveDistance(d: Option<real>): real {
    if d.Some? && d.value != 0.0 then d.value else 99.0
  }

  function SlotOf(p: Placement, locations: seq<Coordinate>, dispatches: seq<Dispatch>): Slot {
    Slot(p.sku, p.locationId, Velocity(dispatches, PlaceKey(p.sku, p.locationId)),
         EffectiveDistance(LastDistance(locations, p.locationId)))
  }

  function BySpeed(s: Slot): SortKey { Finite(-s.velocity) }

  function Slots(locations: seq<Coordinate>, inventory: seq<Placement>, dispatches: seq<Dispatch>): seq<Slot> {
    Map(inventory, p => SlotOf(p, locations, dispatches))
  }

  /** The sorted working list: fastest first, input order among equals. */
  function Ranked(locations: seq<Coordinate>, inventory: seq<Placement>, dispatches: seq<Dispatch>): seq<Slot> {
    StableSort(Slots(locations, inventory, dispatches), BySpeed)
  }

  // ---------- the quadratic scan ----------

  predicate Better(items: seq<Slot>, i: nat, j: nat)
    requires i < |items| && j < |items|
  {
    items[j].velocity < items[i].velocity && items[j].distance < items[i].distance
  }

  /** Scan every j below `end` and keep the last that is slower and nearer than i. */
  function NaiveTarget(items: seq<Slot>, i: nat, end: nat): Option<nat>
    requires i < |items| && end <= |items|
  {
    if end == 0 then None
    else if Better(items, i, end - 1) then Some(end - 1)
    else NaiveTarget(items, i, end - 1)
  }

  /** Distance saved there and back, for every unit of velocity. */
  function Savings(velocity: real, gap: real): real { velocity * gap * 2.0 }

  function Recommend(items: seq<Slot>, i: nat, j: nat): Recommendation
    requires i < |items| && j < |items|
  {
    Recommendation(items[i].sku, items[i].locationId, items[i].distance, items[i].velocity,
                   items[j].locationId, items[j].distance, items[j].sku,
                   Savings(items[i].velocity, items[i].distance - items[j].distance))
  }

  /** One recommendation per item among the first `n` that has a target, in list order. */
  function NaiveScan(items: seq<Slot>, n: nat): seq<Recommendation>
    requires n <= |items|
  {
    if n == 0 then []
    else
      var t := NaiveTarget(items, n - 1, |items|);
      NaiveScan(items, n - 1) + if t.Some? && t.value < |items| then [Recommend(items, n - 1, t.value)] else []
  }

  ghost predicate LastBetter(items: seq<Slot>, i: nat, j: nat)
    requires i < |items|
  {
    j < |items| && Better(items, i, j) && forall k :: j < k < |items| ==> !Better(items, i, k)
  }

  /** The scan's target is the last better index; there is none iff no item is better. */
  lemma {:induction false} NaiveTargetMeaning(items: seq<Slot>, i: nat, end: nat)
    requires i < |items| && end <= |items|
    ensures NaiveTarget(items, i, end).None? <==> forall k :: 0 <= k < end ==> !Better(items, i, k)
    ensures var t := NaiveTarget(items, i, end);
            t.Some? ==> t.value < end && Better(items, i, t.value) && forall k :: t.value < k < end ==> !Better(items, i, k)
  {
    if end > 0 && !Better(items, i, end - 1) {
      NaiveTargetMeaning(items, i, end - 1);
    }
  }

  lemma TargetUnique(items: seq<Slot>, i: nat, j: nat)
    requires i < |items| && LastBetter(items, i, j)
    ensures NaiveTarget(items, i, |items|) == Some(j)
  {
    NaiveTargetMeaning(items, i, |items|);
  }

  lemma ProductPositive(x: real, y: real)
    requires x > 0.0 && y > 0.0
    ensures Savings(x, y) > 0.0
  {
    assert x * y > 0.0;
  }

  ghost predicate FastestFirst(items: seq<Slot>) {
    (forall i :: 0 <= i < |items| ==> items[i].velocity >= 0.0) &&
    forall i, j :: 0 <= i < j < |items| ==> items[j].velocity <= items[i].velocity
  }

  lemma SortedByVelocity(slots: seq<Slot>, items: seq<Slot>)
    requires items == StableSort(slots, BySpeed)
    requires forall i :: 0 <= i < |slots| ==> slots[i].velocity >= 0.0
    ensures FastestFirst(items)
  {
    SortFacts(slots, BySpeed);
    assert Ascending(items, BySpeed);
    forall i | 0 <= i < |items| ensures items[i].velocity >= 0.0 {
      var k := SortedFrom(slots, BySpeed, i);
    }
    forall i, j | 0 <= i < j < |items| ensures items[j].velocity <= items[i].velocity {
      assert AtMost(BySpeed(items[i]), BySpeed(items[j]));
    }
  }

  lemma RankedFacts(locations: seq<Coordinate>, inventory: seq<Placement>, dispatches: seq<Dispatch>)
    ensures FastestFirst(Ranked(locations, inventory, dispatches))
  {
    SortedByVelocity(Slots(locations, inventory, dispatches), Ranked(locations, inventory, dispatches));
  }

  /** Every velocity is a sum of magnitudes, so every suggestion saves something. */
  lemma SavingsPositive(items: seq<Slot>, i: nat, j: nat)
    requires FastestFirst(items) && i < |items| && j < |items| && Better(items, i, j)
    ensures Recommend(items, i, j).estimatedSavings > 0.0
  {
    ProductPositive(items[i].velocity, items[i].distance - items[j].distance);
  }

  /** The scan recommends, for each item, its last better item, and nothing else. */
  lemma {:induction false} ScanMeaning(items: seq<Slot>, n: nat)
    requires n <= |items|
    ensures forall i, j :: 0 <= i < n && 0 <= j < |items| && LastBetter(items, i, j) ==> Recommend(items, i, j) in NaiveScan(items, n)
    ensures forall r :: r in NaiveScan(items, n) ==>
              exists i, j :: 0 <= i < n && 0 <= j < |items| && LastBetter(items, i, j) && r == Recommend(items, i, j)
  {
    if n > 0 {
      ScanMeaning(items, n - 1);
      NaiveTargetMeaning(items, n - 1, |items|);
      var t := NaiveTarget(items, n - 1, |items|);
      if t.Some? {
        assert LastBetter(items, n - 1, t.value);
        assert NaiveScan(items, n) == NaiveScan(items, n - 1) + [Recommend(items, n - 1, t.value)];
      }
      forall j | 0 <= j < |items| && LastBetter(items, n - 1, j) ensures t == Some(j) {
        TargetUnique(items, n - 1, j);
      }
    }
  }

  // ---------- the optimized code ----------

  method BuildDistances(locations: seq<Coordinate>) returns (locMap: map<string, real>)
    ensures forall id :: (id in locMap <==> LastDistance(locations, id).Some?)
                      && (id in locMap ==> LastDistance(locations, id) == Some(locMap[id]))
  {
    locMap := map[];
    for k := 0 to |locations|
      invariant forall id :: (id in locMap <==> LastDistance(locations[..k], id).Some?)
                          && (id in locMap ==> LastDistance(locations[..k], id) == Some(locMap[id]))
    {
      assert locations[..k + 1][..k] == locations[..k];
      locMap := locMap[locations[k].id := Manhattan(locations[k])];
    }
    assert locations[..|locations|] == locations;
  }

  method BuildVelocities(dispatches: seq<Dispatch>) returns (velocities: map<string, real>)
    ensures forall key :: Velocity(dispatches, key) == if key in velocities then velocities[key] else 0.0
  {
    velocities := map[];
    for k := 0 to |dispatches|
      invariant forall key :: Velocity(dispatches[..k], key) == if key in velocities then velocities[key] else 0.0
    {
      assert dispatches[..k + 1][..k] == dispatches[..k];
      var key := PlaceKey(dispatches[k].sku, dispatches[k].locationId);
      velocities := velocities[key := (if key in velocities then velocities[key] else 0.0) + Abs(dispatches[k].quantity)];
    }
    assert dispatches[..|dispatches|] == dispatches;
  }

  ghost predicate SuffixMinimum(items: seq<Slot>, minDist: seq<real>, from: nat) {
    |minDist| == |items| && forall j :: from <= j < |items| ==>
      (forall k :: j <= k < |items| ==> minDist[j] <= items[k].distance) &&
      (exists k :: j <= k < |items| && minDist[j] == items[k].distance)
  }

  method SuffixMinima(items: seq<Slot>) returns (minDist: array<real>)
    requires items != []
    ensures fresh(minDist) && SuffixMinimum(items, minDist[..], 0)
  {
    var n := |items|;
    minDist := new real[n];
    minDist[n - 1] := items[n - 1].distance;
    var j := n - 2;
    while j >= 0
      invariant -1 <= j <= n - 2
      invariant SuffixMinimum(items, minDist[..], j + 1)
    {
      assert minDist[..][j + 1] == minDist[j + 1];
      minDist[j] := if items[j].distance <= minDist[j + 1] then items[j].distance else minDist[j + 1];
      j := j - 1;
    }
  }

  /** First index above i with a strictly smaller velocity, or -1. */
  method FirstSlower(items: seq<Slot>, i: nat) returns (firstJ: int)
    requires i < |items|
    requires FastestFirst(items)
    ensures firstJ == -1 ==> forall k :: 0 <= k < |items| ==> items[k].velocity >= items[i].velocity
    ensures firstJ != -1 ==> i < firstJ < |items|
    ensures firstJ != -1 ==> forall k :: 0 <= k < |items| ==> (items[k].velocity < items[i].velocity <==> firstJ <= k)
  {
    var left, right := i + 1, |items| - 1;
    firstJ := -1;
    while left <= right
      invariant i + 1 <= left <= right + 1 <= |items|
      invariant forall k :: 0 <= k < left ==> items[k].velocity >= items[i].velocity
      invariant if firstJ == -1 then right == |items| - 1 else right == firstJ - 1
      invariant firstJ != -1 ==> i < firstJ < |items| && items[firstJ].velocity < items[i].velocity
    {
      var mid := (left + right) / 2;
      if items[mid].velocity < items[i].velocity {
        firstJ := mid;
        right := mid - 1;
      } else {
        left := mid + 1;
      }
    }
  }

  /** Largest index from firstJ on whose suffix minimum is below item i's distance, or -1. */
  method LastNearer(items: seq<Slot>, minDist: array<real>, i: nat, firstJ: nat) returns (bestJ: int)
    requires i < |items| && firstJ < |items| && SuffixMinimum(items, minDist[..], 0)
    ensures bestJ == -1 ==> forall k :: firstJ <= k < |items| ==> items[k].distance >= items[i].distance
    ensures bestJ != -1 ==> firstJ <= bestJ < |items| && items[bestJ].distance < items[i].distance
    ensures bestJ != -1 ==> forall k :: bestJ < k < |items| ==> items[k].distance >= items[i].distance
  {
    var l, r := firstJ, |items| - 1;
    bestJ := -1;
    while l <= r
      invariant firstJ <= l <= r + 1 <= |items|
      invariant forall k :: r < k < |items| ==> items[k].distance >= items[i].distance
      invariant if bestJ == -1 then l == firstJ else l == bestJ + 1
      invariant bestJ != -1 ==> firstJ <= bestJ < |items| && minDist[..][bestJ] < items[i].distance
    {
      var mid := (l + r) / 2;
      assert minDist[mid] == minDist[..][mid];
      if minDist[mid] < items[i].distance {
        bestJ := mid;
        l := mid + 1;
      } else {
        r := mid - 1;
      }
    }
    if bestJ != -1 {
      var k :| bestJ <= k < |items| && minDist[..][bestJ] == items[k].distance;
      assert k == bestJ;
    }
  }

  /** The two binary searches for one item, with the suffix-minimum test between them. */
  method BestSwap(items: seq<Slot>, minDist: array<real>, i: nat) returns (bestJ: int)
    requires i < |items| && FastestFirst(items) && SuffixMinimum(items, minDist[..], 0)
    ensures var t := NaiveTarget(items, i, |items|); if bestJ == -1 then t.None? else bestJ >= 0 && t == Some(bestJ)
  {
    NaiveTargetMeaning(items, i, |items|);
    var firstJ := FirstSlower(items, i);
    if firstJ == -1 { return -1; }
    assert minDist[firstJ] == minDist[..][firstJ];
    if minDist[firstJ] >= items[i].distance { return -1; }
    bestJ := LastNearer(items, minDist, i, firstJ);
    if bestJ != -1 {
      assert LastBetter(items, i, bestJ);
      TargetUnique(items, i, bestJ);
    }
  }

  method Suggest(from: Slot, to: Slot) returns (r: Recommendation)
    ensures r == Recommend([from, to], 0, 1)
  {
    var savings := from.velocity * (from.distance - to.distance) * 2.0;
    r := Recommendation(from.sku, from.locationId, from.distance, from.velocity, to.locationId, to.distance, to.sku, savings);
  }

  lemma RecommendPair(items: seq<Slot>, i: nat, j: nat)
    requires i < |items| && j < |items|
    ensures Recommend([items[i], items[j]], 0, 1) == Recommend(items, i, j)
  {}

  method OptimizeRanked(items: seq<Slot>) returns (suggestions: seq<Recommendation>)
    requires FastestFirst(items)
    ensures suggestions == NaiveScan(items, |items|)
  {
    suggestions := [];
    var n := |items|;
    if n == 0 { return; }
    var minDist := SuffixMinima(items);
    for i := 0 to n
      invariant suggestions == NaiveScan(items, i)
      invariant SuffixMinimum(items, minDist[..], 0)
    {
      NaiveTargetMeaning(items, i, n);
      var bestJ := BestSwap(items, minDist, i);
      if bestJ == -1 { continue; }
      var suggestion := Suggest(items[i], items[bestJ]);
      RecommendPair(items, i, bestJ);
      suggestions := suggestions + [suggestion];
    }
  }

  // ---------- what a suggestion says of the inputs ----------

  /** What each dispatch adds to the units moved from a place. */
  ghost function Contributions(dispatches: seq<Dispatch>, sku: string, locationId: string): seq<real> {
    seq(|dispatches|, k requires 0 <= k < |dispatches| =>
      var d := dispatches[k];
      if d.sku + ":" + d.locationId != sku + ":" + locationId then 0.0 else if d.quantity >= 0.0 then d.quantity else -d.quantity)
  }

  /** All units dispatched of a record's SKU at its location. */
  ghost function Units(dispatches: seq<Dispatch>, p: Placement): real { Sum(Contributions(dispatches, p.sku, p.locationId)) }

  /** |x| + |y| + 2 |z| of the last coordinate with this id; 99 when there is none or that is 0. */
  ghost predicate IsDistance(locations: seq<Coordinate>, id: string, d: real) {
    if forall k :: 0 <= k < |locations| ==> locations[k].id != id then d == 99.0
    else exists k :: IsLast(locations, id, k) && IsDistanceOf(locations[k], d)
  }

  ghost predicate IsLast(locations: seq<Coordinate>, id: string, k: int) {
    0 <= k < |locations| && locations[k].id == id && forall m :: k < m < |locations| ==> locations[m].id != id
  }

  ghost predicate IsDistanceOf(c: Coordinate, d: real) {
    var x, y := if c.x >= 0.0 then c.x else -c.x, if c.y >= 0.0 then c.y else -c.y;
    var z := if c.z == None then 0.0 else if c.z.value >= 0.0 then c.z.value else -c.z.value;
    d == if x + y + z + z == 0.0 then 99.0 else x + y + z + z
  }

  /** The way out and back, once for every unit. */
  ghost function RoundTrips(units: real, way: real): real { units * (way + way) }

  /** The suggestion to move what record a holds to where record b is. */
  ghost predicate Moves(r: Recommendation, locations: seq<Coordinate>, dispatches: seq<Dispatch>, a: Placement, b: Placement) {
    && r.sku == a.sku && r.currentLocationId == a.locationId && r.potentialSwapSku == b.sku && r.recommendedLocationId == b.locationId
    && IsDistance(locations, a.locationId, r.currentDistance) && IsDistance(locations, b.locationId, r.recommendedDistance)
    && r.currentVelocity == Units(dispatches, a) && Units(dispatches, b) < Units(dispatches, a)
    && r.recommendedDistance < r.currentDistance
    && r.estimatedSavings == RoundTrips(Units(dispatches, a), r.currentDistance - r.recommendedDistance)
  }

  /** Record b is slower than record a, and nearer. */
  ghost predicate SlowerAndNearer(locations: seq<Coordinate>, dispatches: seq<Dispatch>, a: Placement, b: Placement) {
    Units(dispatches, b) < Units(dispatches, a) &&
    exists near, far :: IsDistance(locations, b.locationId, near) && IsDistance(locations, a.locationId, far) && near < far
  }

  lemma {:induction false} VelocityIsUnits(dispatches: seq<Dispatch>, p: Placement)
    ensures Velocity(dispatches, PlaceKey(p.sku, p.locationId)) == Units(dispatches, p)
  {
    if dispatches != [] {
      var n := |dispatches| - 1;
      VelocityIsUnits(dispatches[..n], p);
      var c := Contributions(dispatches, p.sku, p.locationId);
      assert c[..n] == Contributions(dispatches[..n], p.sku, p.locationId);
    }
  }

  lemma OneMoreCoordinate(front: seq<Coordinate>, c: Coordinate, id: string, d: real)
    requires if c.id == id then IsDistanceOf(c, d) else IsDistance(front, id, d)
    ensures IsDistance(front + [c], id, d)
  {
    var all, n := front + [c], |front|;
    if c.id == id {
      assert IsLast(all, id, n);
    } else if exists k :: 0 <= k < n && front[k].id == id {
      var k :| IsLast(front, id, k) && IsDistanceOf(front[k], d);
      assert IsLast(all, id, k) && all[k] == front[k];
    }
  }

  lemma {:induction false} LastCoordinate(locations: seq<Coordinate>, id: string)
    ensures IsDistance(locations, id, EffectiveDistance(LastDistance(locations, id)))
  {
    if locations != [] {
      var front, c := locations[..|locations| - 1], locations[|locations| - 1];
      LastCoordinate(front, id);
      assert locations == front + [c];
      OneMoreCoordinate(front, c, id, EffectiveDistance(LastDistance(locations, id)));
    }
  }

  lemma OneDistance(locations: seq<Coordinate>, id: string, d: real, e: real)
    requires IsDistance(locations, id, d) && IsDistance(locations, id, e)
    ensures d == e
  {
    if exists k :: 0 <= k < |locations| && locations[k].id == id {
      var k :| IsLast(locations, id, k) && IsDistanceOf(locations[k], d);
      var m :| IsLast(locations, id, m) && IsDistanceOf(locations[m], e);
      assert k == m;
    }
  }

  ghost predicate Holds(s: Slot, p: Placement, locations: seq<Coordinate>, dispatches: seq<Dispatch>) {
    s.sku == p.sku && s.locationId == p.locationId && s.velocity == Units(dispatches, p) && IsDistance(locations, p.locationId, s.distance)
  }

  /** A slot of the working list holds what the inputs say of its record. */
  lemma SlotMeaning(p: Placement, locations: seq<Coordinate>, dispatches: seq<Dispatch>)
    ensures Holds(SlotOf(p, locations, dispatches), p, locations, dispatches)
  {
    VelocityIsUnits(dispatches, p);
    LastCoordinate(locations, p.locationId);
  }

  lemma TwiceTheGap(velocity: real, gap: real)
    ensures Savings(velocity, gap) == RoundTrips(velocity, gap)
  {}

  lemma NearerMeaning(locations: seq<Coordinate>, dispatches: seq<Dispatch>, a: Placement, b: Placement, far: real, near: real)
    requires IsDistance(locations, a.locationId, far) && IsDistance(locations, b.locationId, near)
    ensures SlowerAndNearer(locations, dispatches, a, b) <==> Units(dispatches, b) < Units(dispatches, a) && near < far
  {
    if SlowerAndNearer(locations, dispatches, a, b) {
      var n, f :| IsDistance(locations, b.locationId, n) && IsDistance(locations, a.locationId, f) && n < f;
      OneDistance(locations, b.locationId, n, near);
      OneDistance(locations, a.locationId, f, far);
    }
  }

  lemma MovesMeaning(r: Recommendation, locations: seq<Coordinate>, dispatches: seq<Dispatch>, a: Placement, b: Placement,
                     units: real, far: real, near: real)
    requires r == Recommendation(a.sku, a.locationId, far, units, b.locationId, near, b.sku, Savings(units, far - near))
    requires IsDistance(locations, a.locationId, far) && IsDistance(locations, b.locationId, near) && near < far
    requires units == Units(dispatches, a) && Units(dispatches, b) < units
    ensures Moves(r, locations, dispatches, a, b)
  {
    TwiceTheGap(units, far - near);
  }

  lemma BetterMeaning(locations: seq<Coordinate>, dispatches: seq<Dispatch>, a: Placement, b: Placement, items: seq<Slot>, i: nat, j: nat)
    requires i < |items| && j < |items|
    requires items[i] == SlotOf(a, locations, dispatches) && items[j] == SlotOf(b, locations, dispatches)
    ensures Better(items, i, j) <==> SlowerAndNearer(locations, dispatches, a, b)
  {
    SlotMeaning(a, locations, dispatches);
    SlotMeaning(b, locations, dispatches);
    NearerMeaning(locations, dispatches, a, b, items[i].distance, items[j].distance);
  }

  lemma SlotsMove(locations: seq<Coordinate>, dispatches: seq<Dispatch>, a: Placement, b: Placement, s: Slot, t: Slot, gap: real, r: Recommendation)
    requires Holds(s, a, locations, dispatches) && Holds(t, b, locations, dispatches)
    requires t.velocity < s.velocity && t.distance < s.distance && gap == s.distance - t.distance
    requires r == Recommendation(s.sku, s.locationId, s.distance, s.velocity, t.locationId, t.distance, t.sku, Savings(s.velocity, gap))
    ensures Moves(r, locations, dispatches, a, b)
  {
    MovesMeaning(r, locations, dispatches, a, b, s.velocity, s.distance, t.distance);
  }

  lemma RecommendMeaning(locations: seq<Coordinate>, dispatches: seq<Dispatch>, a: Placement, b: Placement, items: seq<Slot>, i: nat, j: nat)
    requires i < |items| && j < |items| && Better(items, i, j)
    requires items[i] == SlotOf(a, locations, dispatches) && items[j] == SlotOf(b, locations, dispatches)
    ensures Moves(Recommend(items, i, j), locations, dispatches, a, b)
  {
    SlotMeaning(a, locations, dispatches);
    SlotMeaning(b, locations, dispatches);
    SlotsMove(locations, dispatches, a, b, items[i], items[j], items[i].distance - items[j].distance, Recommend(items, i, j));
  }

  lemma RecordOf(locations: seq<Coordinate>, inventory: seq<Placement>, dispatches: seq<Dispatch>, i: nat) returns (a: nat)
    requires i < |Ranked(locations, inventory, dispatches)|
    ensures a < |inventory| && Ranked(locations, inventory, dispatches)[i] == SlotOf(inventory[a], locations, dispatches)
  {
    a := SortedFrom(Slots(locations, inventory, dispatches), BySpeed, i);
  }

  lemma RankOf(locations: seq<Coordinate>, inventory: seq<Placement>, dispatches: seq<Dispatch>, a: nat) returns (i: nat)
    requires a < |inventory|
    ensures i < |Ranked(locations, inventory, dispatches)|
    ensures Ranked(locations, inventory, dispatches)[i] == SlotOf(inventory[a], locations, dispatches)
  {
    i := SortedTo(Slots(locations, inventory, dispatches), BySpeed, a);
  }

  lemma LastIsSlowest(items: seq<Slot>, i: nat, j: nat, k: nat)
    requires FastestFirst(items) && i < |items| && k < |items| && LastBetter(items, i, j) && Better(items, i, k)
    ensures items[j].velocity <= items[k].velocity
  {}

  lemma SlowestMeaning(locations: seq<Coordinate>, inventory: seq<Placement>, dispatches: seq<Dispatch>, i: nat, j: nat, a: nat, b: nat, c: nat)
    requires i < |Ranked(locations, inventory, dispatches)| && LastBetter(Ranked(locations, inventory, dispatches), i, j)
    requires a < |inventory| && b < |inventory| && c < |inventory|
    requires Ranked(locations, inventory, dispatches)[i] == SlotOf(inventory[a], locations, dispatches)
    requires Ranked(locations, inventory, dispatches)[j] == SlotOf(inventory[b], locations, dispatches)
    requires SlowerAndNearer(locations, dispatches, inventory[a], inventory[c])
    ensures Units(dispatches, inventory[b]) <= Units(dispatches, inventory[c])
  {
    var items := Ranked(locations, inventory, dispatches);
    var k := RankOf(locations, inventory, dispatches, c);
    BetterMeaning(locations, dispatches, inventory[a], inventory[c], items, i, k);
    VelocityIsUnits(dispatches, inventory[b]);
    VelocityIsUnits(dispatches, inventory[c]);
    RankedFacts(locations, inventory, dispatches);
    LastIsSlowest(items, i, j, k);
  }

  ghost predicate SuggestsSlowest(r: Recommendation, locations: seq<Coordinate>, inventory: seq<Placement>, dispatches: seq<Dispatch>, a: nat, b: nat) {
    && a < |inventory| && b < |inventory| && Moves(r, locations, dispatches, inventory[a], inventory[b])
    && forall c :: 0 <= c < |inventory| && SlowerAndNearer(locations, dispatches, inventory[a], inventory[c]) ==>
         Units(dispatches, inventory[b]) <= Units(dispatches, inventory[c])
  }

  /** Each suggestion moves one record to the slowest of the slower and nearer ones. */
  lemma SuggestionMeans(locations: seq<Coordinate>, inventory: seq<Placement>, dispatches: seq<Dispatch>, r: Recommendation)
      returns (a: nat, b: nat)
    requires r in NaiveScan(Ranked(locations, inventory, dispatches), |inventory|)
    ensures SuggestsSlowest(r, locations, inventory, dispatches, a, b)
  {
    var items := Ranked(locations, inventory, dispatches);
    ScanMeaning(items, |items|);
    var i, j :| 0 <= i < |items| && 0 <= j < |items| && LastBetter(items, i, j) && r == Recommend(items, i, j);
    a := RecordOf(locations, inventory, dispatches, i);
    b := RecordOf(locations, inventory, dispatches, j);
    RecommendMeaning(locations, dispatches, inventory[a], inventory[b], items, i, j);
    forall c | 0 <= c < |inventory| && SlowerAndNearer(locations, dispatches, inventory[a], inventory[c])
      ensures Units(dispatches, inventory[b]) <= Units(dispatches, inventory[c])
    {
      SlowestMeaning(locations, inventory, dispatches, i, j, a, b, c);
    }
  }

  /** Every record that has a slower and nearer one gets a suggestion. */
  lemma SlowerIsSuggested(locations: seq<Coordinate>, inventory: seq<Placement>, dispatches: seq<Dispatch>, a: nat, b: nat)
      returns (r: Recommendation)
    requires a < |inventory| && b < |inventory| && SlowerAndNearer(locations, dispatches, inventory[a], inventory[b])
    ensures r in NaiveScan(Ranked(locations, inventory, dispatches), |inventory|)
    ensures r.sku == inventory[a].sku && r.currentLocationId == inventory[a].locationId
  {
    var items := Ranked(locations, inventory, dispatches);
    var i := RankOf(locations, inventory, dispatches, a);
    var j := RankOf(locations, inventory, dispatches, b);
    BetterMeaning(locations, dispatches, inventory[a], inventory[b], items, i, j);
    NaiveTargetMeaning(items, i, |items|);
    var t := NaiveTarget(items, i, |items|).value;
    assert LastBetter(items, i, t);
    ScanMeaning(items, |items|);
    r := Recommend(items, i, t);
    SlotMeaning(inventory[a], locations, dispatches);
  }

  /** The fast form computes exactly the quadratic scan of the velocity-sorted list. */
  method FallbackLocalHeuristic(locations: seq<Coordinate>, inventory: seq<Placement>, dispatches: seq<Dispatch>)
    returns (suggestions: seq<Recommendation>)
    ensures suggestions == NaiveScan(Ranked(locations, inventory, dispatches), |inventory|)
    ensures forall i: nat, j: nat :: i < |inventory| && j < |inventory| && LastBetter(Ranked(locations, inventory, dispatches), i, j)
              ==> Recommend(Ranked(locations, inventory, dispatches), i, j) in suggestions
    ensures forall r :: r in suggestions ==> r.estimatedSavings > 0.0
    ensures forall r :: r in suggestions ==> exists a: nat, b: nat :: SuggestsSlowest(r, locations, inventory, dispatches, a, b)
    ensures forall a, b :: 0 <= a < |inventory| && 0 <= b < |inventory| && SlowerAndNearer(locations, dispatches, inventory[a], inventory[b]) ==>
              exists r :: r in suggestions && r.sku == inventory[a].sku && r.currentLocationId == inventory[a].locationId
  {
    var locMap := BuildDistances(locations);
    var velocities := BuildVelocities(dispatches);
    var slots := Map(inventory, (p: Placement) =>
      var key := PlaceKey(p.sku, p.locationId);
      Slot(p.sku, p.locationId, if key in velocities then velocities[key] else 0.0,
           EffectiveDistance(if p.locationId in locMap then Some(locMap[p.locationId]) else None)));
    assert slots == Slots(locations, inventory, dispatches);
    var items := StableSort(slots, BySpeed);
    RankedFacts(locations, inventory, dispatches);
    suggestions := OptimizeRanked(items);
    forall r | r in suggestions ensures exists a: nat, b: nat :: SuggestsSlowest(r, locations, inventory, dispatches, a, b) {
      var a, b := SuggestionMeans(locations, inventory, dispatches, r);
    }
    forall a, b | 0 <= a < |inventory| && 0 <= b < |inventory| && SlowerAndNearer(locations, dispatches, inventory[a], inventory[b])
      ensures exists r :: r in suggestions && r.sku == inventory[a].sku && r.currentLocationId == inventory[a].locationId
    {
      var r := SlowerIsSuggested(locations, inventory, dispatches, a, b);
    }
    ScanMeaning(items, |items|);
    forall r | r in suggestions ensures r.estimatedSavings > 0.0 {
      var i, j :| 0 <= i < |items| && 0 <= j < |items| && LastBetter(items, i, j) && r == Recommend(items, i, j);
      SavingsPositive(items, i, j);
    }
  }
}
