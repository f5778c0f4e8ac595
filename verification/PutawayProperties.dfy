/** What a putaway suggestion promises, and what the rounding guard can and cannot do. */
module PutawayProperties {
  import opened Options
  import opened Putaway

  // ---------- ranking ----------

  ghost predicate InOrder(s: seq<Candidate>) {
    forall i, j :: 0 <= i < j < |s| ==>
      s[i].score >= s[j].score && (s[i].score == s[j].score ==> s[i].remainingWeight >= s[j].remainingWeight)
  }

  lemma {:induction false} InsertPermutes(c: Candidate, s: seq<Candidate>)
    ensures multiset(Insert(c, s)) == multiset{c} + multiset(s)
  {
    if s != [] && !Precedes(c, s[0]) {
      InsertPermutes(c, s[1..]);
      assert s == [s[0]] + s[1..];
    }
  }

  lemma InOrderTail(first: Candidate, rest: seq<Candidate>)
    requires InOrder(rest)
    requires forall j :: 0 <= j < |rest| ==>
      first.score >= rest[j].score && (first.score == rest[j].score ==> first.remainingWeight >= rest[j].remainingWeight)
    ensures InOrder([first] + rest)
  {}

  lemma {:induction false} InsertInOrder(c: Candidate, s: seq<Candidate>)
    requires InOrder(s)
    ensures InOrder(Insert(c, s))
  {
    if s == [] || Precedes(c, s[0]) {
      InOrderTail(c, s);
    } else {
      InsertInOrder(c, s[1..]);
      InsertPermutes(c, s[1..]);
      var r := Insert(c, s[1..]);
      forall j | 0 <= j < |r|
        ensures s[0].score >= r[j].score && (s[0].score == r[j].score ==> s[0].remainingWeight >= r[j].remainingWeight)
      {
        assert r[j] in multiset(r);
        if r[j] != c { assert r[j] in s[1..]; }
      }
      InOrderTail(s[0], r);
    }
  }

  /** Ranking reorders the candidates by score, then by remaining weight, and loses none. */
  lemma {:induction false} RankedFacts(s: seq<Candidate>)
    ensures InOrder(Ranked(s)) && multiset(Ranked(s)) == multiset(s)
  {
    if s != [] {
      RankedFacts(s[1..]);
      InsertPermutes(s[0], Ranked(s[1..]));
      InsertInOrder(s[0], Ranked(s[1..]));
      assert s == [s[0]] + s[1..];
    }
  }

  // ---------- capacity in units ----------

  /** Units the candidates take in all; None without limit. */
  function Capacity(v: Variant, candidates: seq<Candidate>): Option<int> {
    if candidates == [] then Some(0)
    else
      Plus(Capacity(v, candidates[..|candidates| - 1]), Room(v, candidates[|candidates| - 1]))
  }

  function Room(v: Variant, c: Candidate): Option<int> {
    if Units(v, c).Some? && Units(v, c).value < 0 then Some(0) else Units(v, c)
  }

  function Plus(a: Option<int>, b: Option<int>): Option<int> {
    if a.Some? && b.Some? then Some(a.value + b.value) else None
  }

  lemma {:induction false} CapacityJoin(v: Variant, a: seq<Candidate>, b: seq<Candidate>)
    ensures Capacity(v, a + b) == Plus(Capacity(v, a), Capacity(v, b))
  {
    if b == [] {
      assert a + b == a;
    } else {
      CapacityJoin(v, a, b[..|b| - 1]);
      assert (a + b)[..|a + b| - 1] == a + b[..|b| - 1];
    }
  }

  lemma CapacityFirst(v: Variant, s: seq<Candidate>)
    requires s != []
    ensures Capacity(v, s) == Plus(Room(v, s[0]), Capacity(v, s[1..]))
  {
    assert s == [s[0]] + s[1..] && [s[0]][..0] == [];
    CapacityJoin(v, [s[0]], s[1..]);
  }

  lemma {:induction false} CapacityInsert(v: Variant, c: Candidate, s: seq<Candidate>)
    ensures Capacity(v, Insert(c, s)) == Plus(Room(v, c), Capacity(v, s))
  {
    CapacityFirst(v, Insert(c, s));
    if s == [] || Precedes(c, s[0]) {
      assert Insert(c, s)[1..] == s;
    } else {
      CapacityInsert(v, c, s[1..]);
      CapacityFirst(v, s);
      assert Insert(c, s)[1..] == Insert(c, s[1..]);
    }
  }

  lemma {:induction false} CapacityRanked(v: Variant, s: seq<Candidate>)
    ensures Capacity(v, Ranked(s)) == Capacity(v, s)
  {
    if s != [] {
      CapacityRanked(v, s[1..]);
      CapacityInsert(v, s[0], Ranked(s[1..]));
      CapacityFirst(v, s);
    }
  }

  // ---------- the fill ----------

  function Allocated(list: seq<Recommendation>): int {
    if list == [] then 0 else Allocated(list[..|list| - 1]) + list[|list| - 1].quantity
  }

  /** The fill allocates all it can, up to the quantity. */
  lemma {:induction false} FillTotal(v: Variant, candidates: seq<Candidate>, quantity: int)
    requires quantity > 0
    ensures var f, room := Fill(v, candidates, quantity), Capacity(v, candidates);
            && Allocated(f.list) + f.missing == quantity
            && (room.Some? ==> room.value >= 0)
            && f.missing == if room.Some? && room.value < quantity then quantity - room.value else 0
  {
    if candidates != [] {
      FillTotal(v, candidates[..|candidates| - 1], quantity);
    }
  }

  lemma ShareOfRoom(v: Variant, c: Candidate, missing: int)
    requires missing > 0
    ensures var n, room := Share(v, c, missing), Room(v, c);
            0 <= n && (room.Some? ==> n <= room.value) && (n < missing ==> room == Some(n))
  {}

  /** A recommendation for a candidate: some of what it can take, and all of it when `whole`. */
  ghost predicate Serves(v: Variant, c: Candidate, r: Recommendation, whole: bool) {
    && r == Recommend(v, c, r.quantity) && 0 < r.quantity
    && (Room(v, c).Some? ==> r.quantity <= Room(v, c).value)
    && (whole ==> Room(v, c) == Some(r.quantity))
  }

  /** Where the i-th recommendation comes from; only the last one can leave room behind. */
  lemma {:induction false} FillItem(v: Variant, candidates: seq<Candidate>, quantity: int, i: nat) returns (j: nat)
    requires quantity > 0 && i < |Fill(v, candidates, quantity).list|
    ensures j < |candidates|
    ensures var f := Fill(v, candidates, quantity);
            Serves(v, candidates[j], f.list[i], f.missing > 0 || i + 1 < |f.list|)
  {
    var front, n := candidates[..|candidates| - 1], |candidates| - 1;
    var before := Fill(v, front, quantity);
    FillTotal(v, front, quantity);
    if before.missing > 0 { ShareOfRoom(v, candidates[n], before.missing); }
    if i < |before.list| {
      j := FillItem(v, front, quantity, i);
    } else {
      j := n;
    }
  }

  lemma {:induction false} FillAscends(v: Variant, candidates: seq<Candidate>, quantity: int, i: nat, k: nat) returns (x: nat, y: nat)
    requires quantity > 0 && i < k < |Fill(v, candidates, quantity).list|
    ensures x < y < |candidates|
    ensures Fill(v, candidates, quantity).list[i].locationId == candidates[x].location.id
    ensures Fill(v, candidates, quantity).list[k].locationId == candidates[y].location.id
  {
    var front := candidates[..|candidates| - 1];
    if k < |Fill(v, front, quantity).list| {
      x, y := FillAscends(v, front, quantity, i, k);
    } else {
      x := FillItem(v, front, quantity, i);
      y := |front|;
    }
  }

  // ---------- candidates and locations ----------

  ghost predicate DistinctIds(s: seq<Location>) { forall i, j :: 0 <= i < j < |s| ==> s[i].id != s[j].id }

  lemma {:induction false} CompatibleItem(p: Profile, all: seq<Location>, i: nat) returns (j: nat)
    requires i < |CompatibleLocations(p, all)|
    ensures j < |all| && all[j] == CompatibleLocations(p, all)[i] && Compatible(p, all[j])
  {
    var front := all[..|all| - 1];
    if i < |CompatibleLocations(p, front)| { j := CompatibleItem(p, front, i); } else { j := |front|; }
  }

  lemma {:induction false} CompatibleDistinct(p: Profile, all: seq<Location>)
    requires DistinctIds(all)
    ensures DistinctIds(CompatibleLocations(p, all))
  {
    if all != [] {
      var front := all[..|all| - 1];
      CompatibleDistinct(p, front);
      var s, n := CompatibleLocations(p, all), |CompatibleLocations(p, front)|;
      forall i | 0 <= i < n && n < |s| ensures s[i].id != s[n].id { var j := CompatibleItem(p, front, i); }
    }
  }

  lemma {:induction false} EligibleItem(p: Profile, locations: seq<Location>, items: seq<Item>, variants: map<string, Variant>, i: nat)
      returns (j: nat)
    requires i < |Eligible(p, locations, items, variants)|
    ensures j < |locations|
    ensures var c := Eligible(p, locations, items, variants)[i];
            c == CandidateAt(p, locations[j], Occupied(items, variants, locations[j].id)) && HasRoom(c)
  {
    var front := locations[..|locations| - 1];
    if i < |Eligible(p, front, items, variants)| { j := EligibleItem(p, front, items, variants, i); } else { j := |front|; }
  }

  ghost predicate DistinctPlaces(s: seq<Candidate>) {
    forall i, j :: 0 <= i < j < |s| ==> s[i].location.id != s[j].location.id
  }

  lemma {:induction false} EligibleDistinct(p: Profile, locations: seq<Location>, items: seq<Item>, variants: map<string, Variant>)
    requires DistinctIds(locations)
    ensures DistinctPlaces(Eligible(p, locations, items, variants))
  {
    if locations != [] {
      var front := locations[..|locations| - 1];
      EligibleDistinct(p, front, items, variants);
      var s, n := Eligible(p, locations, items, variants), |Eligible(p, front, items, variants)|;
      forall i | 0 <= i < n && n < |s| ensures s[i].location.id != s[n].location.id {
        var j := EligibleItem(p, front, items, variants, i);
      }
    }
  }

  lemma {:induction false} InsertDistinct(c: Candidate, s: seq<Candidate>)
    requires DistinctPlaces(s) && forall i :: 0 <= i < |s| ==> s[i].location.id != c.location.id
    ensures DistinctPlaces(Insert(c, s))
  {
    if s == [] || Precedes(c, s[0]) {
    } else {
      InsertDistinct(c, s[1..]);
      InsertPermutes(c, s[1..]);
      var r := Insert(c, s[1..]);
      forall i | 0 <= i < |r| ensures r[i].location.id != s[0].location.id {
        assert r[i] in multiset(r);
        if r[i] != c { assert r[i] in s[1..]; }
      }
    }
  }

  lemma {:induction false} RankedDistinct(s: seq<Candidate>)
    requires DistinctPlaces(s)
    ensures DistinctPlaces(Ranked(s))
  {
    if s != [] {
      RankedDistinct(s[1..]);
      RankedFacts(s[1..]);
      forall i | 0 <= i < |Ranked(s[1..])| ensures Ranked(s[1..])[i].location.id != s[0].location.id {
        assert Ranked(s[1..])[i] in multiset(Ranked(s[1..]));
        assert Ranked(s[1..])[i] in s[1..];
      }
      InsertDistinct(s[0], Ranked(s[1..]));
    }
  }

  // ---------- the suggestion ----------

  /** When some location is compatible, the suggestion succeeds exactly when the units that fit the locations
      with room add up to the quantity, in whatever order they are tried; when none is, it is empty. */
  lemma SucceedsIffEnough(v: Variant, p: Profile, all: seq<Location>, items: seq<Item>, variants: map<string, Variant>, quantity: int)
    requires quantity > 0
    ensures var r := Suggestion(Some(v), p, all, items, variants, quantity);
            var locations := CompatibleLocations(p, all);
            var capacity := Capacity(v, Eligible(p, locations, items, variants));
            && (locations == [] ==> r == Recommended([]))
            && (locations != [] ==> (r.Recommended? <==> capacity.None? || capacity.value >= quantity))
            && (!r.Recommended? ==> r == InsufficientCapacity)
  {
    var eligible := Eligible(p, CompatibleLocations(p, all), items, variants);
    FillTotal(v, Ranked(eligible), quantity);
    CapacityRanked(v, eligible);
  }

  lemma RankedItem(p: Profile, all: seq<Location>, items: seq<Item>, variants: map<string, Variant>, j: nat) returns (k: nat)
    requires j < |Ranked(Eligible(p, CompatibleLocations(p, all), items, variants))|
    ensures k < |all| && Compatible(p, all[k])
    ensures var c := Ranked(Eligible(p, CompatibleLocations(p, all), items, variants))[j];
            c == CandidateAt(p, all[k], Occupied(items, variants, all[k].id)) && HasRoom(c)
  {
    var locations := CompatibleLocations(p, all);
    var eligible := Eligible(p, locations, items, variants);
    RankedFacts(eligible);
    assert Ranked(eligible)[j] in multiset(Ranked(eligible));
    var i :| 0 <= i < |eligible| && eligible[i] == Ranked(eligible)[j];
    var x := EligibleItem(p, locations, items, variants, i);
    k := CompatibleItem(p, all, x);
  }

  /** It reports the room at the location before, less what it allocates. */
  ghost predicate Reports(v: Variant, l: Location, used: Occupancy, r: Recommendation) {
    && r.locationId == l.id
    && r.remainingWeightGrams == l.maxWeightGrams - used.weight - r.quantity as real * v.weightGrams
    && r.remainingVolumeCubicMeters == l.maxVolumeCubicMeters - used.volume - r.quantity as real * v.volumeCubicMeters
  }

  lemma ReportsRoom(v: Variant, p: Profile, l: Location, used: Occupancy, r: Recommendation, whole: bool)
    requires Serves(v, CandidateAt(p, l, used), r, whole)
    ensures Reports(v, l, used, r)
  {}

  /** A recommendation names a location the zone rules allow, never more than fits there, and the room it
      reports is the room before less what it allocates. */
  lemma RecommendationIsLegal(v: Variant, p: Profile, all: seq<Location>, items: seq<Item>, variants: map<string, Variant>,
                              quantity: int, list: seq<Recommendation>, i: nat) returns (k: nat)
    requires quantity > 0 && Suggestion(Some(v), p, all, items, variants, quantity) == Recommended(list) && i < |list|
    ensures k < |all| && Compatible(p, all[k])
    ensures var used := Occupied(items, variants, all[k].id);
            var c := CandidateAt(p, all[k], used);
            HasRoom(c) && Serves(v, c, list[i], i + 1 < |list|) && Reports(v, all[k], used, list[i])
  {
    var ranked := Ranked(Eligible(p, CompatibleLocations(p, all), items, variants));
    assert Fill(v, ranked, quantity).list == list && Fill(v, ranked, quantity).missing <= 0;
    var j := FillItem(v, ranked, quantity, i);
    k := RankedItem(p, all, items, variants, j);
    ReportsRoom(v, p, all[k], Occupied(items, variants, all[k].id), list[i], i + 1 < |list|);
  }

  /** The recommendations add up to the quantity, over distinct locations. */
  lemma RecommendationsAreExact(v: Variant, p: Profile, all: seq<Location>, items: seq<Item>, variants: map<string, Variant>,
                                quantity: int, list: seq<Recommendation>)
    requires quantity > 0 && DistinctIds(all) && CompatibleLocations(p, all) != []
    requires Suggestion(Some(v), p, all, items, variants, quantity) == Recommended(list)
    ensures Allocated(list) == quantity
    ensures forall i, j :: 0 <= i < j < |list| ==> list[i].locationId != list[j].locationId
  {
    var locations := CompatibleLocations(p, all);
    var eligible := Eligible(p, locations, items, variants);
    FillTotal(v, Ranked(eligible), quantity);
    CompatibleDistinct(p, all);
    EligibleDistinct(p, locations, items, variants);
    RankedDistinct(eligible);
    forall i, j | 0 <= i < j < |list| ensures list[i].locationId != list[j].locationId {
      var x, y := FillAscends(v, Ranked(eligible), quantity, i, j);
    }
  }

  // ---------- the rounding guard ----------

  lemma FloorBound(x: real, n: int)
    ensures x.Floor < n <==> x < n as real
  {}

  /** The guard counts fewer than n units exactly when the quotient is below n - 0.000005. */
  lemma GuardBelow(x: real, n: int)
    ensures ToFixed5(x).Floor < n <==> x < n as real - 0.000005
  {
    var scaled := x * 100000.0 + 0.5;
    FloorBound(ToFixed5(x), n);
    FloorBound(scaled, 100000 * n);
    assert ToFixed5(x) * 100000.0 == scaled.Floor as real;
    assert (100000 * n) as real == 100000.0 * n as real;
  }

  lemma QuotientAgainst(r: real, w: real, n: real)
    requires w > 0.0
    ensures r / w < n <==> r < n * w
  {
    assert r / w * w == r;
    if r / w < n { assert r / w * w < n * w; } else { assert r / w * w >= n * w; }
  }

  /** Counted units fit up to 0.000005 of one unit, and the guard never counts fewer than truly fit. */
  lemma GuardIsClose(remaining: real, unit: real, n: int)
    requires unit > 0.0
    ensures n <= Fit(remaining, unit).value ==> n as real * unit <= remaining + 0.000005 * unit
    ensures n as real * unit <= remaining ==> n <= Fit(remaining, unit).value
  {
    var x, bound := remaining / unit, n as real - 0.000005;
    GuardBelow(x, n);
    QuotientAgainst(remaining, unit, bound);
    QuotientAgainst(remaining, unit, n as real);
    assert bound * unit == n as real * unit - 0.000005 * unit;
  }

  /** n units are counted as fitting where they weigh more than is left. */
  predicate Overfills(grams: int, unit: int, n: int)
    requires unit > 0
  {
    grams > 0 && n <= Fit(grams as real, unit as real).value && n * unit > grams
  }

  /** With whole grams the guard is exact for every load exactly when a unit weighs less than 200 kg: from
      there on, a location one gram short of a unit is counted as fitting it. */
  lemma GramGuardIff(unit: int)
    requires unit > 0
    ensures (forall grams: int, n: int :: !Overfills(grams, unit, n)) <==> unit < 200000
  {
    if unit < 200000 {
      forall grams: int, n: int ensures !Overfills(grams, unit, n) {
        if grams > 0 && n <= Fit(grams as real, unit as real).value { GramsFit(grams, unit, n); }
      }
    } else {
      var grams := unit - 1;
      GuardBelow(grams as real / unit as real, 1);
      QuotientAgainst(grams as real, unit as real, 1.0 - 0.000005);
      assert Overfills(grams, unit, 1);
    }
  }

  lemma GramsFit(grams: int, unit: int, n: int)
    requires 0 < unit < 200000 && n <= Fit(grams as real, unit as real).value
    ensures n * unit <= grams
  {
    GuardIsClose(grams as real, unit as real, n);
    assert n as real * unit as real == (n * unit) as real;
  }

  predicate Whole(x: real) { x == x.Floor as real }

  lemma WholeInt(n: int, x: real)
    requires x == n as real
    ensures Whole(x)
  {}

  lemma WholeProduct(n: nat, w: real)
    requires Whole(w)
    ensures Whole(n as real * w)
  {
    assert n as real * w == (n * w.Floor) as real;
    WholeInt(n * w.Floor, n as real * w);
  }

  lemma WholeSum(x: real, y: real)
    requires Whole(x) && Whole(y)
    ensures Whole(x + y) && Whole(x - y)
  {
    var a, b := x.Floor, y.Floor;
    WholeInt(a + b, x + y);
    WholeInt(a - b, x - y);
  }

  lemma WholeLoad(before: real, n: nat, w: real, after: real)
    requires Whole(before) && Whole(w) && after == before + n as real * w
    ensures Whole(after)
  {
    WholeProduct(n, w);
    WholeSum(before, n as real * w);
  }

  ghost predicate WholeGrams(variants: map<string, Variant>) {
    forall sku :: sku in variants ==> Whole(variants[sku].weightGrams)
  }

  lemma {:induction false} OccupiedIsWhole(items: seq<Item>, variants: map<string, Variant>, id: string, weight: real)
    requires WholeGrams(variants) && weight == Occupied(items, variants, id).weight
    ensures Whole(weight)
  {
    if items == [] {
      WholeInt(0, weight);
    } else {
      var item, o := items[|items| - 1], Occupied(items[..|items| - 1], variants, id);
      OccupiedIsWhole(items[..|items| - 1], variants, id, o.weight);
      if item.locationId == id && item.sku in variants {
        WholeLoad(o.weight, item.quantity, variants[item.sku].weightGrams, weight);
      }
    }
  }

  /** n units of this size use up what remains, or exceed it by at most 0.000005 of a unit. */
  ghost predicate FitsWithin(n: int, remaining: real, unit: real) { n as real * unit <= remaining + 0.000005 * unit }

  lemma FitIff(remaining: real, unit: real, n: int)
    requires unit > 0.0
    ensures n <= Fit(remaining, unit).value <==> FitsWithin(n, remaining, unit)
  {
    var bound := n as real - 0.000005;
    GuardBelow(remaining / unit, n);
    QuotientAgainst(remaining, unit, bound);
    assert bound * unit == n as real * unit - 0.000005 * unit;
  }

  /** The units a candidate takes are the most that overrun neither its weight nor its volume by more than
      0.000005 of a unit; there is no limit exactly when the variant has neither weight nor volume. */
  lemma UnitsAreTheMost(v: Variant, c: Candidate, n: int)
    ensures Units(v, c).None? <==> v.weightGrams <= 0.0 && v.volumeCubicMeters <= 0.0
    ensures Units(v, c).Some? ==>
              (n <= Units(v, c).value <==>
                 (v.weightGrams > 0.0 ==> FitsWithin(n, c.remainingWeight, v.weightGrams))
                 && (v.volumeCubicMeters > 0.0 ==> FitsWithin(n, c.remainingVolume, v.volumeCubicMeters)))
  {
    if v.weightGrams > 0.0 { FitIff(c.remainingWeight, v.weightGrams, n); }
    if v.volumeCubicMeters > 0.0 { FitIff(c.remainingVolume, v.volumeCubicMeters, n); }
  }

  lemma FitOfRoom(v: Variant, c: Candidate, n: int)
    requires HasRoom(c) && n > 0 && (Room(v, c).Some? ==> n <= Room(v, c).value)
    ensures v.weightGrams > 0.0 ==> n <= Fit(c.remainingWeight, v.weightGrams).value
    ensures v.volumeCubicMeters > 0.0 ==> n <= Fit(c.remainingVolume, v.volumeCubicMeters).value
  {}

  lemma WeightLeft(v: Variant, c: Candidate, r: Recommendation, whole: bool)
    requires HasRoom(c) && Serves(v, c, r, whole)
    requires Whole(c.remainingWeight) && Whole(v.weightGrams) && v.weightGrams < 200000.0
    ensures r.remainingWeightGrams >= 0.0
  {
    var n := r.quantity;
    FitOfRoom(v, c, n);
    var grams, unit := c.remainingWeight.Floor, v.weightGrams.Floor;
    if unit > 0 {
      GramsFit(grams, unit, n);
      assert n as real * unit as real == (n * unit) as real;
    } else {
      assert n as real * v.weightGrams <= 0.0;
    }
  }

  lemma VolumeLeft(v: Variant, c: Candidate, r: Recommendation, whole: bool)
    requires HasRoom(c) && Serves(v, c, r, whole) && v.volumeCubicMeters >= 0.0
    ensures r.remainingVolumeCubicMeters >= -0.000005 * v.volumeCubicMeters
  {
    FitOfRoom(v, c, r.quantity);
    if v.volumeCubicMeters > 0.0 {
      GuardIsClose(c.remainingVolume, v.volumeCubicMeters, r.quantity);
    }
  }

  /** No recommendation overfills a location's weight when weights are whole grams and a unit is below 200 kg. */
  lemma WeightNeverOverfilled(v: Variant, p: Profile, all: seq<Location>, items: seq<Item>, variants: map<string, Variant>,
                              quantity: int, list: seq<Recommendation>, i: nat)
    requires quantity > 0 && Suggestion(Some(v), p, all, items, variants, quantity) == Recommended(list) && i < |list|
    requires forall k :: 0 <= k < |all| ==> Whole(all[k].maxWeightGrams)
    requires WholeGrams(variants) && Whole(v.weightGrams) && v.weightGrams < 200000.0
    ensures list[i].remainingWeightGrams >= 0.0
  {
    var k := RecommendationIsLegal(v, p, all, items, variants, quantity, list, i);
    var o := Occupied(items, variants, all[k].id);
    OccupiedIsWhole(items, variants, all[k].id, o.weight);
    WholeSum(all[k].maxWeightGrams, o.weight);
    WeightLeft(v, CandidateAt(p, all[k], o), list[i], i + 1 < |list|);
  }

  /** A recommendation overfills a location's volume by at most 0.000005 of one unit. */
  lemma VolumeBarelyOverfilled(v: Variant, p: Profile, all: seq<Location>, items: seq<Item>, variants: map<string, Variant>,
                               quantity: int, list: seq<Recommendation>, i: nat)
    requires quantity > 0 && Suggestion(Some(v), p, all, items, variants, quantity) == Recommended(list) && i < |list|
    requires v.volumeCubicMeters >= 0.0
    ensures list[i].remainingVolumeCubicMeters >= -0.000005 * v.volumeCubicMeters
  {
    var k := RecommendationIsLegal(v, p, all, items, variants, quantity, list, i);
    VolumeLeft(v, CandidateAt(p, all[k], Occupied(items, variants, all[k].id)), list[i], i + 1 < |list|);
  }
}
