/** Putaway suggestions: zone rules, remaining capacity, ranking and a greedy fill whose unit counts are
    rounded to five decimals before they are truncated. Weights and volumes are exact reals. */
module Putaway {
  import opened Options

  datatype Location = Location(id: string, zone: string, aisle: string, maxWeightGrams: real, maxVolumeCubicMeters: real)

  datatype Variant = Variant(weightGrams: real, volumeCubicMeters: real)

  datatype Item = Item(locationId: string, sku: string, quantity: nat)

  datatype Attribute = Attribute(name: string, value: string)

  datatype Profile = Profile(temperatureZone: string, hazardClass: string, velocity: string)

  datatype Occupancy = Occupancy(weight: real, volume: real)

  datatype Candidate = Candidate(location: Location, remainingWeight: real, remainingVolume: real, score: int)

  datatype Recommendation =
    Recommendation(locationId: string, quantity: int, remainingWeightGrams: real, remainingVolumeCubicMeters: real)

  datatype Outcome =
    | Recommended(list: seq<Recommendation>)
    | NotPositive
    | UnknownSku
    | InsufficientCapacity

  // ---------- zone rules and scores ----------

  function LowerChar(c: char): char { if 'A' <= c <= 'Z' then ((c as int) + 32) as char else c }

  function Lower(s: string): string { seq(|s|, i requires 0 <= i < |s| => LowerChar(s[i])) }

  /** The last attribute of a name; an absent one and an empty one are both falsy. */
  function Last(attrs: seq<Attribute>, name: string): string {
    if attrs == [] then "" else if attrs[|attrs| - 1].name == name then attrs[|attrs| - 1].value
    else Last(attrs[..|attrs| - 1], name)
  }

  method ReadProfile(attrs: seq<Attribute>) returns (p: Profile)
    ensures p == Profile(Last(attrs, "temperatureZone"), Last(attrs, "hazardClass"), Last(attrs, "velocity"))
  {
    p := Profile("", "", "");
    ghost var done := [];
    for i := 0 to |attrs|
      invariant done == attrs[..i]
      invariant p == Profile(Last(done, "temperatureZone"), Last(done, "hazardClass"), Last(done, "velocity"))
    {
      var a := attrs[i];
      assert (done + [a])[..i] == done;
      done := done + [a];
      if a.name == "temperatureZone" { p := p.(temperatureZone := a.value); }
      else if a.name == "hazardClass" { p := p.(hazardClass := a.value); }
      else if a.name == "velocity" { p := p.(velocity := a.value); }
    }
    assert done == attrs;
  }

  /** The temperature zone must match if there is one; hazardous goods go to hazmat and only they do. */
  predicate Compatible(p: Profile, loc: Location) {
    && (p.temperatureZone != "" ==> Lower(loc.zone) == Lower(p.temperatureZone))
    && (p.hazardClass != "" <==> Lower(loc.zone) == "hazmat")
  }

  function Score(p: Profile, loc: Location): int {
    (if p.temperatureZone != "" && Lower(loc.zone) == Lower(p.temperatureZone) then 100 else 0)
    + (if p.hazardClass != "" && Lower(loc.zone) == "hazmat" then 200 else 0)
    + if Lower(p.velocity) == "fast-moving"
      then (if Lower(loc.zone) == "fast" then 50 else 0) + (if loc.aisle in {"A01", "A02", "A03"} then 30 else 0)
      else 0
  }

  function CompatibleLocations(p: Profile, all: seq<Location>): seq<Location> {
    if all == [] then []
    else
      CompatibleLocations(p, all[..|all| - 1]) + if Compatible(p, all[|all| - 1]) then [all[|all| - 1]] else []
  }

  method FilterLocations(p: Profile, allLocations: seq<Location>) returns (locations: seq<Location>)
    ensures locations == CompatibleLocations(p, allLocations)
  {
    locations := [];
    ghost var done := [];
    for i := 0 to |allLocations|
      invariant done == allLocations[..i] && locations == CompatibleLocations(p, done)
    {
      var loc := allLocations[i];
      assert (done + [loc])[..i] == done;
      done := done + [loc];
      if p.temperatureZone != "" && Lower(loc.zone) != Lower(p.temperatureZone) { continue; }
      if p.hazardClass != "" && Lower(loc.zone) != "hazmat" { continue; }
      if p.hazardClass == "" && Lower(loc.zone) == "hazmat" { continue; }
      locations := locations + [loc];
    }
    assert done == allLocations;
  }

  // ---------- occupancy ----------

  function Occupied(items: seq<Item>, variants: map<string, Variant>, locationId: string): Occupancy {
    if items == [] then Occupancy(0.0, 0.0)
    else
      var item, o := items[|items| - 1], Occupied(items[..|items| - 1], variants, locationId);
      if item.locationId == locationId && item.sku in variants then
        var v := variants[item.sku];
        With(o, item.quantity, v)
      else o
  }

  /** The occupancy with more units of a variant. */
  function With(o: Occupancy, quantity: int, v: Variant): Occupancy {
    Occupancy(o.weight + quantity as real * v.weightGrams, o.volume + quantity as real * v.volumeCubicMeters)
  }

  lemma OccupiedMore(items: seq<Item>, item: Item, variants: map<string, Variant>, id: string)
    ensures var o := Occupied(items, variants, id);
            Occupied(items + [item], variants, id) == if item.locationId == id && item.sku in variants then With(o, item.quantity, variants[item.sku]) else o
  {
    assert (items + [item])[..|items|] == items;
  }

  method FoldOccupancy(items: seq<Item>, variants: map<string, Variant>) returns (occupancy: map<string, Occupancy>)
    ensures forall id :: (if id in occupancy then occupancy[id] else Occupancy(0.0, 0.0)) == Occupied(items, variants, id)
  {
    occupancy := map[];
    ghost var done := [];
    for i := 0 to |items|
      invariant done == items[..i]
      invariant forall id :: (if id in occupancy then occupancy[id] else Occupancy(0.0, 0.0)) == Occupied(done, variants, id)
    {
      var item := items[i];
      forall id ensures Occupied(done + [item], variants, id)
                     == if item.locationId == id && item.sku in variants
                        then With(Occupied(done, variants, id), item.quantity, variants[item.sku]) else Occupied(done, variants, id) {
        OccupiedMore(done, item, variants, id);
      }
      done := done + [item];
      if item.sku in variants {
        var occ := if item.locationId in occupancy then occupancy[item.locationId] else Occupancy(0.0, 0.0);
        occupancy := occupancy[item.locationId := With(occ, item.quantity, variants[item.sku])];
      }
    }
    assert done == items;
  }

  // ---------- candidates ----------

  function CandidateAt(p: Profile, loc: Location, o: Occupancy): Candidate {
    Candidate(loc, loc.maxWeightGrams - o.weight, loc.maxVolumeCubicMeters - o.volume, Score(p, loc))
  }

  predicate HasRoom(c: Candidate) { c.remainingWeight > 0.0 && c.remainingVolume > 0.0 }

  function Eligible(p: Profile, locations: seq<Location>, items: seq<Item>, variants: map<string, Variant>): seq<Candidate> {
    if locations == [] then []
    else
      var loc := locations[|locations| - 1];
      var c := CandidateAt(p, loc, Occupied(items, variants, loc.id));
      Eligible(p, locations[..|locations| - 1], items, variants) + if HasRoom(c) then [c] else []
  }

  method ScoreOf(p: Profile, loc: Location) returns (score: int)
    ensures score == Score(p, loc)
  {
    score := 0;
    if p.temperatureZone != "" && Lower(loc.zone) == Lower(p.temperatureZone) { score := score + 100; }
    if p.hazardClass != "" && Lower(loc.zone) == "hazmat" { score := score + 200; }
    if p.velocity != "" && Lower(p.velocity) == "fast-moving" {
      if Lower(loc.zone) == "fast" { score := score + 50; }
      if loc.aisle == "A01" || loc.aisle == "A02" || loc.aisle == "A03" { score := score + 30; }
    }
  }

  lemma EligibleMore(p: Profile, locations: seq<Location>, loc: Location, items: seq<Item>, variants: map<string, Variant>)
    ensures var c := CandidateAt(p, loc, Occupied(items, variants, loc.id));
            Eligible(p, locations + [loc], items, variants) == Eligible(p, locations, items, variants) + if HasRoom(c) then [c] else []
  {
    assert (locations + [loc])[..|locations|] == locations;
  }

  method ScoreLocations(p: Profile, locations: seq<Location>, items: seq<Item>, variants: map<string, Variant>)
    returns (eligible: seq<Candidate>)
    ensures eligible == Eligible(p, locations, items, variants)
  {
    var occupancy := FoldOccupancy(items, variants);
    eligible := [];
    ghost var done := [];
    for i := 0 to |locations|
      invariant done == locations[..i] && eligible == Eligible(p, done, items, variants)
    {
      var loc := locations[i];
      EligibleMore(p, done, loc, items, variants);
      done := done + [loc];
      var occ := if loc.id in occupancy then occupancy[loc.id] else Occupancy(0.0, 0.0);
      assert occ == Occupied(items, variants, loc.id);
      var remainingWeight := loc.maxWeightGrams - occ.weight;
      var remainingVolume := loc.maxVolumeCubicMeters - occ.volume;
      if remainingWeight <= 0.0 || remainingVolume <= 0.0 { continue; }
      var score := ScoreOf(p, loc);
      eligible := eligible + [Candidate(loc, remainingWeight, remainingVolume, score)];
    }
    assert done == locations;
  }

  /** The comparator: higher score first, then more remaining weight. Equal candidates keep their order. */
  predicate Precedes(a: Candidate, b: Candidate) {
    a.score > b.score || (a.score == b.score && a.remainingWeight >= b.remainingWeight)
  }

  function Insert(c: Candidate, s: seq<Candidate>): seq<Candidate> {
    if s == [] || Precedes(c, s[0]) then [c] + s else [s[0]] + Insert(c, s[1..])
  }

  function Ranked(s: seq<Candidate>): seq<Candidate> {
    if s == [] then [] else Insert(s[0], Ranked(s[1..]))
  }

  // ---------- the fill ----------

  /** `Number(x.toFixed(5))` on an exact x: the nearest multiple of 0.00001, halves upwards. */
  function ToFixed5(x: real): real { (x * 100000.0 + 0.5).Floor as real / 100000.0 }

  /** Units that fit; None for no limit, when the unit has no size. */
  function Fit(remaining: real, unit: real): Option<int> {
    if unit > 0.0 then Some(ToFixed5(remaining / unit).Floor) else None
  }

  function Least(a: Option<int>, b: Option<int>): Option<int> {
    if a.None? then b else if b.None? then a else Some(if a.value < b.value then a.value else b.value)
  }

  function Units(v: Variant, c: Candidate): Option<int> {
    Least(Fit(c.remainingWeight, v.weightGrams), Fit(c.remainingVolume, v.volumeCubicMeters))
  }

  function Recommend(v: Variant, c: Candidate, quantity: int): Recommendation {
    Recommendation(c.location.id, quantity, c.remainingWeight - quantity as real * v.weightGrams,
                   c.remainingVolume - quantity as real * v.volumeCubicMeters)
  }

  /** What a candidate gets of the units still to allocate. */
  function Share(v: Variant, c: Candidate, quantity: int): int {
    if quantity <= 0 then 0
    else match Units(v, c)
      case None => quantity
      case Some(n) => if n <= 0 then 0 else if n < quantity then n else quantity
  }

  datatype Filled = Filled(list: seq<Recommendation>, missing: int)

  function Fill(v: Variant, candidates: seq<Candidate>, quantity: int): Filled {
    if candidates == [] then Filled([], quantity)
    else
      var c, before := candidates[|candidates| - 1], Fill(v, candidates[..|candidates| - 1], quantity);
      var n := Share(v, c, before.missing);
      if n == 0 then before else Filled(before.list + [Recommend(v, c, n)], before.missing - n)
  }

  lemma {:induction false} FullFill(v: Variant, candidates: seq<Candidate>, quantity: int, k: nat)
    requires k <= |candidates| && Fill(v, candidates[..k], quantity).missing <= 0
    ensures Fill(v, candidates, quantity) == Fill(v, candidates[..k], quantity)
  {
    if k == |candidates| {
      assert candidates[..k] == candidates;
    } else {
      assert candidates[..|candidates| - 1][..k] == candidates[..k];
      FullFill(v, candidates[..|candidates| - 1], quantity, k);
    }
  }

  method FillCandidates(v: Variant, eligible: seq<Candidate>, quantity: int) returns (f: Filled)
    ensures f == Fill(v, eligible, quantity)
  {
    var recommendations, remainingToAllocate := [], quantity;
    ghost var done := [];
    for i := 0 to |eligible|
      invariant done == eligible[..i] && Filled(recommendations, remainingToAllocate) == Fill(v, done, quantity)
    {
      if remainingToAllocate <= 0 {
        FullFill(v, eligible, quantity, i);
        return Filled(recommendations, remainingToAllocate);
      }
      var cand := eligible[i];
      assert (done + [cand])[..i] == done;
      done := done + [cand];
      var maxUnitsToFit := Units(v, cand);
      if maxUnitsToFit.Some? && maxUnitsToFit.value <= 0 { continue; }
      var allocatedQty := if maxUnitsToFit.Some? && maxUnitsToFit.value < remainingToAllocate
                          then maxUnitsToFit.value else remainingToAllocate;
      recommendations := recommendations + [Recommend(v, cand, allocatedQty)];
      remainingToAllocate := remainingToAllocate - allocatedQty;
    }
    assert done == eligible;
    f := Filled(recommendations, remainingToAllocate);
  }

  function Suggestion(variant: Option<Variant>, p: Profile, all: seq<Location>, items: seq<Item>,
                      variants: map<string, Variant>, quantity: int): Outcome {
    if quantity <= 0 then NotPositive
    else if variant.None? then UnknownSku
    else if CompatibleLocations(p, all) == [] then Recommended([])
    else
      var f := Fill(variant.value, Ranked(Eligible(p, CompatibleLocations(p, all), items, variants)), quantity);
      if f.missing > 0 then InsufficientCapacity else Recommended(f.list)
  }

  method SuggestPutaway(variant: Option<Variant>, attrs: seq<Attribute>, allLocations: seq<Location>, items: seq<Item>,
                        variants: map<string, Variant>, quantity: int) returns (r: Outcome)
    ensures r == Suggestion(variant, Profile(Last(attrs, "temperatureZone"), Last(attrs, "hazardClass"), Last(attrs, "velocity")),
                            allLocations, items, variants, quantity)
  {
    if quantity <= 0 { return NotPositive; }
    if variant.None? { return UnknownSku; }
    var p := ReadProfile(attrs);
    if |allLocations| == 0 { return Recommended([]); }
    var locations := FilterLocations(p, allLocations);
    if |locations| == 0 { return Recommended([]); }
    var eligible := ScoreLocations(p, locations, items, variants);
    var f := FillCandidates(variant.value, Ranked(eligible), quantity);
    if f.missing > 0 { return InsufficientCapacity; }
    r := Recommended(f.list);
  }
}
