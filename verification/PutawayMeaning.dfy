/** Which locations a putaway suggestion offers and prefers, on the variant's attributes, the zones and the stock. */
module PutawayMeaning {
  import opened Options
  import opened Statistics
  import opened Putaway
  import opened PutawayProperties

  // ---------- letters, attributes, stock ----------

  ghost predicate SameLetter(a: char, b: char) {
    a == b || ('A' <= a <= 'Z' && b as int == a as int + 32) || ('A' <= b <= 'Z' && a as int == b as int + 32)
  }

  ghost predicate SameIgnoringCase(s: string, t: string) {
    |s| == |t| && forall i :: 0 <= i < |s| ==> SameLetter(s[i], t[i])
  }

  lemma LowerMeans(s: string, t: string)
    ensures Lower(s) == Lower(t) <==> SameIgnoringCase(s, t)
  {
    if Lower(s) == Lower(t) {
      forall i | 0 <= i < |s| ensures SameLetter(s[i], t[i]) { assert Lower(s)[i] == Lower(t)[i]; }
    } else if |s| == |t| {
      var i :| 0 <= i < |s| && Lower(s)[i] != Lower(t)[i];
      assert !SameLetter(s[i], t[i]);
    }
  }

  lemma LowerIsWord(s: string, word: string)
    requires forall i :: 0 <= i < |word| ==> !('A' <= word[i] <= 'Z')
    ensures Lower(s) == word <==> SameIgnoringCase(s, word)
  {
    LowerMeans(s, word);
    assert Lower(word) == word;
  }

  /** The last value of an attribute, "" when there is none. */
  ghost predicate IsValue(attrs: seq<Attribute>, name: string, value: string) {
    if forall k :: 0 <= k < |attrs| ==> attrs[k].name != name then value == ""
    else exists k :: IsLastOf(attrs, name, k) && attrs[k].value == value
  }

  ghost predicate IsLastOf(attrs: seq<Attribute>, name: string, k: int) {
    0 <= k < |attrs| && attrs[k].name == name && forall m :: k < m < |attrs| ==> attrs[m].name != name
  }

  lemma {:induction false} LastIsValue(attrs: seq<Attribute>, name: string, value: string)
    requires IsValue(attrs, name, value)
    ensures Last(attrs, name) == value
  {
    if attrs != [] {
      var n := |attrs| - 1;
      var front := attrs[..n];
      if attrs[n].name == name {
        var k :| IsLastOf(attrs, name, k) && attrs[k].value == value;
      } else {
        if exists k :: 0 <= k < |attrs| && attrs[k].name == name {
          var k :| IsLastOf(attrs, name, k) && attrs[k].value == value;
          assert IsLastOf(front, name, k) && front[k].value == value;
        } else {
          assert forall k :: 0 <= k < n ==> front[k] == attrs[k];
        }
        LastIsValue(front, name, value);
      }
    }
  }

  /** What an item takes up at a location; nothing elsewhere, or when its variant is not known. */
  ghost function TakenUp(item: Item, variants: map<string, Variant>, id: string, size: Variant -> real): real {
    if item.locationId == id && item.sku in variants then item.quantity as real * size(variants[item.sku]) else 0.0
  }

  /** Weight, or volume, of the known stock at a location. */
  ghost function Used(items: seq<Item>, variants: map<string, Variant>, id: string, size: Variant -> real): real {
    Sum(seq(|items|, k requires 0 <= k < |items| => TakenUp(items[k], variants, id, size)))
  }

  ghost function Weight(): Variant -> real { (v: Variant) => v.weightGrams }

  ghost function Volume(): Variant -> real { (v: Variant) => v.volumeCubicMeters }

  lemma UsedMore(items: seq<Item>, item: Item, variants: map<string, Variant>, id: string, size: Variant -> real)
    ensures Used(items + [item], variants, id, size) == Used(items, variants, id, size) + TakenUp(item, variants, id, size)
  {
    var all := items + [item];
    var parts := seq(|all|, k requires 0 <= k < |all| => TakenUp(all[k], variants, id, size));
    assert parts[..|items|] == seq(|items|, k requires 0 <= k < |items| => TakenUp(items[k], variants, id, size));
  }

  lemma {:induction false} OccupiedIsUsed(items: seq<Item>, variants: map<string, Variant>, id: string)
    ensures Occupied(items, variants, id) == Occupancy(Used(items, variants, id, Weight()), Used(items, variants, id, Volume()))
  {
    if items != [] {
      var front, item := items[..|items| - 1], items[|items| - 1];
      assert items == front + [item];
      OccupiedIsUsed(front, variants, id);
      UsedMore(front, item, variants, id, Weight());
      UsedMore(front, item, variants, id, Volume());
    }
  }

  // ---------- what is offered ----------

  /** Zones must agree where the variant has a temperature zone; hazardous goods go to hazmat, and only they do. */
  ghost predicate Allowed(temperatureZone: string, hazardClass: string, loc: Location) {
    && (temperatureZone != "" ==> SameIgnoringCase(loc.zone, temperatureZone))
    && (hazardClass != "" ==> SameIgnoringCase(loc.zone, "hazmat"))
    && (hazardClass == "" ==> !SameIgnoringCase(loc.zone, "hazmat"))
  }

  ghost predicate Roomy(loc: Location, items: seq<Item>, variants: map<string, Variant>) {
    Used(items, variants, loc.id, Weight()) < loc.maxWeightGrams && Used(items, variants, loc.id, Volume()) < loc.maxVolumeCubicMeters
  }

  ghost function FreeWeight(loc: Location, items: seq<Item>, variants: map<string, Variant>): real {
    loc.maxWeightGrams - Used(items, variants, loc.id, Weight())
  }

  /** 100 for the temperature zone, 200 for hazmat, and for fast-moving goods 50 for the fast zone and 30 for a front aisle. */
  ghost function Points(temperatureZone: string, hazardClass: string, velocity: string, loc: Location): int {
    var fast := SameIgnoringCase(velocity, "fast-moving");
    (if temperatureZone != "" && SameIgnoringCase(loc.zone, temperatureZone) then 100 else 0)
    + (if hazardClass != "" && SameIgnoringCase(loc.zone, "hazmat") then 200 else 0)
    + (if fast && SameIgnoringCase(loc.zone, "fast") then 50 else 0)
    + (if fast && (loc.aisle == "A01" || loc.aisle == "A02" || loc.aisle == "A03") then 30 else 0)
  }

  lemma CompatibleMeans(p: Profile, loc: Location)
    ensures Compatible(p, loc) <==> Allowed(p.temperatureZone, p.hazardClass, loc)
  {
    LowerMeans(loc.zone, p.temperatureZone);
    LowerIsWord(loc.zone, "hazmat");
  }

  lemma ScoreMeans(p: Profile, loc: Location)
    ensures Score(p, loc) == Points(p.temperatureZone, p.hazardClass, p.velocity, loc)
  {
    LowerMeans(loc.zone, p.temperatureZone);
    LowerIsWord(loc.zone, "hazmat");
    LowerIsWord(loc.zone, "fast");
    LowerIsWord(p.velocity, "fast-moving");
  }

  /** The profile that the attributes spell out. */
  ghost predicate Spells(attrs: seq<Attribute>, p: Profile) {
    && IsValue(attrs, "temperatureZone", p.temperatureZone) && IsValue(attrs, "hazardClass", p.hazardClass)
    && IsValue(attrs, "velocity", p.velocity)
  }

  lemma ProfileIsSpelt(attrs: seq<Attribute>, p: Profile)
    requires Spells(attrs, p)
    ensures Profile(Last(attrs, "temperatureZone"), Last(attrs, "hazardClass"), Last(attrs, "velocity")) == p
  {
    LastIsValue(attrs, "temperatureZone", p.temperatureZone);
    LastIsValue(attrs, "hazardClass", p.hazardClass);
    LastIsValue(attrs, "velocity", p.velocity);
  }

  lemma CandidateMeans(p: Profile, loc: Location, items: seq<Item>, variants: map<string, Variant>)
    ensures var c := CandidateAt(p, loc, Occupied(items, variants, loc.id));
            && c.location == loc && c.remainingWeight == FreeWeight(loc, items, variants)
            && c.score == Points(p.temperatureZone, p.hazardClass, p.velocity, loc)
            && (HasRoom(c) <==> Roomy(loc, items, variants))
  {
    OccupiedIsUsed(items, variants, loc.id);
    ScoreMeans(p, loc);
  }

  lemma {:induction false} CompatibleHas(p: Profile, all: seq<Location>, k: nat)
    requires k < |all| && Compatible(p, all[k])
    ensures all[k] in CompatibleLocations(p, all)
  {
    var n := |all| - 1;
    if k < n { CompatibleHas(p, all[..n], k); }
  }

  lemma {:induction false} EligibleHas(p: Profile, locations: seq<Location>, items: seq<Item>, variants: map<string, Variant>, k: nat)
    requires k < |locations| && HasRoom(CandidateAt(p, locations[k], Occupied(items, variants, locations[k].id)))
    ensures CandidateAt(p, locations[k], Occupied(items, variants, locations[k].id)) in Eligible(p, locations, items, variants)
  {
    var n := |locations| - 1;
    if k < n { EligibleHas(p, locations[..n], items, variants, k); }
  }

  /** A location is offered, with these points and its free weight, exactly when the zones allow it and it has room. */
  lemma OfferedIff(p: Profile, all: seq<Location>, items: seq<Item>, variants: map<string, Variant>, k: nat) returns (c: Candidate)
    requires k < |all|
    ensures c == CandidateAt(p, all[k], Occupied(items, variants, all[k].id))
    ensures c.location == all[k] && c.remainingWeight == FreeWeight(all[k], items, variants)
    ensures c.score == Points(p.temperatureZone, p.hazardClass, p.velocity, all[k])
    ensures c in Ranked(Eligible(p, CompatibleLocations(p, all), items, variants))
            <==> Allowed(p.temperatureZone, p.hazardClass, all[k]) && Roomy(all[k], items, variants)
  {
    var loc, locations := all[k], CompatibleLocations(p, all);
    var eligible := Eligible(p, locations, items, variants);
    c := CandidateAt(p, loc, Occupied(items, variants, loc.id));
    CandidateMeans(p, loc, items, variants);
    CompatibleMeans(p, loc);
    RankedFacts(eligible);
    assert c in Ranked(eligible) <==> c in multiset(Ranked(eligible));
    assert c in eligible <==> c in multiset(eligible);
    if Compatible(p, loc) && HasRoom(c) {
      CompatibleHas(p, all, k);
      var x :| 0 <= x < |locations| && locations[x] == loc;
      EligibleHas(p, locations, items, variants, x);
    } else if c in eligible {
      var i :| 0 <= i < |eligible| && eligible[i] == c;
      var x := EligibleItem(p, locations, items, variants, i);
      var j := CompatibleItem(p, all, x);
      assert false;
    }
  }

  /** A recommended location is one that the attributes allow, with room for weight and for volume. */
  lemma RecommendedIsAllowed(attrs: seq<Attribute>, p: Profile, v: Variant, all: seq<Location>, items: seq<Item>,
                             variants: map<string, Variant>, quantity: int, list: seq<Recommendation>, i: nat) returns (k: nat)
    requires Spells(attrs, p) && quantity > 0 && i < |list|
    requires Suggestion(Some(v), Profile(Last(attrs, "temperatureZone"), Last(attrs, "hazardClass"), Last(attrs, "velocity")),
                        all, items, variants, quantity) == Recommended(list)
    ensures k < |all| && list[i].locationId == all[k].id && list[i].quantity > 0
    ensures Allowed(p.temperatureZone, p.hazardClass, all[k]) && Roomy(all[k], items, variants)
  {
    ProfileIsSpelt(attrs, p);
    k := RecommendationIsLegal(v, p, all, items, variants, quantity, list, i);
    CompatibleMeans(p, all[k]);
    CandidateMeans(p, all[k], items, variants);
  }

  // ---------- what is preferred ----------

  lemma {:induction false} FillExtends(v: Variant, candidates: seq<Candidate>, quantity: int, x: nat, i: nat)
    requires x <= |candidates| && i < |Fill(v, candidates[..x], quantity).list|
    ensures i < |Fill(v, candidates, quantity).list| && Fill(v, candidates, quantity).list[i] == Fill(v, candidates[..x], quantity).list[i]
  {
    var n := |candidates| - 1;
    if x <= n {
      assert candidates[..n][..x] == candidates[..x];
      FillExtends(v, candidates[..n], quantity, x, i);
    } else {
      assert candidates[..x] == candidates;
    }
  }

  /** A candidate that takes a unit is recommended, unless the quantity was covered before its turn. */
  lemma {:induction false} TakenOrCovered(v: Variant, candidates: seq<Candidate>, quantity: int, x: nat) returns (i: nat)
    requires quantity > 0 && x < |candidates| && Room(v, candidates[x]) != Some(0)
    ensures var f := Fill(v, candidates, quantity);
            f == Fill(v, candidates[..x], quantity) || (i < |f.list| && f.list[i].locationId == candidates[x].location.id)
  {
    var before := Fill(v, candidates[..x], quantity);
    i := |before.list|;
    if before.missing <= 0 {
      FullFill(v, candidates, quantity, x);
    } else {
      assert candidates[..x + 1][..x] == candidates[..x];
      ShareOfRoom(v, candidates[x], before.missing);
      FillExtends(v, candidates, quantity, x + 1, i);
    }
  }

  /** Whoever is recommended ranks at least as high as c. */
  ghost predicate RanksFirst(p: Profile, items: seq<Item>, variants: map<string, Variant>, a: Location, b: Location) {
    var s, t := Points(p.temperatureZone, p.hazardClass, p.velocity, a), Points(p.temperatureZone, p.hazardClass, p.velocity, b);
    s > t || (s == t && FreeWeight(a, items, variants) >= FreeWeight(b, items, variants))
  }

  lemma EarlierRanksFirst(p: Profile, all: seq<Location>, items: seq<Item>, variants: map<string, Variant>, y: nat, x: nat) returns (m: nat)
    requires y < x < |Ranked(Eligible(p, CompatibleLocations(p, all), items, variants))|
    ensures var ranked := Ranked(Eligible(p, CompatibleLocations(p, all), items, variants));
            m < |all| && ranked[y].location == all[m] && RanksFirst(p, items, variants, all[m], ranked[x].location)
  {
    RankedFacts(Eligible(p, CompatibleLocations(p, all), items, variants));
    m := RankedItem(p, all, items, variants, y);
    var k := RankedItem(p, all, items, variants, x);
    CandidateMeans(p, all[m], items, variants);
    CandidateMeans(p, all[k], items, variants);
  }

  /** One unit fits, up to 0.000005 of its weight and volume. */
  ghost predicate TakesOne(v: Variant, loc: Location, items: seq<Item>, variants: map<string, Variant>) {
    && (v.weightGrams > 0.0 ==> v.weightGrams <= FreeWeight(loc, items, variants) + 0.000005 * v.weightGrams)
    && (v.volumeCubicMeters > 0.0 ==>
          v.volumeCubicMeters <= loc.maxVolumeCubicMeters - Used(items, variants, loc.id, Volume()) + 0.000005 * v.volumeCubicMeters)
  }

  lemma TakesOneMeans(v: Variant, p: Profile, loc: Location, items: seq<Item>, variants: map<string, Variant>)
    ensures Room(v, CandidateAt(p, loc, Occupied(items, variants, loc.id))) != Some(0) <==> TakesOne(v, loc, items, variants)
  {
    OccupiedIsUsed(items, variants, loc.id);
    UnitsAreTheMost(v, CandidateAt(p, loc, Occupied(items, variants, loc.id)), 1);
  }

  lemma FilledRanksFirst(p: Profile, v: Variant, all: seq<Location>, items: seq<Item>, variants: map<string, Variant>,
                         quantity: int, x: nat, i: nat) returns (m: nat)
    requires quantity > 0 && x < |Ranked(Eligible(p, CompatibleLocations(p, all), items, variants))|
    requires i < |Fill(v, Ranked(Eligible(p, CompatibleLocations(p, all), items, variants))[..x], quantity).list|
    ensures var ranked := Ranked(Eligible(p, CompatibleLocations(p, all), items, variants));
            && m < |all| && Fill(v, ranked[..x], quantity).list[i].locationId == all[m].id
            && RanksFirst(p, items, variants, all[m], ranked[x].location)
  {
    var ranked := Ranked(Eligible(p, CompatibleLocations(p, all), items, variants));
    var y := FillItem(v, ranked[..x], quantity, i);
    m := EarlierRanksFirst(p, all, items, variants, y, x);
  }

  /** A location that the attributes allow, with room and taking at least one unit, is recommended, unless every
      recommended location has more points, or as many and at least as much free weight. */
  lemma PreferredByPoints(attrs: seq<Attribute>, p: Profile, v: Variant, all: seq<Location>, items: seq<Item>,
                          variants: map<string, Variant>, quantity: int, list: seq<Recommendation>, k: nat)
    requires Spells(attrs, p) && quantity > 0 && k < |all|
    requires Suggestion(Some(v), Profile(Last(attrs, "temperatureZone"), Last(attrs, "hazardClass"), Last(attrs, "velocity")),
                        all, items, variants, quantity) == Recommended(list)
    requires Allowed(p.temperatureZone, p.hazardClass, all[k]) && Roomy(all[k], items, variants) && TakesOne(v, all[k], items, variants)
    ensures (exists i :: 0 <= i < |list| && list[i].locationId == all[k].id) ||
            forall i :: 0 <= i < |list| ==> exists m :: 0 <= m < |all| && list[i].locationId == all[m].id && RanksFirst(p, items, variants, all[m], all[k])
  {
    ProfileIsSpelt(attrs, p);
    var ranked := Ranked(Eligible(p, CompatibleLocations(p, all), items, variants));
    CompatibleMeans(p, all[k]);
    CompatibleHas(p, all, k);
    var c := OfferedIff(p, all, items, variants, k);
    var x :| 0 <= x < |ranked| && ranked[x] == c;
    TakesOneMeans(v, p, all[k], items, variants);
    var f := Fill(v, ranked, quantity);
    assert f.list == list;
    var taken := TakenOrCovered(v, ranked, quantity, x);
    if !(taken < |list| && list[taken].locationId == all[k].id) {
      assert f == Fill(v, ranked[..x], quantity);
      forall i | 0 <= i < |list|
        ensures exists m :: 0 <= m < |all| && list[i].locationId == all[m].id && RanksFirst(p, items, variants, all[m], all[k])
      {
        var m := FilledRanksFirst(p, v, all, items, variants, quantity, x, i);
      }
    }
  }
}
