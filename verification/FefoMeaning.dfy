/** Balances, lots and refusals of a picking suggestion, on the fields of ledger entries and layers. */
module FefoMeaning {
  import opened Options
  import opened FefoPicking
  import opened FefoProperties
  import MapSums

  /** What the ledger books for a lot at a location; entries under an empty lot number belong to no lot. */
  ghost function Booked(entries: seq<Entry>, lotNumber: string, loc: string): map<int, int> {
    map i | 0 <= i < |entries| && lotNumber != "" && entries[i].lotNumber == Some(lotNumber) && entries[i].locationId == loc :: entries[i].quantity
  }

  lemma BookedMore(front: seq<Entry>, e: Entry, lotNumber: string, loc: string)
    ensures var m := Booked(front, lotNumber, loc);
            Booked(front + [e], lotNumber, loc)
            == if lotNumber != "" && e.lotNumber == Some(lotNumber) && e.locationId == loc then m[|front| := e.quantity] else m
  {
    assert forall i :: 0 <= i < |front| ==> (front + [e])[i] == front[i];
    assert (front + [e])[|front|] == e;
  }

  /** The balance of a lot at a location is the sum of what is booked for it there. */
  lemma {:induction false} BalanceMeans(entries: seq<Entry>, lotNumber: string, loc: string)
    ensures Net(entries, lotNumber, loc) == MapSums.Sum(Booked(entries, lotNumber, loc))
  {
    if entries == [] {
      assert Booked(entries, lotNumber, loc) == map[];
    } else {
      var front, e := entries[..|entries| - 1], entries[|entries| - 1];
      assert entries == front + [e];
      BalanceMeans(front, lotNumber, loc);
      BookedMore(front, e, lotNumber, loc);
      MapSums.SumUpdate(Booked(front, lotNumber, loc), |front|, e.quantity);
    }
  }

  /** The layers at these positions, which ascend, are those with a lot. */
  ghost predicate WithLots(layers: seq<Layer>, places: seq<int>, lots: seq<Lot>) {
    && |lots| == |places| && (forall j :: 0 <= j < |places| ==> 0 <= places[j] < |layers| && layers[places[j]].lot == Some(lots[j]))
    && (forall j, k :: 0 <= j < k < |places| ==> places[j] < places[k])
    && (forall i :: 0 <= i < |layers| ==> (layers[i].lot != None <==> i in places))
  }

  lemma LotsMore(front: seq<Layer>, l: Layer, places: seq<int>, lots: seq<Lot>)
    requires WithLots(front, places, lots)
    ensures if l.lot.Some? then WithLots(front + [l], places + [|front|], lots + [l.lot.value]) else WithLots(front + [l], places, lots)
  {
    var all := front + [l];
    assert forall i :: 0 <= i < |front| ==> all[i] == front[i];
    assert |front| !in places;
    assert forall i :: 0 <= i < |all| ==> (i in places + [|front|] <==> i in places || i == |front|);
  }

  /** Lots come in the order of their layers; layers without one are passed over. */
  lemma {:induction false} LotsMean(layers: seq<Layer>) returns (places: seq<int>)
    ensures WithLots(layers, places, LotsOf(layers))
  {
    places := [];
    if layers != [] {
      var front, l := layers[..|layers| - 1], layers[|layers| - 1];
      assert layers == front + [l];
      places := LotsMean(front);
      LotsMore(front, l, places, LotsOf(front));
      if l.lot.Some? { places := places + [|front|]; } else { assert LotsOf(front) + [] == LotsOf(front); }
    }
  }

  /** A lot number's first place is before all its others. */
  lemma {:induction false} FirstMeans(lots: seq<Lot>, lotNumber: string, k: nat)
    requires k < |lots| && lots[k].lotNumber == lotNumber
    ensures LotIn(lots, lotNumber) && First(lots, lotNumber) <= k && lots[First(lots, lotNumber)].lotNumber == lotNumber
  {
    var front := lots[..|lots| - 1];
    if k < |front| {
      FirstMeans(front, lotNumber, k);
      assert LotIn(front, lotNumber);
    }
    assert lots[k] in lots;
  }

  /** The refusals, in the order in which they are tried: a quantity below one, an unknown SKU, no layer with a lot, too
      little in stock. */
  lemma RefusedIff(found: bool, layers: seq<Layer>, entries: seq<Entry>, quantity: int)
    ensures var r, lots := Suggestion(found, layers, entries, quantity), exists i :: 0 <= i < |layers| && layers[i].lot != None;
            && (r == NotPositive <==> quantity < 1)
            && (r == UnknownSku <==> quantity >= 1 && !found)
            && (r == NoLotLayers <==> quantity >= 1 && found && !lots)
            && (r.Suggested? || r.Insufficient? <==> quantity >= 1 && found && lots)
            && (r.Suggested? ==> MapSums.Sum(PositiveBalances(LotsOf(layers), entries)) >= quantity)
            && (r.Insufficient? ==> r.missing == quantity - MapSums.Sum(PositiveBalances(LotsOf(layers), entries)) > 0)
  {
    var places := LotsMean(layers);
    if places != [] { assert places[0] in places; }
    if quantity >= 1 && found && LotsOf(layers) != [] { SuggestedIffEnough(layers, entries, quantity); }
  }

  // ---------- the order of locations ----------

  ghost predicate MentionedAt(entries: seq<Entry>, lotNumber: string, loc: string, b: int) {
    0 <= b < |entries| && lotNumber != "" && entries[b].lotNumber == Some(lotNumber) && entries[b].locationId == loc
  }

  lemma {:induction false} ShelfHasLocation(entries: seq<Entry>, lotNumber: string, b: int)
    requires 0 <= b < |entries| && MentionedAt(entries, lotNumber, entries[b].locationId, b)
    ensures entries[b].locationId in Balances(entries, lotNumber).quantity
  {
    if b < |entries| - 1 { ShelfHasLocation(entries[..|entries| - 1], lotNumber, b); }
  }

  lemma {:induction false} ShelfIsMentioned(entries: seq<Entry>, lotNumber: string, loc: string) returns (a: int)
    requires loc in Balances(entries, lotNumber).quantity
    ensures MentionedAt(entries, lotNumber, loc, a)
  {
    var front, e := entries[..|entries| - 1], entries[|entries| - 1];
    if loc in Balances(front, lotNumber).quantity { a := ShelfIsMentioned(front, lotNumber, loc); } else { a := |front|; }
  }

  /** The locations of a shelf come in the order in which the ledger first mentions them. */
  lemma {:induction false} ShelfOrder(entries: seq<Entry>, lotNumber: string, x: nat, y: nat, b: int) returns (a: int)
    requires x < y < |Balances(entries, lotNumber).locations| && MentionedAt(entries, lotNumber, Balances(entries, lotNumber).locations[y], b)
    ensures a < b && MentionedAt(entries, lotNumber, Balances(entries, lotNumber).locations[x], a)
  {
    var front := entries[..|entries| - 1];
    var before := Balances(front, lotNumber);
    BalancesAreNet(front, lotNumber);
    BalancesAreNet(entries, lotNumber);
    if b < |front| {
      ShelfHasLocation(front, lotNumber, b);
      a := ShelfOrder(front, lotNumber, x, y, b);
    } else {
      a := ShelfIsMentioned(front, lotNumber, before.locations[x]);
    }
  }

  lemma {:induction false} StockOrder(lot: Lot, locations: seq<string>, quantity: map<string, int>, i: nat, j: nat) returns (x: nat, y: nat)
    requires i < j < |StockAt(lot, locations, quantity)|
    ensures x < y < |locations|
    ensures StockAt(lot, locations, quantity)[i].locationId == locations[x] && StockAt(lot, locations, quantity)[j].locationId == locations[y]
  {
    var front := locations[..|locations| - 1];
    if j < |StockAt(lot, front, quantity)| {
      x, y := StockOrder(lot, front, quantity, i, j);
    } else {
      x := StockItem(lot, front, quantity, i);
      y := |front|;
    }
  }

  lemma {:induction false} PickableByMention(lots: seq<Lot>, entries: seq<Entry>, i: nat, j: nat, b: int) returns (a: int)
    requires i < j < |Pickable(lots, entries)| && Pickable(lots, entries)[i].lotNumber == Pickable(lots, entries)[j].lotNumber
    requires MentionedAt(entries, Pickable(lots, entries)[j].lotNumber, Pickable(lots, entries)[j].locationId, b)
    ensures a < b && MentionedAt(entries, Pickable(lots, entries)[i].lotNumber, Pickable(lots, entries)[i].locationId, a)
  {
    var front, lot := lots[..|lots| - 1], lots[|lots| - 1];
    var n, shelf := |Pickable(front, entries)|, Balances(entries, lot.lotNumber);
    assert lots == front + [lot];
    if j < n {
      a := PickableByMention(front, entries, i, j, b);
    } else if i < n {
      OtherLotOrder(front, lot, entries, i, j);
      assert false;
    } else {
      SameLotOrder(front, lot, entries, i, j);
      var x, y := StockOrder(lot, shelf.locations, shelf.quantity, i - n, j - n);
      a := ShelfOrder(entries, lot.lotNumber, x, y, b);
    }
  }

  /** A lot's locations are picked in the order in which the ledger first mentions them: before any entry of a later one
      there is one of an earlier one. */
  lemma LocationsByMention(layers: seq<Layer>, entries: seq<Entry>, quantity: int, picks: seq<Pick>, i: nat, j: nat, b: int) returns (a: int)
    requires Suggestion(true, layers, entries, quantity) == Suggested(picks) && i < j < |picks| && picks[i].lotNumber == picks[j].lotNumber
    requires MentionedAt(entries, picks[j].lotNumber, picks[j].locationId, b)
    ensures a < b && MentionedAt(entries, picks[i].lotNumber, picks[i].locationId, a)
  {
    PickablePositive(LotsOf(layers), entries);
    TakeIsPrefix(Pickable(LotsOf(layers), entries), quantity, i);
    TakeIsPrefix(Pickable(LotsOf(layers), entries), quantity, j);
    a := PickableByMention(LotsOf(layers), entries, i, j, b);
  }
}
