/** What a first-expiry-first-out suggestion means in terms of lots and ledger balances. */
module FefoProperties {
  import opened Options
  import opened FefoPicking
  import MapSums

  /** Position of the first layer of a lot that has one. */
  function First(lots: seq<Lot>, lotNumber: string): (r: nat)
    requires LotIn(lots, lotNumber)
    ensures r < |lots| && lots[r].lotNumber == lotNumber
  {
    var front := lots[..|lots| - 1];
    if LotIn(front, lotNumber) then First(front, lotNumber)
    else
      assert lots == front + [lots[|lots| - 1]];
      |front|
  }

  lemma FirstOfFront(front: seq<Lot>, lot: Lot, lotNumber: string)
    ensures LotIn(front + [lot], lotNumber) <==> LotIn(front, lotNumber) || lot.lotNumber == lotNumber
    ensures LotIn(front + [lot], lotNumber)
            ==> First(front + [lot], lotNumber) == if LotIn(front, lotNumber) then First(front, lotNumber) else |front|
  {
    ConsumedStep(front, lot);
    assert (front + [lot])[..|front|] == front;
  }

  // ---------- the pickable stock ----------

  /** The pick of everything a lot has at a location, dated by the lot's first layer. */
  function WholePick(lots: seq<Lot>, entries: seq<Entry>, lotNumber: string, loc: string): Pick
    requires LotIn(lots, lotNumber)
  {
    Pick(loc, lotNumber, lots[First(lots, lotNumber)].expirationDate, Net(entries, lotNumber, loc))
  }

  ghost predicate Keyed(p: Pick, q: Pick) { p.lotNumber == q.lotNumber && p.locationId == q.locationId }

  lemma {:induction false} StockItem(lot: Lot, locations: seq<string>, quantity: map<string, int>, i: nat) returns (j: nat)
    requires i < |StockAt(lot, locations, quantity)|
    ensures j < |locations| && locations[j] in quantity && quantity[locations[j]] > 0
    ensures StockAt(lot, locations, quantity)[i] == Pick(locations[j], lot.lotNumber, lot.expirationDate, quantity[locations[j]])
  {
    var front := locations[..|locations| - 1];
    if i < |StockAt(lot, front, quantity)| { j := StockItem(lot, front, quantity, i); } else { j := |front|; }
  }

  lemma {:induction false} StockHas(lot: Lot, locations: seq<string>, quantity: map<string, int>, j: nat) returns (i: nat)
    requires j < |locations| && locations[j] in quantity && quantity[locations[j]] > 0
    ensures i < |StockAt(lot, locations, quantity)|
    ensures StockAt(lot, locations, quantity)[i] == Pick(locations[j], lot.lotNumber, lot.expirationDate, quantity[locations[j]])
  {
    var front := locations[..|locations| - 1];
    if j < |front| { i := StockHas(lot, front, quantity, j); } else { i := |StockAt(lot, front, quantity)|; }
  }

  lemma {:induction false} StockDistinct(lot: Lot, locations: seq<string>, quantity: map<string, int>, i: nat, j: nat)
    requires i < j < |StockAt(lot, locations, quantity)|
    requires forall x, y :: 0 <= x < y < |locations| ==> locations[x] != locations[y]
    ensures StockAt(lot, locations, quantity)[i].locationId != StockAt(lot, locations, quantity)[j].locationId
  {
    var front := locations[..|locations| - 1];
    if j < |StockAt(lot, front, quantity)| {
      StockDistinct(lot, front, quantity, i, j);
    } else {
      var k := StockItem(lot, front, quantity, i);
    }
  }

  /** Every item of the pickable stock is all of some lot at some location. */
  lemma {:induction false} PickableItem(lots: seq<Lot>, entries: seq<Entry>, i: nat)
    requires i < |Pickable(lots, entries)|
    ensures var p := Pickable(lots, entries)[i];
            LotIn(lots, p.lotNumber) && p == WholePick(lots, entries, p.lotNumber, p.locationId) && p.quantity > 0
  {
    var front, lot := lots[..|lots| - 1], lots[|lots| - 1];
    assert lots == front + [lot];
    if i < |Pickable(front, entries)| {
      PickableItem(front, entries, i);
      FirstOfFront(front, lot, Pickable(lots, entries)[i].lotNumber);
    } else {
      var shelf := Balances(entries, lot.lotNumber);
      BalancesAreNet(entries, lot.lotNumber);
      var j := StockItem(lot, shelf.locations, shelf.quantity, i - |Pickable(front, entries)|);
      FirstOfFront(front, lot, lot.lotNumber);
      assert Net(entries, lot.lotNumber, shelf.locations[j]) == shelf.At(shelf.locations[j]);
    }
  }

  /** Every positive balance of a lot with a layer is in the pickable stock. */
  lemma {:induction false} PickableHas(lots: seq<Lot>, entries: seq<Entry>, lotNumber: string, loc: string) returns (i: nat)
    requires LotIn(lots, lotNumber) && Net(entries, lotNumber, loc) > 0
    ensures i < |Pickable(lots, entries)| && Pickable(lots, entries)[i] == WholePick(lots, entries, lotNumber, loc)
  {
    var front, lot := lots[..|lots| - 1], lots[|lots| - 1];
    assert lots == front + [lot];
    FirstOfFront(front, lot, lotNumber);
    if LotIn(front, lotNumber) {
      i := PickableHas(front, entries, lotNumber, loc);
    } else {
      var shelf := Balances(entries, lotNumber);
      BalancesAreNet(entries, lotNumber);
      assert Net(entries, lotNumber, loc) == shelf.At(loc);
      var j :| 0 <= j < |shelf.locations| && shelf.locations[j] == loc;
      i := StockHas(lot, shelf.locations, shelf.quantity, j);
      i := |Pickable(front, entries)| + i;
    }
  }

  lemma SameLotOrder(front: seq<Lot>, lot: Lot, entries: seq<Entry>, i: nat, j: nat)
    requires |Pickable(front, entries)| <= i < j < |Pickable(front + [lot], entries)|
    ensures var p, q := Pickable(front + [lot], entries)[i], Pickable(front + [lot], entries)[j];
            p.lotNumber == q.lotNumber == lot.lotNumber && p.locationId != q.locationId
  {
    assert (front + [lot])[..|front|] == front;
    var shelf, n := Balances(entries, lot.lotNumber), |Pickable(front, entries)|;
    BalancesAreNet(entries, lot.lotNumber);
    var x := StockItem(lot, shelf.locations, shelf.quantity, i - n);
    var y := StockItem(lot, shelf.locations, shelf.quantity, j - n);
    StockDistinct(lot, shelf.locations, shelf.quantity, i - n, j - n);
  }

  lemma OtherLotOrder(front: seq<Lot>, lot: Lot, entries: seq<Entry>, i: nat, j: nat)
    requires i < |Pickable(front, entries)| <= j < |Pickable(front + [lot], entries)|
    ensures var p, q := Pickable(front, entries)[i], Pickable(front + [lot], entries)[j];
            LotIn(front, p.lotNumber) && !LotIn(front, q.lotNumber) && q.lotNumber == lot.lotNumber
  {
    assert (front + [lot])[..|front|] == front;
    PickableItem(front, entries, i);
    var shelf := Balances(entries, lot.lotNumber);
    var x := StockItem(lot, shelf.locations, shelf.quantity, j - |Pickable(front, entries)|);
  }

  /** The stock is ordered by the lots' first layers, and holds each lot and location once. */
  lemma {:induction false} PickableOrder(lots: seq<Lot>, entries: seq<Entry>, i: nat, j: nat)
    requires i < j < |Pickable(lots, entries)|
    ensures var p, q := Pickable(lots, entries)[i], Pickable(lots, entries)[j];
            LotIn(lots, p.lotNumber) && LotIn(lots, q.lotNumber)
            && First(lots, p.lotNumber) <= First(lots, q.lotNumber) && !Keyed(p, q)
  {
    var front, lot := lots[..|lots| - 1], lots[|lots| - 1];
    assert lots == front + [lot];
    var p, q, n := Pickable(lots, entries)[i], Pickable(lots, entries)[j], |Pickable(front, entries)|;
    FirstOfFront(front, lot, p.lotNumber);
    FirstOfFront(front, lot, q.lotNumber);
    if j < n {
      PickableOrder(front, entries, i, j);
    } else if i < n {
      OtherLotOrder(front, lot, entries, i, j);
    } else {
      SameLotOrder(front, lot, entries, i, j);
    }
  }

  // ---------- how much there is ----------

  /** The positive ledger balances of the lots that have an active layer. */
  ghost function PositiveBalances(lots: seq<Lot>, entries: seq<Entry>): map<(string, string), int> {
    var keys := set e | e in entries && e.lotNumber.Some? :: (e.lotNumber.value, e.locationId);
    map k | k in keys && LotIn(lots, k.0) && Net(entries, k.0, k.1) > 0 :: Net(entries, k.0, k.1)
  }

  ghost function AsMap(picks: seq<Pick>): map<(string, string), int> {
    if picks == [] then map[]
    else
      var p := picks[|picks| - 1];
      AsMap(picks[..|picks| - 1])[(p.lotNumber, p.locationId) := p.quantity]
  }

  ghost predicate KeysDiffer(picks: seq<Pick>) {
    forall i, j :: 0 <= i < j < |picks| ==> !Keyed(picks[i], picks[j])
  }

  lemma {:induction false} AsMapKey(picks: seq<Pick>, k: (string, string)) returns (i: nat)
    requires k in AsMap(picks)
    ensures i < |picks| && k == (picks[i].lotNumber, picks[i].locationId)
  {
    var front, p := picks[..|picks| - 1], picks[|picks| - 1];
    if k == (p.lotNumber, p.locationId) { i := |front|; } else { i := AsMapKey(front, k); }
  }

  lemma {:induction false} AsMapValue(picks: seq<Pick>, i: nat)
    requires KeysDiffer(picks) && i < |picks|
    ensures var k := (picks[i].lotNumber, picks[i].locationId); k in AsMap(picks) && AsMap(picks)[k] == picks[i].quantity
  {
    var n := |picks| - 1;
    if i < n {
      AsMapValue(picks[..n], i);
      assert !Keyed(picks[i], picks[n]);
    }
  }

  lemma {:induction false} AsMapTotal(picks: seq<Pick>)
    requires KeysDiffer(picks)
    ensures Total(picks) == MapSums.Sum(AsMap(picks))
  {
    if picks != [] {
      var front, p := picks[..|picks| - 1], picks[|picks| - 1];
      AsMapTotal(front);
      var k := (p.lotNumber, p.locationId);
      if k in AsMap(front) {
        var i := AsMapKey(front, k);
        assert Keyed(picks[i], picks[|front|]);
        assert false;
      }
      MapSums.SumUpdate(AsMap(front), k, p.quantity);
    }
  }

  /** The stock adds up to the positive ledger balances of the lots that have an active layer. */
  lemma StockIsPositiveBalances(lots: seq<Lot>, entries: seq<Entry>)
    ensures Total(Pickable(lots, entries)) == MapSums.Sum(PositiveBalances(lots, entries))
  {
    var stock := Pickable(lots, entries);
    forall i, j | 0 <= i < j < |stock| ensures !Keyed(stock[i], stock[j]) { PickableOrder(lots, entries, i, j); }
    AsMapTotal(stock);
    var m, b := AsMap(stock), PositiveBalances(lots, entries);
    forall k | k in m ensures k in b && b[k] == m[k] {
      var i := AsMapKey(stock, k);
      AsMapValue(stock, i);
      PickableItem(lots, entries, i);
      HasEntry(entries, k.0, k.1);
    }
    forall k | k in b ensures k in m {
      var i := PickableHas(lots, entries, k.0, k.1);
      AsMapValue(stock, i);
    }
    assert m == b;
  }

  lemma {:induction false} HasEntry(entries: seq<Entry>, lotNumber: string, loc: string)
    requires Net(entries, lotNumber, loc) != 0
    ensures exists e :: e in entries && e.lotNumber == Some(lotNumber) && e.locationId == loc
  {
    var front, e := entries[..|entries| - 1], entries[|entries| - 1];
    assert e in entries && forall x :: x in front ==> x in entries;
    if !(Mentions(e, lotNumber) && e.locationId == loc) { HasEntry(front, lotNumber, loc); }
  }

  // ---------- the suggestion ----------

  /** A positive quantity of a known variant with lot layers is suggested exactly when the positive balances
      of those lots reach it; otherwise the shortage is reported. */
  lemma SuggestedIffEnough(layers: seq<Layer>, entries: seq<Entry>, quantity: int)
    requires quantity > 0 && LotsOf(layers) != []
    ensures var r, total := Suggestion(true, layers, entries, quantity), MapSums.Sum(PositiveBalances(LotsOf(layers), entries));
            (r.Suggested? <==> total >= quantity) && (r.Suggested? || r == Insufficient(quantity - total))
  {
    StockIsPositiveBalances(LotsOf(layers), entries);
  }

  /** A suggestion adds up to the quantity; each lot and location is picked once at most, within its balance,
      and only the last pick can leave anything where it picks. */
  lemma SuggestionIsExact(layers: seq<Layer>, entries: seq<Entry>, quantity: int, picks: seq<Pick>)
    requires Suggestion(true, layers, entries, quantity) == Suggested(picks)
    ensures Total(picks) == quantity
    ensures forall i, j :: 0 <= i < j < |picks| ==> !Keyed(picks[i], picks[j])
    ensures forall i :: 0 <= i < |picks| ==>
              var p, balance := picks[i], Net(entries, picks[i].lotNumber, picks[i].locationId);
              LotIn(LotsOf(layers), p.lotNumber) && 0 < p.quantity <= balance && (i + 1 < |picks| ==> p.quantity == balance)
  {
    var lots := LotsOf(layers);
    var stock := Pickable(lots, entries);
    PickablePositive(lots, entries);
    TakeTotal(stock, quantity);
    forall i | 0 <= i < |picks|
      ensures i < |stock| && picks[i] == stock[i].(quantity := picks[i].quantity) && 0 < picks[i].quantity <= stock[i].quantity
      ensures i + 1 < |picks| ==> picks[i] == stock[i]
      ensures LotIn(lots, picks[i].lotNumber) && stock[i].quantity == Net(entries, picks[i].lotNumber, picks[i].locationId)
    {
      TakeIsPrefix(stock, quantity, i);
      PickableItem(lots, entries, i);
    }
    forall i, j | 0 <= i < j < |picks| ensures !Keyed(picks[i], picks[j]) { PickableOrder(lots, entries, i, j); }
  }

  /** A lot is touched only when every lot with an earlier first layer is drained: each of its positive
      balances is picked whole, before. */
  lemma EarlierLotsDrained(layers: seq<Layer>, entries: seq<Entry>, quantity: int, picks: seq<Pick>, i: nat, earlier: string, loc: string)
      returns (j: nat)
    requires Suggestion(true, layers, entries, quantity) == Suggested(picks) && i < |picks|
    requires LotIn(LotsOf(layers), earlier) && LotIn(LotsOf(layers), picks[i].lotNumber)
    requires First(LotsOf(layers), earlier) < First(LotsOf(layers), picks[i].lotNumber) && Net(entries, earlier, loc) > 0
    ensures j < i && picks[j] == WholePick(LotsOf(layers), entries, earlier, loc)
  {
    var lots := LotsOf(layers);
    var stock := Pickable(lots, entries);
    PickablePositive(lots, entries);
    j := PickableHas(lots, entries, earlier, loc);
    TakeIsPrefix(stock, quantity, i);
    if i < j { PickableOrder(lots, entries, i, j); }
    TakeIsPrefix(stock, quantity, j);
  }

  /** A pick carries the expiry of its lot's first layer. */
  lemma PickExpiry(lots: seq<Lot>, entries: seq<Entry>, quantity: int, i: nat)
    requires i < |Take(Pickable(lots, entries), quantity)|
    ensures i < |Pickable(lots, entries)|
    ensures var p := Take(Pickable(lots, entries), quantity)[i];
            && p.lotNumber == Pickable(lots, entries)[i].lotNumber && LotIn(lots, p.lotNumber)
            && First(lots, p.lotNumber) < |lots| && p.expirationDate == lots[First(lots, p.lotNumber)].expirationDate
  {
    PickablePositive(lots, entries);
    TakeIsPrefix(Pickable(lots, entries), quantity, i);
    PickableItem(lots, entries, i);
  }

  /** When the layers come in order of expiry, so do the picks. */
  lemma PicksInExpiryOrder(layers: seq<Layer>, entries: seq<Entry>, quantity: int, picks: seq<Pick>, i: nat, j: nat)
    requires Suggestion(true, layers, entries, quantity) == Suggested(picks) && i < j < |picks|
    requires forall x, y :: 0 <= x < y < |LotsOf(layers)| ==> LotsOf(layers)[x].expirationDate <= LotsOf(layers)[y].expirationDate
    ensures picks[i].expirationDate <= picks[j].expirationDate
  {
    var lots := LotsOf(layers);
    PickExpiry(lots, entries, quantity, i);
    PickExpiry(lots, entries, quantity, j);
    PickableOrder(lots, entries, i, j);
  }
}
