/** First-expiry-first-out picking: physical balances per lot and location come from the ledger, the order
    of the lots from the active cost layers. Quantities are whole units. */
module FefoPicking {
  import opened Numbers
  import opened Options

  datatype Lot = Lot(lotNumber: string, expirationDate: int)

  datatype Layer = Layer(lot: Option<Lot>)

  datatype Entry = Entry(lotNumber: Option<string>, locationId: string, quantity: int)

  datatype Pick = Pick(locationId: string, lotNumber: string, expirationDate: int, quantity: int)

  datatype Outcome =
    | Suggested(picks: seq<Pick>)
    | NotPositive
    | UnknownSku
    | NoLotLayers
    | Insufficient(missing: int)

  // ---------- balances ----------

  /** The balances of one lot, locations in the order the ledger first mentions them. */
  datatype Shelf = Shelf(locations: seq<string>, quantity: map<string, int>)
  {
    ghost predicate Valid() {
      && (forall i, j :: 0 <= i < j < |locations| ==> locations[i] != locations[j])
      && (forall loc :: loc in quantity <==> loc in locations)
    }

    predicate Empty() { forall loc :: loc in quantity ==> quantity[loc] <= 0 }

    function At(loc: string): int { if loc in quantity then quantity[loc] else 0 }

    function Plus(loc: string, amount: int): Shelf {
      if loc in quantity then this.(quantity := quantity[loc := quantity[loc] + amount])
      else Shelf(locations + [loc], quantity[loc := amount])
    }
  }

  const NO_SHELF := Shelf([], map[])

  predicate Mentions(e: Entry, lotNumber: string) {
    e.lotNumber.Some? && e.lotNumber.value != "" && e.lotNumber.value == lotNumber
  }

  function Balances(entries: seq<Entry>, lotNumber: string): Shelf {
    if entries == [] then NO_SHELF
    else
      var e, shelf := entries[|entries| - 1], Balances(entries[..|entries| - 1], lotNumber);
      if Mentions(e, lotNumber) then shelf.Plus(e.locationId, e.quantity) else shelf
  }

  function Net(entries: seq<Entry>, lotNumber: string, locationId: string): int {
    if entries == [] then 0
    else
      var e := entries[|entries| - 1];
      Net(entries[..|entries| - 1], lotNumber, locationId)
      + if Mentions(e, lotNumber) && e.locationId == locationId then e.quantity else 0
  }

  /** The shelf of a lot holds its net balance at each location, each location once. */
  lemma {:induction false} BalancesAreNet(entries: seq<Entry>, lotNumber: string)
    ensures Balances(entries, lotNumber).Valid()
    ensures forall loc :: Net(entries, lotNumber, loc) == Balances(entries, lotNumber).At(loc)
  {
    if entries != [] {
      BalancesAreNet(entries[..|entries| - 1], lotNumber);
    }
  }

  ghost predicate Grouped(lotBalances: map<string, Shelf>, entries: seq<Entry>) {
    forall lot :: Balances(entries, lot) == if lot in lotBalances then lotBalances[lot] else NO_SHELF
  }

  /** The outer loop's body for one ledger entry. */
  method Add(lotBalances: map<string, Shelf>, entry: Entry, ghost before: seq<Entry>) returns (r: map<string, Shelf>)
    requires Grouped(lotBalances, before)
    ensures Grouped(r, before + [entry])
  {
    ghost var after := before + [entry];
    assert after[..|after| - 1] == before;
    if entry.lotNumber.None? || entry.lotNumber.value == "" { return lotBalances; }
    var lot, loc := entry.lotNumber.value, entry.locationId;
    var balancesForLot := if lot in lotBalances then lotBalances[lot] else NO_SHELF;
    r := lotBalances[lot := balancesForLot.Plus(loc, entry.quantity)];
  }

  method GroupBalances(entries: seq<Entry>) returns (lotBalances: map<string, Shelf>)
    ensures Grouped(lotBalances, entries)
  {
    lotBalances := map[];
    ghost var done := [];
    for i := 0 to |entries|
      invariant done == entries[..i] && Grouped(lotBalances, done)
    {
      lotBalances := Add(lotBalances, entries[i], done);
      done := done + [entries[i]];
    }
    assert done == entries;
  }

  // ---------- the specification: draw from the front of one list ----------

  function Total(picks: seq<Pick>): int {
    if picks == [] then 0 else Total(picks[..|picks| - 1]) + picks[|picks| - 1].quantity
  }

  /** What a lot can give: its positive balances, location by location. */
  function StockAt(lot: Lot, locations: seq<string>, quantity: map<string, int>): seq<Pick> {
    if locations == [] then []
    else
      var loc := locations[|locations| - 1];
      StockAt(lot, locations[..|locations| - 1], quantity)
      + if loc in quantity && quantity[loc] > 0 then [Pick(loc, lot.lotNumber, lot.expirationDate, quantity[loc])] else []
  }

  function Stock(lot: Lot, shelf: Shelf): seq<Pick> { StockAt(lot, shelf.locations, shelf.quantity) }

  /** Everything that can be picked, lot by lot in the order of the lots' first layers. */
  function Pickable(lots: seq<Lot>, entries: seq<Entry>): seq<Pick> {
    if lots == [] then []
    else
      var lot := lots[|lots| - 1];
      Pickable(lots[..|lots| - 1], entries)
      + if LotIn(lots[..|lots| - 1], lot.lotNumber) then [] else Stock(lot, Balances(entries, lot.lotNumber))
  }

  predicate LotIn(lots: seq<Lot>, lotNumber: string) { exists l :: l in lots && l.lotNumber == lotNumber }

  /** Draw n units from the front. */
  function Take(stock: seq<Pick>, n: int): seq<Pick> {
    if stock == [] || n <= 0 then []
    else
      var q := stock[0].quantity;
      if n <= q then [stock[0].(quantity := n)] else [stock[0]] + Take(stock[1..], n - q)
  }

  function LotsOf(layers: seq<Layer>): seq<Lot> {
    if layers == [] then []
    else
      var l := layers[|layers| - 1].lot;
      LotsOf(layers[..|layers| - 1]) + if l.Some? then [l.value] else []
  }

  function Greedy(stock: seq<Pick>, quantity: int): Outcome {
    if Total(stock) < quantity then Insufficient(quantity - Total(stock)) else Suggested(Take(stock, quantity))
  }

  function Suggestion(found: bool, layers: seq<Layer>, entries: seq<Entry>, quantity: int): Outcome {
    if quantity <= 0 then NotPositive
    else if !found then UnknownSku
    else if LotsOf(layers) == [] then NoLotLayers
    else Greedy(Pickable(LotsOf(layers), entries), quantity)
  }

  // ---------- facts about drawing ----------

  ghost predicate Positive(stock: seq<Pick>) { forall i :: 0 <= i < |stock| ==> stock[i].quantity > 0 }

  lemma {:induction false} TotalJoin(a: seq<Pick>, b: seq<Pick>)
    ensures Total(a + b) == Total(a) + Total(b)
  {
    if b == [] {
      assert a + b == a;
    } else {
      TotalJoin(a, b[..|b| - 1]);
      assert (a + b)[..|a + b| - 1] == a + b[..|b| - 1];
    }
  }

  lemma TotalFirst(a: seq<Pick>)
    requires a != []
    ensures Total(a) == a[0].quantity + Total(a[1..])
  {
    assert a == [a[0]] + a[1..] && [a[0]][..0] == [];
    TotalJoin([a[0]], a[1..]);
  }

  lemma {:induction false} TotalNonnegative(a: seq<Pick>)
    requires Positive(a)
    ensures Total(a) >= 0 && (a != [] ==> Total(a) > 0)
  {
    if a != [] { TotalNonnegative(a[..|a| - 1]); }
  }

  lemma TakeFirst(a: seq<Pick>, b: seq<Pick>, n: int)
    requires a != []
    ensures Take(a + b, n) == if n <= 0 then [] else if n <= a[0].quantity then [a[0].(quantity := n)]
                              else [a[0]] + Take(a[1..] + b, n - a[0].quantity)
  {
    assert (a + b)[0] == a[0] && (a + b)[1..] == a[1..] + b;
  }

  lemma {:induction false} TakeFromFirst(a: seq<Pick>, b: seq<Pick>, n: int)
    requires Positive(a) && a != [] && n <= a[0].quantity
    ensures n <= Total(a) && Take(a + b, n) == Take(a, n)
    ensures n == Total(a) ==> Take(a + b, n) == a
  {
    TotalFirst(a);
    TotalNonnegative(a[1..]);
    TakeFirst(a, b, n);
    TakeFirst(a, [], n);
    assert a + [] == a;
  }

  lemma {:induction false} TakeJoin(a: seq<Pick>, b: seq<Pick>, n: int)
    requires Positive(a)
    ensures n <= Total(a) ==> Take(a + b, n) == Take(a, n)
    ensures n >= Total(a) ==> Take(a + b, n) == a + Take(b, n - Total(a))
  {
    if a == [] {
      assert a + b == b;
    } else if n <= a[0].quantity {
      TakeFromFirst(a, b, n);
      assert a + [] == a;
    } else {
      var rest, more := a[1..], Take(b, n - Total(a));
      TotalFirst(a);
      TakeFirst(a, b, n);
      TakeJoin(rest, b, n - a[0].quantity);
      assert a + more == [a[0]] + (rest + more);
    }
  }

  /** Drawing everything, or more. */
  lemma TakeAll(a: seq<Pick>, n: int)
    requires Positive(a) && n >= Total(a)
    ensures Take(a, n) == a
  {
    TakeJoin(a, [], n);
    assert a + [] == a;
  }

  lemma {:induction false} TakeTotal(stock: seq<Pick>, n: int)
    requires Positive(stock) && 0 <= n <= Total(stock)
    ensures Total(Take(stock, n)) == n
  {
    if stock != [] && n > 0 {
      TotalFirst(stock);
      var q := stock[0].quantity;
      if n <= q {
        assert Take(stock, n)[..0] == [];
      } else {
        TakeTotal(stock[1..], n - q);
        TotalFirst(Take(stock, n));
        assert Take(stock, n)[1..] == Take(stock[1..], n - q);
      }
    }
  }

  /** Drawing works from the front: every pick but the last takes all that its place in the list holds. */
  lemma {:induction false} TakeIsPrefix(stock: seq<Pick>, n: int, i: nat)
    requires Positive(stock) && i < |Take(stock, n)|
    ensures |Take(stock, n)| <= |stock|
    ensures var p := Take(stock, n)[i];
            && p == stock[i].(quantity := p.quantity) && 0 < p.quantity <= stock[i].quantity
            && (i + 1 < |Take(stock, n)| ==> p == stock[i])
    decreases |stock|
  {
    if n > stock[0].quantity && |Take(stock[1..], n - stock[0].quantity)| > 0 {
      TakeIsPrefix(stock[1..], n - stock[0].quantity, if i == 0 then 0 else i - 1);
    }
  }

  // ---------- the greedy loops ----------

  lemma {:induction false} StockPositive(lot: Lot, locations: seq<string>, quantity: map<string, int>)
    ensures Positive(StockAt(lot, locations, quantity))
  {
    if locations != [] { StockPositive(lot, locations[..|locations| - 1], quantity); }
  }

  lemma {:induction false} EmptyStock(lot: Lot, locations: seq<string>, quantity: map<string, int>)
    requires forall loc :: loc in quantity ==> quantity[loc] <= 0
    ensures StockAt(lot, locations, quantity) == []
  {
    if locations != [] { EmptyStock(lot, locations[..|locations| - 1], quantity); }
  }

  lemma {:induction false} PickablePositive(lots: seq<Lot>, entries: seq<Entry>)
    ensures Positive(Pickable(lots, entries))
  {
    if lots != [] {
      var shelf := Balances(entries, lots[|lots| - 1].lotNumber);
      PickablePositive(lots[..|lots| - 1], entries);
      StockPositive(lots[|lots| - 1], shelf.locations, shelf.quantity);
    }
  }

  function Missing(stock: seq<Pick>, n: int): int { if n <= Total(stock) then 0 else n - Total(stock) }

  ghost predicate Drawn(stock: seq<Pick>, quantity: int, picks: seq<Pick>, remaining: int) {
    picks == Take(stock, quantity) && remaining == Missing(stock, quantity)
  }

  lemma NothingMissing(picks: seq<Pick>, b: seq<Pick>)
    requires Positive(b)
    ensures picks + Take(b, 0) == picks && Missing(b, 0) == 0
  {
    TotalNonnegative(b);
    assert picks + [] == picks;
  }

  lemma MissingJoin(a: seq<Pick>, b: seq<Pick>, n: int)
    requires Positive(b)
    ensures Missing(a + b, n) == Missing(b, Missing(a, n))
  {
    TotalJoin(a, b);
    TotalNonnegative(b);
  }

  /** Extending the list extends what is drawn by what the new part gives to the units still missing. */
  lemma DrawMore(a: seq<Pick>, b: seq<Pick>, n: int, picks: seq<Pick>, remaining: int)
    requires Positive(a) && Positive(b) && n > 0 && Drawn(a, n, picks, remaining)
    ensures Drawn(a + b, n, picks + Take(b, remaining), Missing(b, remaining))
  {
    TakeJoin(a, b, n);
    MissingJoin(a, b, n);
    if n > Total(a) { TakeAll(a, n); } else { NothingMissing(picks, b); }
  }

  /** What one location gives when `remaining` units are missing. */
  function Given(lot: Lot, loc: string, q: int, remaining: int): seq<Pick> {
    if q > 0 && remaining > 0 then [Pick(loc, lot.lotNumber, lot.expirationDate, Min(remaining, q))] else []
  }

  lemma TakeOne(one: Pick, n: int)
    requires one.quantity > 0 && n >= 0
    ensures Take([one], n) == (if n > 0 then [one.(quantity := Min(n, one.quantity))] else [])
    ensures Missing([one], n) == n - Min(n, one.quantity)
  {
    assert [one][..0] == [] && [one][1..] == [];
    assert Total([one]) == one.quantity;
  }

  lemma DrawLocation(lot: Lot, locations: seq<string>, loc: string, quantity: map<string, int>, n: int,
                     picks: seq<Pick>, remaining: int, q: int)
    requires n > 0 && loc in quantity && q == quantity[loc]
    requires Drawn(StockAt(lot, locations, quantity), n, picks, remaining)
    ensures Drawn(StockAt(lot, locations + [loc], quantity), n, picks + Given(lot, loc, q, remaining),
                  remaining - if q > 0 then Min(remaining, q) else 0)
  {
    var stock := StockAt(lot, locations, quantity);
    StockPositive(lot, locations, quantity);
    assert (locations + [loc])[..|locations|] == locations;
    if q > 0 {
      var one := Pick(loc, lot.lotNumber, lot.expirationDate, q);
      DrawMore(stock, [one], n, picks, remaining);
      TakeOne(one, remaining);
    } else {
      assert stock + [] == stock;
      assert picks + [] == picks;
    }
  }

  /** Locations from i on as they were; when units are still missing, nothing left before i. */
  ghost predicate Picked(rest: Shelf, shelf: Shelf, i: nat, missing: bool)
    requires i <= |shelf.locations|
  {
    && rest.locations == shelf.locations
    && (forall loc :: loc in shelf.quantity <==> loc in rest.quantity)
    && (forall k :: 0 <= k < |shelf.locations| ==> shelf.locations[k] in shelf.quantity)
    && (forall k :: i <= k < |shelf.locations| ==> rest.quantity[shelf.locations[k]] == shelf.quantity[shelf.locations[k]])
    && (missing ==> forall k :: 0 <= k < i ==> rest.quantity[shelf.locations[k]] <= 0)
  }

  /** The inner loop's body: take from one location, and keep the rest of its balance. */
  method PickLocation(lot: Lot, rest: Shelf, remaining: int, ghost shelf: Shelf, i: nat)
    returns (left: Shelf, missing: int, picks: seq<Pick>)
    requires i < |shelf.locations| && shelf.Valid() && remaining >= 0 && Picked(rest, shelf, i, remaining > 0)
    ensures var q := shelf.quantity[shelf.locations[i]];
            && picks == Given(lot, shelf.locations[i], q, remaining)
            && missing == remaining - (if q > 0 then Min(remaining, q) else 0)
    ensures Picked(left, shelf, i + 1, missing > 0)
  {
    left, missing, picks := rest, remaining, [];
    var locationId := rest.locations[i];
    var locationQty := rest.quantity[locationId];
    if locationQty <= 0 { return; }
    if remaining <= 0 { return; }
    var taken := Min(remaining, locationQty);
    left := rest.(quantity := rest.quantity[locationId := locationQty - taken]);
    missing := remaining - taken;
    picks := [Pick(locationId, lot.lotNumber, lot.expirationDate, taken)];
  }

  lemma EmptyShelf(rest: Shelf, shelf: Shelf, missing: bool)
    requires shelf.Valid() && Picked(rest, shelf, |shelf.locations|, missing)
    ensures rest.Valid() && (missing ==> rest.Empty())
  {
    if missing {
      forall loc | loc in rest.quantity ensures rest.quantity[loc] <= 0 {
        var k :| 0 <= k < |shelf.locations| && shelf.locations[k] == loc;
      }
    }
  }

  method PickNext(lot: Lot, rest: Shelf, remaining: int, picks: seq<Pick>, ghost shelf: Shelf, ghost done: seq<string>,
                  i: nat, ghost quantity: int)
    returns (left: Shelf, missing: int, picked: seq<Pick>)
    requires quantity > 0 && i < |shelf.locations| && shelf.Valid() && remaining >= 0 && Picked(rest, shelf, i, remaining > 0)
    requires Drawn(StockAt(lot, done, shelf.quantity), quantity, picks, remaining)
    ensures missing >= 0 && Picked(left, shelf, i + 1, missing > 0)
    ensures Drawn(StockAt(lot, done + [shelf.locations[i]], shelf.quantity), quantity, picked, missing)
  {
    ghost var loc := shelf.locations[i];
    DrawLocation(lot, done, loc, shelf.quantity, quantity, picks, remaining, shelf.quantity[loc]);
    var more;
    left, missing, more := PickLocation(lot, rest, remaining, shelf, i);
    picked := picks + more;
  }

  /** The inner loop: draw from the lot's locations, and keep what is left of its balances. */
  method PickLot(lot: Lot, shelf: Shelf, quantity: int) returns (rest: Shelf, remaining: int, picks: seq<Pick>)
    requires quantity > 0 && shelf.Valid()
    ensures Drawn(Stock(lot, shelf), quantity, picks, remaining)
    ensures rest.Valid() && (remaining > 0 ==> rest.Empty())
  {
    rest, remaining, picks := shelf, quantity, [];
    ghost var done := [];
    for i := 0 to |shelf.locations|
      invariant done == shelf.locations[..i] && remaining >= 0
      invariant Drawn(StockAt(lot, done, shelf.quantity), quantity, picks, remaining)
      invariant Picked(rest, shelf, i, remaining > 0)
    {
      rest, remaining, picks := PickNext(lot, rest, remaining, picks, shelf, done, i, quantity);
      done := done + [shelf.locations[i]];
    }
    assert done == shelf.locations;
    EmptyShelf(rest, shelf, remaining > 0);
  }

  /** Lots with a layer so far are drained while units are missing; the others are as the ledger has them. */
  ghost predicate Consumed(lotBalances: map<string, Shelf>, entries: seq<Entry>, done: seq<Lot>) {
    forall lot :: var shelf := if lot in lotBalances then lotBalances[lot] else NO_SHELF;
                  shelf.Valid() && if LotIn(done, lot) then shelf.Empty() else shelf == Balances(entries, lot)
  }

  lemma DrawLot(done: seq<Lot>, lot: Lot, entries: seq<Entry>, shelf: Shelf, n: int, picks: seq<Pick>, remaining: int)
    requires n > 0 && Drawn(Pickable(done, entries), n, picks, remaining)
    requires if LotIn(done, lot.lotNumber) then shelf.Empty() else shelf == Balances(entries, lot.lotNumber)
    ensures Drawn(Pickable(done + [lot], entries), n, picks + Take(Stock(lot, shelf), remaining), Missing(Stock(lot, shelf), remaining))
  {
    assert (done + [lot])[..|done|] == done;
    PickablePositive(done, entries);
    StockPositive(lot, shelf.locations, shelf.quantity);
    if LotIn(done, lot.lotNumber) { EmptyStock(lot, shelf.locations, shelf.quantity); }
    DrawMore(Pickable(done, entries), Stock(lot, shelf), n, picks, remaining);
  }

  /** Nothing more is drawn from the lots after the quantity is reached. */
  lemma {:induction false} RestOfLots(lots: seq<Lot>, k: nat, entries: seq<Entry>, n: int, picks: seq<Pick>)
    requires n > 0 && k <= |lots| && Drawn(Pickable(lots[..k], entries), n, picks, 0)
    ensures Drawn(Pickable(lots, entries), n, picks, 0)
  {
    if k == |lots| {
      assert lots[..k] == lots;
    } else {
      var front, lot := lots[..|lots| - 1], lots[|lots| - 1];
      assert front[..k] == lots[..k] && lots == front + [lot];
      RestOfLots(front, k, entries, n, picks);
      var shelf := if LotIn(front, lot.lotNumber) then NO_SHELF else Balances(entries, lot.lotNumber);
      DrawLot(front, lot, entries, shelf, n, picks, 0);
      StockPositive(lot, shelf.locations, shelf.quantity);
      TotalNonnegative(Stock(lot, shelf));
      assert picks + [] == picks;
    }
  }

  lemma ConsumedStep(done: seq<Lot>, lot: Lot)
    ensures forall l :: LotIn(done + [lot], l) <==> LotIn(done, l) || l == lot.lotNumber
  {
    forall l ensures LotIn(done + [lot], l) <==> LotIn(done, l) || l == lot.lotNumber {
      assert lot in done + [lot];
      assert forall x :: x in done ==> x in done + [lot];
    }
  }

  /** The outer loop's body. */
  method PickLayer(lotBalances: map<string, Shelf>, lot: Lot, remaining: int, suggestions: seq<Pick>,
                   ghost done: seq<Lot>, ghost entries: seq<Entry>, ghost quantity: int)
    returns (left: map<string, Shelf>, missing: int, picks: seq<Pick>)
    requires quantity > 0 && remaining > 0 && Consumed(lotBalances, entries, done)
    requires Drawn(Pickable(done, entries), quantity, suggestions, remaining)
    ensures Drawn(Pickable(done + [lot], entries), quantity, picks, missing)
    ensures missing > 0 ==> Consumed(left, entries, done + [lot])
  {
    ghost var shelf := if lot.lotNumber in lotBalances then lotBalances[lot.lotNumber] else NO_SHELF;
    DrawLot(done, lot, entries, shelf, quantity, suggestions, remaining);
    ConsumedStep(done, lot);
    left, missing, picks := lotBalances, remaining, suggestions;
    if lot.lotNumber !in lotBalances {
      assert picks + [] == picks;
      return;
    }
    var rest, more;
    rest, missing, more := PickLot(lot, lotBalances[lot.lotNumber], remaining);
    left := lotBalances[lot.lotNumber := rest];
    picks := suggestions + more;
  }

  /** The outer loop, and the shortage check after it. */
  method PickLots(lotLayers: seq<Lot>, entries: seq<Entry>, quantity: int) returns (r: Outcome)
    requires quantity > 0
    ensures r == Greedy(Pickable(lotLayers, entries), quantity)
  {
    var lotBalances := GroupBalances(entries);
    forall lot ensures Balances(entries, lot).Valid() { BalancesAreNet(entries, lot); }
    var suggestions, remainingToPick := [], quantity;
    ghost var done := [];
    for i := 0 to |lotLayers|
      invariant done == lotLayers[..i] && remainingToPick > 0
      invariant Drawn(Pickable(done, entries), quantity, suggestions, remainingToPick)
      invariant Consumed(lotBalances, entries, done)
    {
      lotBalances, remainingToPick, suggestions :=
        PickLayer(lotBalances, lotLayers[i], remainingToPick, suggestions, done, entries, quantity);
      done := done + [lotLayers[i]];
      if remainingToPick <= 0 {
        assert lotLayers[..i + 1] == done;
        RestOfLots(lotLayers, i + 1, entries, quantity, suggestions);
        return Suggested(suggestions);
      }
    }
    assert done == lotLayers;
    r := Insufficient(remainingToPick);
  }

  method SuggestFefoPicking(found: bool, activeLayers: seq<Layer>, entries: seq<Entry>, quantity: int)
    returns (r: Outcome)
    ensures r == Suggestion(found, activeLayers, entries, quantity)
  {
    if quantity <= 0 { return NotPositive; }
    if !found { return UnknownSku; }
    var lotLayers := LotsOf(activeLayers);
    if |lotLayers| == 0 { return NoLotLayers; }
    r := PickLots(lotLayers, entries, quantity);
  }
}
