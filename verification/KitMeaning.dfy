/** What assembling and taking apart book and store, variant by variant. */
module KitMeaning {
  import opened Options
  import opened Sorting
  import opened CostLayers
  import opened CostLayerStore
  import opened CostComparison
  import opened BatchCosting
  import opened InventoryValue
  import opened CostOrder
  import opened KitCosting
  import opened KitValue
  import MapSums

  // ---------- the ledger ----------

  /** What the entries book for a variant. */
  ghost function Booked(ledger: seq<Movement>, v: string): int {
    MapSums.Sum(map i | 0 <= i < |ledger| && ledger[i].variantId == v :: ledger[i].quantity)
  }

  /** How many units of a variant one kit has. */
  ghost function PartsOf(components: seq<Component>, v: string): int {
    MapSums.Sum(map i | 0 <= i < |components| && components[i].variantId == v :: components[i].quantity)
  }

  lemma BookedMore(ledger: seq<Movement>, m: Movement, v: string)
    ensures Booked(ledger + [m], v) == Booked(ledger, v) + if m.variantId == v then m.quantity else 0
  {
    var n, all := |ledger|, ledger + [m];
    var before := map i | 0 <= i < n && ledger[i].variantId == v :: ledger[i].quantity;
    var after := map i | 0 <= i < n + 1 && all[i].variantId == v :: all[i].quantity;
    if m.variantId == v {
      assert after == before[n := m.quantity];
      MapSums.SumUpdate(before, n, m.quantity);
    } else {
      assert after == before;
    }
  }

  lemma {:induction false} BookedJoin(a: seq<Movement>, b: seq<Movement>, v: string)
    ensures Booked(a + b, v) == Booked(a, v) + Booked(b, v)
  {
    if b == [] {
      assert a + b == a;
    } else {
      var front, m := b[..|b| - 1], b[|b| - 1];
      BookedJoin(a, front, v);
      assert a + b == (a + front) + [m] && b == front + [m];
      BookedMore(a + front, m, v);
      BookedMore(front, m, v);
    }
  }

  lemma NoParts(components: seq<Component>, v: string)
    requires forall i :: 0 <= i < |components| ==> components[i].variantId != v
    ensures PartsOf(components, v) == 0
  {
    var m := map i | 0 <= i < |components| && components[i].variantId == v :: components[i].quantity;
    assert m == map[];
  }

  lemma PartsMore(components: seq<Component>, c: Component, v: string)
    ensures PartsOf(components + [c], v) == PartsOf(components, v) + if c.variantId == v then c.quantity else 0
  {
    var n, all := |components|, components + [c];
    var before := map i | 0 <= i < n && components[i].variantId == v :: components[i].quantity;
    var after := map i | 0 <= i < n + 1 && all[i].variantId == v :: all[i].quantity;
    if c.variantId == v {
      assert after == before[n := c.quantity];
      MapSums.SumUpdate(before, n, c.quantity);
    } else {
      assert after == before;
    }
  }

  lemma SignedParts(sign: int, parts: int, part: int, quantity: int)
    ensures sign * (parts * quantity) + sign * (part * quantity) == sign * ((parts + part) * quantity)
  {
    assert parts * quantity + part * quantity == (parts + part) * quantity;
  }

  lemma {:induction false} MovesBook(components: seq<Component>, quantity: int, sign: int, v: string)
    ensures Booked(Moves(Needed(components, quantity), sign), v) == sign * (PartsOf(components, v) * quantity)
  {
    if components == [] {
      NothingBooked(Moves(Needed(components, quantity), sign), v);
      NoParts(components, v);
    } else {
      var front, c := components[..|components| - 1], components[|components| - 1];
      var m := Movement(c.variantId, sign * (c.quantity * quantity));
      MovesBook(front, quantity, sign, v);
      assert components == front + [c];
      assert Moves(Needed(components, quantity), sign) == Moves(Needed(front, quantity), sign) + [m];
      BookedMore(Moves(Needed(front, quantity), sign), m, v);
      PartsMore(front, c, v);
      SignedParts(sign, PartsOf(front, v), if c.variantId == v then c.quantity else 0, quantity);
    }
  }

  lemma OneMovement(m: Movement, v: string)
    ensures Booked([m], v) == if m.variantId == v then m.quantity else 0
  {
    assert [] + [m] == [m];
    BookedMore([], m, v);
    NothingBooked([], v);
  }

  lemma NothingBooked(ledger: seq<Movement>, v: string)
    requires forall i :: 0 <= i < |ledger| ==> ledger[i].variantId != v
    ensures Booked(ledger, v) == 0
  {
    var m := map i | 0 <= i < |ledger| && ledger[i].variantId == v :: ledger[i].quantity;
    assert m == map[];
  }

  /** Assembling books the kits in and every variant's parts for them out. */
  lemma AssemblyBooks(rows: seq<Layer>, components: seq<Component>, kitVariantId: string, quantity: int,
                      available: map<string, int>, layerId: string, now: real, k: Kitted, v: string)
    requires Assembly(rows, components, kitVariantId, quantity, available, layerId, now) == Some(k)
    ensures Booked(k.ledger, v) == (if v == kitVariantId then quantity else 0) - PartsOf(components, v) * quantity
  {
    var moves := Moves(Needed(components, quantity), -1);
    MovesBook(components, quantity, -1, v);
    BookedJoin(moves, [Movement(kitVariantId, quantity)], v);
    OneMovement(Movement(kitVariantId, quantity), v);
  }

  /** Taking kits apart books the kits out and the parts in. */
  lemma DisassemblyBooks(rows: seq<Layer>, components: seq<Component>, kitVariantId: string, quantity: int,
                         availableKits: int, ids: seq<string>, now: real, k: Kitted, v: string)
    requires |ids| == |components| && Disassembly(rows, components, kitVariantId, quantity, availableKits, ids, now) == Some(k)
    ensures Booked(k.ledger, v) == PartsOf(components, v) * quantity - if v == kitVariantId then quantity else 0
  {
    var moves := Moves(Needed(components, quantity), 1);
    MovesBook(components, quantity, 1, v);
    BookedJoin([Movement(kitVariantId, -quantity)], moves, v);
    OneMovement(Movement(kitVariantId, -quantity), v);
  }

  // ---------- the layers ----------

  /** Units of a variant in the stored layers. */
  ghost function Stored(rows: seq<Layer>, v: string): int { TotalUnits(Filter(rows, IsVariant(v))) }

  lemma StoredMore(rows: seq<Layer>, l: Layer, v: string)
    ensures Stored(rows + [l], v) == Stored(rows, v) + if l.variantId == v then l.Remaining() else 0
  {
    var own := Filter(rows, IsVariant(v));
    FilterLast(rows + [l], IsVariant(v));
    assert Front(rows + [l]) == rows && Last(rows + [l]) == l;
    TotalsJoin(own, [l]);
    assert TotalUnits([l]) == l.Remaining() + TotalUnits([l][1..]);
    assert own + [] == own;
  }

  lemma SameLineSameUnits(rows: seq<Layer>, after: seq<Layer>, v: string)
    requires Line(after, v, FIFO) == Line(rows, v, FIFO)
    ensures Stored(after, v) == Stored(rows, v)
  {
    TotalsOrder(Filter(rows, IsVariant(v)), FIFO);
    TotalsOrder(Filter(after, IsVariant(v)), FIFO);
  }

  /** Consuming one item takes its units from its variant's layers and from no others. */
  lemma ItemLeaves(rows: seq<Layer>, item: Item, v: string)
    requires Table(rows) && item.quantity >= 0 && ConsumeLayers(rows, item.variantId, item.quantity, FIFO).0.Charged?
    ensures Stored(ConsumeLayers(rows, item.variantId, item.quantity, FIFO).1, v)
            == Stored(rows, v) - if item.variantId == v then item.quantity else 0
  {
    if item.variantId == v {
      TakesUnitsAndValue(rows, v, item.quantity, FIFO);
    } else {
      ConsumeLayersEffect(rows, item.variantId, item.quantity, FIFO);
      SameLineSameUnits(rows, ConsumeLayers(rows, item.variantId, item.quantity, FIFO).1, v);
    }
  }

  lemma {:induction false} LastItemLeaves(rows: seq<Layer>, items: seq<Item>, v: string)
    requires Table(rows) && items != [] && Last(items).quantity >= 0 && Sequential(rows, items, map[]).Some?
    ensures Sequential(rows, Front(items), map[]).Some?
    ensures Stored(Sequential(rows, items, map[]).value.0, v)
            == Stored(Sequential(rows, Front(items), map[]).value.0, v) - if Last(items).variantId == v then Last(items).quantity else 0
  {
    SequentialMeaning(rows, Front(items), map[]);
    ItemLeaves(Sequential(rows, Front(items), map[]).value.0, Last(items), v);
  }

  lemma LastMoveBooks(items: seq<Item>, v: string)
    requires items != []
    ensures Booked(Moves(items, -1), v) == Booked(Moves(Front(items), -1), v) - if Last(items).variantId == v then Last(items).quantity else 0
  {
    var m := Movement(Last(items).variantId, -1 * Last(items).quantity);
    assert Moves(items, -1) == Moves(Front(items), -1) + [m];
    BookedMore(Moves(Front(items), -1), m, v);
  }

  /** Over several items, every variant loses its items' units, which are booked out. */
  lemma {:induction false} ItemsLeave(rows: seq<Layer>, items: seq<Item>, v: string)
    requires Table(rows) && Sequential(rows, items, map[]).Some? && forall i :: 0 <= i < |items| ==> items[i].quantity >= 0
    ensures Stored(Sequential(rows, items, map[]).value.0, v) == Stored(rows, v) + Booked(Moves(items, -1), v)
  {
    if items == [] {
      NothingBooked(Moves(items, -1), v);
    } else {
      LastItemLeaves(rows, items, v);
      ItemsLeave(rows, Front(items), v);
      LastMoveBooks(items, v);
    }
  }

  /** After an assembly, the layers of every variant hold what they held plus what the ledger books. */
  lemma AssemblyFollowsLedger(rows: seq<Layer>, components: seq<Component>, kitVariantId: string, quantity: int,
                              available: map<string, int>, layerId: string, now: real, k: Kitted, v: string)
    requires Table(rows) && PositiveParts(components) && !HasId(rows, layerId)
    requires Assembly(rows, components, kitVariantId, quantity, available, layerId, now) == Some(k)
    ensures Stored(k.rows, v) == Stored(rows, v) + Booked(k.ledger, v)
  {
    var items := Needed(components, quantity);
    NeedsNothing(components, quantity);
    ItemsLeave(rows, items, v);
    SequentialMeaning(rows, items, map[]);
    var stored := Sequential(rows, items, map[]).value.0;
    StoredMore(stored, KitLayer(layerId, kitVariantId, quantity, k.totalCostCents, now), v);
    BookedMore(Moves(items, -1), Movement(kitVariantId, quantity), v);
  }

  lemma OneReturns(before: seq<Layer>, l: Layer, moves: seq<Movement>, v: string, stored: int)
    requires !HasId(before, l.id) && Stored(before, v) == stored + Booked(moves, v)
    ensures Stored(Upsert(before, l), v) == stored + Booked(moves + [Movement(l.variantId, l.Remaining())], v)
  {
    StoredMore(before, l, v);
    BookedMore(moves, Movement(l.variantId, l.Remaining()), v);
  }

  lemma NewIdStays(rows: seq<Layer>, items: seq<Item>, unitCosts: seq<int>, scale: real, ids: seq<string>, now: real, n: nat)
    requires |items| == |unitCosts| == |ids| == n + 1 && FreshIds(rows, ids)
    ensures !HasId(SaveBatch(rows, RestoredLayers(items[..n], unitCosts[..n], scale, ids[..n], now)), ids[n])
  {
    RestoringAddsValue(rows, items[..n], unitCosts[..n], scale, ids[..n], now);
  }

  lemma {:induction false} PartsReturn(rows: seq<Layer>, items: seq<Item>, unitCosts: seq<int>, scale: real, ids: seq<string>, now: real, v: string)
    requires |items| == |unitCosts| == |ids| && FreshIds(rows, ids)
    ensures Stored(SaveBatch(rows, RestoredLayers(items, unitCosts, scale, ids, now)), v)
            == Stored(rows, v) + Booked(Moves(items, 1), v)
    decreases |items|
  {
    if items == [] {
      NothingBooked(Moves(items, 1), v);
    } else {
      var n := |items| - 1;
      var layers, front := RestoredLayers(items, unitCosts, scale, ids, now), RestoredLayers(items[..n], unitCosts[..n], scale, ids[..n], now);
      PartsReturn(rows, items[..n], unitCosts[..n], scale, ids[..n], now, v);
      NewIdStays(rows, items, unitCosts, scale, ids, now, n);
      assert layers[..n] == front;
      assert Moves(items, 1) == Moves(items[..n], 1) + [Movement(layers[n].variantId, layers[n].Remaining())];
      OneReturns(SaveBatch(rows, front), layers[n], Moves(items[..n], 1), v, Stored(rows, v));
    }
  }

  /** And so after taking kits apart. */
  lemma DisassemblyFollowsLedger(rows: seq<Layer>, components: seq<Component>, kitVariantId: string, quantity: int,
                                 availableKits: int, ids: seq<string>, now: real, k: Kitted, v: string)
    requires Table(rows) && quantity >= 1 && |ids| == |components| && FreshIds(rows, ids)
    requires Disassembly(rows, components, kitVariantId, quantity, availableKits, ids, now) == Some(k)
    ensures Stored(k.rows, v) == Stored(rows, v) + Booked(k.ledger, v)
  {
    var (outcome, stored) := ConsumeLayers(rows, kitVariantId, quantity, FIFO);
    var items := Needed(components, quantity);
    var unitCosts := UnitCosts(stored, items);
    ConsumeLayersEffect(rows, kitVariantId, quantity, FIFO);
    ItemLeaves(rows, Item(kitVariantId, quantity), v);
    PartsReturn(stored, items, unitCosts, Scale(outcome.cost, Estimated(items, unitCosts)), ids, now, v);
    BookedJoin([Movement(kitVariantId, -quantity)], Moves(items, 1), v);
    OneMovement(Movement(kitVariantId, -quantity), v);
  }

  // ---------- unit costs ----------

  /** An average cost per unit on hand, to the nearest cent; 1000 without stock. */
  ghost predicate AverageOf(rows: seq<Layer>, v: string, cost: int) {
    var units, value := Stored(rows, v), TotalValue(Filter(rows, IsVariant(v)));
    if units == 0 then cost == 1000 else units > 0 && -units < 2 * (cost * units - value) <= units
  }

  /** A unit's share of a total, by what it is estimated at out of what everything is, to the nearest cent. */
  ghost predicate ShareOf(unitCost: int, estimated: int, total: int, cost: int) {
    if total > 0 && estimated > 0 then -estimated < 2 * (cost * estimated - unitCost * total) <= estimated else cost == 0
  }

  /** A component is estimated at its variant's average cost per unit on hand, to the nearest cent; at 1000 without stock. */
  lemma EstimateMeans(rows: seq<Layer>, items: seq<Item>, i: nat)
    requires AllValid(rows) && i < |items|
    ensures AverageOf(rows, items[i].variantId, UnitCosts(rows, items)[i])
  {
    var v := items[i].variantId;
    AverageMeans(rows, v, 1);
    OwnValid(rows, v);
    var own := Filter(rows, IsVariant(v));
    if Filter(own, IsActive()) != [] { ActiveHasUnits(own); }
    CostAt(rows, items, i);
  }

  lemma {:induction false} ActiveHasUnits(layers: seq<Layer>)
    requires AllValid(layers) && Filter(layers, IsActive()) != []
    ensures TotalUnits(layers) > 0
  {
    if layers[0].Active() {
      ActiveTotals(layers[1..]);
    } else {
      ActiveHasUnits(layers[1..]);
    }
  }

  lemma ShareRounds(unitCost: int, total: int, estimated: int, cost: int)
    requires cost == Allocation(unitCost, Scale(total, estimated))
    ensures ShareOf(unitCost, estimated, total, cost)
  {
    if estimated > 0 {
      ScaledTotal(total, estimated, Scale(total, estimated));
      if total > 0 { NearestQuotient(cost, unitCost, total, estimated, unitCost as real * (total as real / estimated as real)); }
    }
  }

  /** A restored layer holds its component's units at the component's share of the kits' cost: its estimate times what
      the kits cost over what all components are estimated at, to the nearest cent; at 0 when either is nothing. */
  lemma {:induction false} RestoredMeans(items: seq<Item>, unitCosts: seq<int>, total: int, estimated: int, ids: seq<string>, now: real, i: nat, l: Layer)
    requires |items| == |unitCosts| == |ids| && i < |items|
    requires l == RestoredLayers(items, unitCosts, Scale(total, estimated), ids, now)[i]
    ensures l.id == ids[i] && l.variantId == items[i].variantId && l.initial == items[i].quantity && l.consumed == 0
    ensures l.receivedAt == now && l.lot == None
    ensures ShareOf(unitCosts[i], estimated, total, l.unitCost)
  {
    ShareRounds(unitCosts[i], total, estimated, l.unitCost);
  }

  /** ... where the estimate of all components adds up units times unit costs. */
  lemma {:induction false} EstimatedMeans(items: seq<Item>, unitCosts: seq<int>)
    requires |items| == |unitCosts|
    ensures Estimated(items, unitCosts) == MapSums.Sum(map i | 0 <= i < |items| :: items[i].quantity * unitCosts[i])
    decreases |items|
  {
    var all := map i | 0 <= i < |items| :: items[i].quantity * unitCosts[i];
    if items == [] {
      assert all == map[];
    } else {
      var n := |items| - 1;
      EstimatedMeans(items[..n], unitCosts[..n]);
      var before := map i | 0 <= i < n :: items[..n][i].quantity * unitCosts[..n][i];
      assert all == before[n := items[n].quantity * unitCosts[n]];
      MapSums.SumUpdate(before, n, items[n].quantity * unitCosts[n]);
    }
  }

  // ---------- what is stored ----------

  lemma {:induction false} RestoredAppended(rows: seq<Layer>, layers: seq<Layer>)
    requires forall i :: 0 <= i < |layers| ==> !HasId(rows, layers[i].id)
    requires forall i, j :: 0 <= i < j < |layers| ==> layers[i].id != layers[j].id
    ensures SaveBatch(rows, layers) == rows + layers
  {
    if layers != [] {
      var n := |layers| - 1;
      RestoredAppended(rows, layers[..n]);
      var before := rows + layers[..n];
      forall j | 0 <= j < |before| ensures before[j].id != layers[n].id {
        if j < |rows| { assert HasId(rows, rows[j].id); }
      }
      assert before + [layers[n]] == rows + layers;
    }
  }

  /** An assembly appends one layer to the rows it consumed from: the kits, just received, at the consumed value divided by
      their number to the nearest cent. */
  lemma AssemblyStores(rows: seq<Layer>, components: seq<Component>, kitVariantId: string, quantity: int,
                       available: map<string, int>, layerId: string, now: real, k: Kitted)
    requires Table(rows) && !HasId(rows, layerId)
    requires Assembly(rows, components, kitVariantId, quantity, available, layerId, now) == Some(k)
    ensures quantity >= 1 && |k.rows| == |rows| + 1 && SameRows(rows, k.rows[..|rows|])
    ensures k.totalCostCents == TotalValue(rows) - TotalValue(k.rows[..|rows|])
    ensures var kit := k.rows[|rows|];
            && kit == Layer(layerId, kitVariantId, quantity, 0, kit.unitCost, now, None)
            && -quantity < 2 * (kit.unitCost * quantity - k.totalCostCents) <= quantity
  {
    var items := Needed(components, quantity);
    SequentialMeaning(rows, items, map[]);
    SequentialTakesValue(rows, items);
    var stored := Sequential(rows, items, map[]).value.0;
    var kit := KitLayer(layerId, kitVariantId, quantity, k.totalCostCents, now);
    SameIds(rows, stored, layerId);
    assert k.rows == stored + [kit] && k.rows[..|rows|] == stored;
    NearestQuotient(kit.unitCost, 1, k.totalCostCents, quantity, k.totalCostCents as real / quantity as real);
  }

  lemma SameIds(rows: seq<Layer>, stored: seq<Layer>, id: string)
    requires SameRows(rows, stored) && !HasId(rows, id)
    ensures !HasId(stored, id)
  {
    forall i | 0 <= i < |stored| ensures stored[i].id != id { assert HasId(rows, rows[i].id); }
  }

  lemma DisassemblyAppends(rows: seq<Layer>, components: seq<Component>, kitVariantId: string, quantity: int,
                           availableKits: int, ids: seq<string>, now: real, k: Kitted) returns (unitCosts: seq<int>, estimated: int, layers: seq<Layer>)
    requires Table(rows) && |ids| == |components| && FreshIds(rows, ids)
    requires Disassembly(rows, components, kitVariantId, quantity, availableKits, ids, now) == Some(k)
    ensures |k.rows| == |rows| + |components| && SameRows(rows, k.rows[..|rows|]) && k.rows[|rows|..] == layers
    ensures AllValid(k.rows[..|rows|])
    ensures ConsumeLayers(rows, kitVariantId, quantity, FIFO) == (Charged(k.totalCostCents), k.rows[..|rows|])
    ensures unitCosts == UnitCosts(k.rows[..|rows|], Needed(components, quantity)) && estimated == Estimated(Needed(components, quantity), unitCosts)
    ensures layers == RestoredLayers(Needed(components, quantity), unitCosts, Scale(k.totalCostCents, estimated), ids, now)
  {
    var (outcome, stored) := ConsumeLayers(rows, kitVariantId, quantity, FIFO);
    var items := Needed(components, quantity);
    ConsumeLayersEffect(rows, kitVariantId, quantity, FIFO);
    unitCosts := UnitCosts(stored, items);
    estimated := Estimated(items, unitCosts);
    layers := RestoredLayers(items, unitCosts, Scale(outcome.cost, estimated), ids, now);
    forall i | 0 <= i < |layers| ensures !HasId(stored, layers[i].id) { SameIds(rows, stored, ids[i]); }
    RestoredAppended(stored, layers);
    assert k.rows == stored + layers;
  }

  /** The layer that a component is restored to. */
  ghost predicate Restores(l: Layer, c: Component, quantity: int, id: string, now: real, unitCost: int, estimated: int, total: int) {
    l == Layer(id, c.variantId, c.quantity * quantity, 0, l.unitCost, now, None) && ShareOf(unitCost, estimated, total, l.unitCost)
  }

  ghost function PartCosts(components: seq<Component>, quantity: int, unitCosts: seq<int>): map<int, int>
    requires |unitCosts| == |components|
  {
    map i | 0 <= i < |components| :: components[i].quantity * quantity * unitCosts[i]
  }

  lemma RestoredAt(components: seq<Component>, quantity: int, unitCosts: seq<int>, estimated: int, total: int, ids: seq<string>, now: real,
                   i: nat, l: Layer)
    requires |components| == |unitCosts| == |ids| && i < |components|
    requires l == RestoredLayers(Needed(components, quantity), unitCosts, Scale(total, estimated), ids, now)[i]
    ensures Restores(l, components[i], quantity, ids[i], now, unitCosts[i], estimated, total)
  {
    RestoredMeans(Needed(components, quantity), unitCosts, total, estimated, ids, now, i, l);
  }

  lemma EstimatedParts(components: seq<Component>, quantity: int, unitCosts: seq<int>)
    requires |components| == |unitCosts|
    ensures Estimated(Needed(components, quantity), unitCosts) == MapSums.Sum(PartCosts(components, quantity, unitCosts))
  {
    var items := Needed(components, quantity);
    EstimatedMeans(items, unitCosts);
    assert (map i | 0 <= i < |items| :: items[i].quantity * unitCosts[i]) == PartCosts(components, quantity, unitCosts);
  }

  /** Taking kits apart appends one layer per component to the rows it consumed the kits from: its units, just received, at
      the component's share of the kits' cost. Shares go by the average unit costs of what is stored, 1000 where nothing
      is; at nothing in all, or kits that cost nothing, the layers are free. */
  lemma DisassemblyStores(rows: seq<Layer>, components: seq<Component>, kitVariantId: string, quantity: int,
                          availableKits: int, ids: seq<string>, now: real, k: Kitted) returns (unitCosts: seq<int>, estimated: int)
    requires Table(rows) && |ids| == |components| && FreshIds(rows, ids)
    requires Disassembly(rows, components, kitVariantId, quantity, availableKits, ids, now) == Some(k)
    ensures |k.rows| == |rows| + |components| && |unitCosts| == |components| && SameRows(rows, k.rows[..|rows|])
    ensures k.totalCostCents == TotalValue(rows) - TotalValue(k.rows[..|rows|])
    ensures forall i :: 0 <= i < |components| ==> AverageOf(k.rows[..|rows|], components[i].variantId, unitCosts[i])
    ensures estimated == MapSums.Sum(PartCosts(components, quantity, unitCosts))
    ensures forall i :: 0 <= i < |components| ==>
              Restores(k.rows[|rows| + i], components[i], quantity, ids[i], now, unitCosts[i], estimated, k.totalCostCents)
  {
    var layers;
    unitCosts, estimated, layers := DisassemblyAppends(rows, components, kitVariantId, quantity, availableKits, ids, now, k);
    FifoTakesValue(rows, kitVariantId, quantity);
    forall i | 0 <= i < |components| ensures AverageOf(k.rows[..|rows|], components[i].variantId, unitCosts[i]) {
      EstimateMeans(k.rows[..|rows|], Needed(components, quantity), i);
    }
    forall i | 0 <= i < |components|
      ensures Restores(k.rows[|rows| + i], components[i], quantity, ids[i], now, unitCosts[i], estimated, k.totalCostCents)
    {
      RestoredAt(components, quantity, unitCosts, estimated, k.totalCostCents, ids, now, i, layers[i]);
    }
    EstimatedParts(components, quantity, unitCosts);
  }
}
