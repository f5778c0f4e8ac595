/** How far rounding moves the value of the stock when kits are assembled or taken apart. */
module KitValue {
  import opened Numbers
  import opened Options
  import opened Sorting
  import opened CostLayers
  import opened CostLayerStore
  import opened CostComparison
  import opened BatchCosting
  import opened KitCosting
  import opened InventoryValue

  // ---------- rounding ----------

  lemma Scaled(r: real, lo: real, d: real, hi: real)
    requires r >= 0.0 && lo <= d <= hi
    ensures lo * r <= d * r <= hi * r
  {}

  /** n units at the rounded cost differ from n units at the exact cost by at most half a cent each. */
  lemma RoundedUnits(n: nat, x: real, unit: int, exact: real)
    requires unit == Round(x) && exact == n as real * x
    ensures -0.5 * n as real <= (n * unit) as real - exact <= 0.5 * n as real
  {
    var r, d := n as real, unit as real - x;
    Scaled(r, -0.5, d, 0.5);
    assert (n * unit) as real == r * unit as real;
    assert d * r == r * unit as real - r * x;
  }

  lemma EvenQuotient(total: int, n: int, k: int, x: real)
    requires n >= 1 && total == k * n && x == total as real / n as real
    ensures Round(x) == k
  {
    assert (k * n) as real == k as real * n as real;
    assert x == k as real;
  }

  lemma AtLeast(n: int, d: int)
    requires n >= 1
    ensures d >= 1 ==> n * d >= n
    ensures d <= -1 ==> n * d <= -n
  {}

  lemma MultipleMod(n: int, k: int, total: int)
    requires n >= 1 && total == n * k
    ensures total % n == 0
  {
    var q, r := total / n, total % n;
    assert n * q + r == total;
    AtLeast(n, k - q);
    assert n * (k - q) == n * k - n * q;
  }

  /** A total spread over n units at the rounded unit cost is off by at most half a cent per unit, and exact
      exactly when the total divides evenly. */
  lemma SpreadEvenly(total: int, n: int, unit: int)
    requires n >= 1 && unit == Round(total as real / n as real)
    ensures -n <= 2 * (n * unit - total) <= n
    ensures n * unit == total <==> total % n == 0
  {
    var x := total as real / n as real;
    assert n as real * x == total as real;
    RoundedUnits(n, x, unit, total as real);
    if n * unit == total { MultipleMod(n, unit, total); }
    if total % n == 0 { EvenQuotient(total, n, total / n, x); }
  }

  // ---------- assembly ----------

  /** Assembling a kit changes the value of the stock by at most half a cent per kit, and by nothing exactly
      when the component cost divides evenly over the kits. */
  lemma AssemblyKeepsValue(rows: seq<Layer>, components: seq<Component>, kitVariantId: string, quantity: int,
                           available: map<string, int>, layerId: string, now: real, k: Kitted)
    requires Table(rows) && !HasId(rows, layerId)
    requires Assembly(rows, components, kitVariantId, quantity, available, layerId, now) == Some(k)
    ensures -quantity <= 2 * (TotalValue(k.rows) - TotalValue(rows)) <= quantity
    ensures TotalValue(k.rows) == TotalValue(rows) <==> k.totalCostCents % quantity == 0
  {
    var items := Needed(components, quantity);
    var (stored, costs) := Sequential(rows, items, map[]).value;
    SequentialMeaning(rows, items, map[]);
    SequentialTakesValue(rows, items);
    assert !HasId(stored, layerId);
    NewLayerAddsValue(stored, KitLayer(layerId, kitVariantId, quantity, k.totalCostCents, now));
    SpreadEvenly(k.totalCostCents, quantity, Round(k.totalCostCents as real / quantity as real));
  }

  // ---------- disassembly ----------

  function Quantities(items: seq<Item>): int {
    if items == [] then 0 else Quantities(Front(items)) + Last(items).quantity
  }

  /** What the items are worth at the allocated unit costs. */
  function Allocated(items: seq<Item>, unitCosts: seq<int>, scale: real): int
    requires |items| == |unitCosts|
    decreases |items|
  {
    if items == [] then 0
    else Allocated(Front(items), Front(unitCosts), scale) + Last(items).quantity * Allocation(Last(unitCosts), scale)
  }

  lemma ShareStep(exact0: real, estimated0: int, n: int, cost: int, scale: real, exact: real, share: real)
    requires exact0 == estimated0 as real * scale && exact == (estimated0 + n * cost) as real * scale
    requires share == n as real * (cost as real * scale)
    ensures exact == exact0 + share
  {
    assert (n * cost) as real == n as real * cost as real;
  }

  /** Rounding every component's unit cost moves the total by at most half a cent per restored unit. */
  lemma {:induction false} AllocationBound(items: seq<Item>, unitCosts: seq<int>, scale: real, exact: real)
    requires |items| == |unitCosts| && scale > 0.0 && forall i :: 0 <= i < |items| ==> items[i].quantity >= 0
    requires exact == Estimated(items, unitCosts) as real * scale
    ensures -0.5 * Quantities(items) as real <= Allocated(items, unitCosts, scale) as real - exact
              <= 0.5 * Quantities(items) as real
    decreases |items|
  {
    if items != [] {
      var front, costs, n, cost := Front(items), Front(unitCosts), Last(items).quantity, Last(unitCosts);
      var exact0, share := Estimated(front, costs) as real * scale, n as real * (cost as real * scale);
      AllocationBound(front, costs, scale, exact0);
      ShareStep(exact0, Estimated(front, costs), n, cost, scale, exact, share);
      RoundedUnits(n, cost as real * scale, Allocation(cost, scale), share);
    }
  }

  lemma {:induction false} NothingAllocated(items: seq<Item>, unitCosts: seq<int>, scale: real)
    requires |items| == |unitCosts| && scale <= 0.0
    ensures Allocated(items, unitCosts, scale) == 0
    decreases |items|
  {
    if items != [] { NothingAllocated(Front(items), Front(unitCosts), scale); }
  }

  ghost predicate FreshIds(rows: seq<Layer>, ids: seq<string>) {
    && (forall i :: 0 <= i < |ids| ==> !HasId(rows, ids[i]))
    && (forall i, j :: 0 <= i < j < |ids| ==> ids[i] != ids[j])
  }

  lemma NewLayerAddsId(rows: seq<Layer>, l: Layer, id: string)
    requires !HasId(rows, l.id) && HasId(Upsert(rows, l), id)
    ensures HasId(rows, id) || id == l.id
  {
    var j :| 0 <= j < |rows + [l]| && (rows + [l])[j].id == id;
    if j < |rows| { assert rows[j].id == id; }
  }

  lemma AllocatedMore(items: seq<Item>, unitCosts: seq<int>, scale: real, n: nat, l: Layer)
    requires |items| == |unitCosts| == n + 1
    requires l.Remaining() == items[n].quantity && l.unitCost == Allocation(unitCosts[n], scale)
    ensures Allocated(items, unitCosts, scale) == Allocated(items[..n], unitCosts[..n], scale) + l.Remaining() * l.unitCost
  {}

  /** The restored layers add what they are worth. */
  lemma {:induction false} RestoringAddsValue(rows: seq<Layer>, items: seq<Item>, unitCosts: seq<int>, scale: real, ids: seq<string>, now: real)
    requires |items| == |unitCosts| == |ids| && FreshIds(rows, ids)
    ensures var after := SaveBatch(rows, RestoredLayers(items, unitCosts, scale, ids, now));
            && TotalValue(after) == TotalValue(rows) + Allocated(items, unitCosts, scale)
            && forall id: string :: HasId(after, id) ==> HasId(rows, id) || id in ids
    decreases |items|
  {
    if items != [] {
      var n := |items| - 1;
      var layers, front := RestoredLayers(items, unitCosts, scale, ids, now), RestoredLayers(items[..n], unitCosts[..n], scale, ids[..n], now);
      RestoringAddsValue(rows, items[..n], unitCosts[..n], scale, ids[..n], now);
      assert layers[..n] == front;
      var before := SaveBatch(rows, front);
      assert !HasId(before, ids[n]);
      NewLayerAddsValue(before, layers[n]);
      AllocatedMore(items, unitCosts, scale, n, layers[n]);
      forall id: string | HasId(Upsert(before, layers[n]), id) ensures HasId(rows, id) || id in ids {
        NewLayerAddsId(before, layers[n], id);
        assert HasId(before, id) ==> HasId(rows, id) || id in ids[..n];
      }
    }
  }

  lemma ScaledTotal(total: int, estimated: int, scale: real)
    requires estimated > 0 && scale == total as real / estimated as real
    ensures estimated as real * scale == total as real
    ensures scale > 0.0 <==> total > 0
  {
    if total <= 0 { assert scale * estimated as real == total as real; }
  }

  /** The kit's cost spread over its components: off by at most half a cent per unit, or lost altogether. */
  lemma SpreadOverItems(items: seq<Item>, unitCosts: seq<int>, total: int, estimated: int, scale: real, units: int, spread: int)
    requires |items| == |unitCosts| && total >= 0 && forall i :: 0 <= i < |items| ==> items[i].quantity >= 0
    requires estimated == Estimated(items, unitCosts) && scale == Scale(total, estimated)
    requires units == Quantities(items) && units >= 0 && spread == Allocated(items, unitCosts, scale)
    ensures if estimated > 0 then -units <= 2 * (spread - total) <= units else spread == 0
  {
    if estimated > 0 { ScaledTotal(total, estimated, scale); }
    if estimated > 0 && total > 0 {
      AllocationBound(items, unitCosts, scale, total as real);
    } else {
      NothingAllocated(items, unitCosts, scale);
    }
  }

  /** Taking a kit apart changes the value of the stock by at most half a cent per restored unit when its
      components are estimated to be worth anything; when they are not, all of the kit's cost is lost. */
  lemma DisassemblyKeepsValue(rows: seq<Layer>, components: seq<Component>, kitVariantId: string, quantity: int,
                              availableKits: int, ids: seq<string>, now: real, k: Kitted)
    requires Table(rows) && |ids| == |components| && FreshIds(rows, ids) && PositiveParts(components)
    requires Disassembly(rows, components, kitVariantId, quantity, availableKits, ids, now) == Some(k)
    ensures k.totalCostCents >= 0
    ensures var stored, items := ConsumeLayers(rows, kitVariantId, quantity, FIFO).1, Needed(components, quantity);
            var moved := TotalValue(k.rows) - TotalValue(rows);
            if Estimated(items, UnitCosts(stored, items)) > 0 then -Quantities(items) <= 2 * moved <= Quantities(items)
            else moved == -k.totalCostCents
  {
    var (outcome, stored) := ConsumeLayers(rows, kitVariantId, quantity, FIFO);
    ConsumeLayersEffect(rows, kitVariantId, quantity, FIFO);
    FifoTakesValue(rows, kitVariantId, quantity);
    ChargeNonnegative(rows, kitVariantId, quantity);
    var items := Needed(components, quantity);
    var unitCosts := UnitCosts(stored, items);
    var estimated := Estimated(items, unitCosts);
    var scale := Scale(outcome.cost, estimated);
    PositiveQuantities(components, quantity);
    SpreadOverItems(items, unitCosts, outcome.cost, estimated, scale, Quantities(items), Allocated(items, unitCosts, scale));
    RestoringAddsValue(stored, items, unitCosts, scale, ids, now);
  }

  lemma ChargeNonnegative(rows: seq<Layer>, v: string, quantity: int)
    requires Table(rows) && ConsumeLayers(rows, v, quantity, FIFO).0.Charged?
    ensures ConsumeLayers(rows, v, quantity, FIFO).0.cost >= 0
  {
    ConsumeLayersEffect(rows, v, quantity, FIFO);
    LineValid(rows, v, FIFO);
    DrawCost(Line(rows, v, FIFO), quantity);
  }

  lemma {:induction false} DrawCost(layers: seq<Layer>, quantity: int)
    requires AllValid(layers)
    ensures DrawDown(layers, quantity).cost >= 0
  {
    if layers != [] && quantity > 0 {
      DrawCost(layers[1..], quantity - Min(quantity, layers[0].Remaining()));
    }
  }

  lemma PositiveQuantities(components: seq<Component>, quantity: int)
    requires PositiveParts(components) && (quantity >= 1 || components == [])
    ensures forall i :: 0 <= i < |components| ==> Needed(components, quantity)[i].quantity >= 1
    ensures Quantities(Needed(components, quantity)) >= 0
  {
    NeedsNothing(components, quantity);
    QuantitiesNonnegative(Needed(components, quantity));
  }

  lemma {:induction false} QuantitiesNonnegative(items: seq<Item>)
    requires forall i :: 0 <= i < |items| ==> items[i].quantity >= 0
    ensures Quantities(items) >= 0
  {
    if items != [] { QuantitiesNonnegative(Front(items)); }
  }

  // ---------- exactly when a use case completes ----------

  predicate DistinctVariants(items: seq<Item>) {
    forall i, j :: 0 <= i < j < |items| ==> items[i].variantId != items[j].variantId
  }

  /** What the service would quote for an item before anything is consumed. */
  function QuoteOf(rows: seq<Layer>, item: Item): Outcome { CalculateCost(rows, item.variantId, item.quantity, FIFO) }

  predicate AllQuoted(rows: seq<Layer>, items: seq<Item>) {
    forall i :: 0 <= i < |items| ==> QuoteOf(rows, items[i]).Charged?
  }

  function QuoteTotal(rows: seq<Layer>, items: seq<Item>): int
    requires AllQuoted(rows, items)
  {
    if items == [] then 0 else QuoteTotal(rows, Front(items)) + QuoteOf(rows, Last(items)).cost
  }

  /** Where a variant's line is the same, so is what it is charged. */
  lemma SameLineSameCharge(rows: seq<Layer>, stored: seq<Layer>, item: Item)
    requires Table(rows) && Table(stored) && Line(stored, item.variantId, FIFO) == Line(rows, item.variantId, FIFO)
    ensures ConsumeLayers(stored, item.variantId, item.quantity, FIFO).0 == QuoteOf(rows, item)
  {
    ConsumeLayersEffect(rows, item.variantId, item.quantity, FIFO);
    ConsumeLayersEffect(stored, item.variantId, item.quantity, FIFO);
    EstimatesMatchCharge(rows, item.variantId, item.quantity, FIFO);
  }

  lemma {:induction false} OneMoreQuote(rows: seq<Layer>, items: seq<Item>, stored: seq<Layer>, costs: seq<int>)
    requires Table(rows) && items != [] && DistinctVariants(items) && Sequential(rows, Front(items), map[]) == Some((stored, costs))
    ensures Sequential(rows, items, map[]).Some? <==> QuoteOf(rows, Last(items)).Charged?
    ensures Sequential(rows, items, map[]).Some? ==> Sequential(rows, items, map[]).value.1 == costs + [QuoteOf(rows, Last(items)).cost]
  {
    SequentialMeaning(rows, Front(items), map[]);
    UntouchedLine(rows, Front(items), map[], Last(items).variantId);
    SameLineSameCharge(rows, stored, Last(items));
  }

  lemma {:induction false} AllQuotedMore(rows: seq<Layer>, items: seq<Item>)
    requires items != []
    ensures AllQuoted(rows, items) <==> AllQuoted(rows, Front(items)) && QuoteOf(rows, Last(items)).Charged?
  {
    assert items == Front(items) + [Last(items)];
  }

  /** Items of different variants are consumed one by one exactly when each is quoted, and for those quotes. */
  lemma {:induction false} SequentialQuotes(rows: seq<Layer>, items: seq<Item>)
    requires Table(rows) && DistinctVariants(items)
    ensures Sequential(rows, items, map[]).Some? <==> AllQuoted(rows, items)
    ensures AllQuoted(rows, items) ==> Sum(Sequential(rows, items, map[]).value.1) == QuoteTotal(rows, items)
  {
    if items != [] {
      SequentialQuotes(rows, Front(items));
      AllQuotedMore(rows, items);
      if AllQuoted(rows, Front(items)) {
        var (stored, costs) := Sequential(rows, Front(items), map[]).value;
        OneMoreQuote(rows, items, stored, costs);
        if QuoteOf(rows, Last(items)).Charged? { AddQuote(costs, QuoteOf(rows, Last(items)).cost); }
      }
    }
  }

  lemma AddQuote(costs: seq<int>, cost: int)
    ensures Sum(costs + [cost]) == Sum(costs) + cost
  {
    SumConcat(costs, [cost]);
    assert [cost][1..] == [] && Sum([cost]) == cost;
  }

  /** Assembling a kit of different variants stores something exactly when there is stock enough and each component
      is quoted, and then completes exactly when the quotes add up to something. */
  lemma AssemblyCompletesIff(rows: seq<Layer>, components: seq<Component>, kitVariantId: string, quantity: int,
                             available: map<string, int>, layerId: string, now: real, items: seq<Item>)
    requires Table(rows) && items == Needed(components, quantity) && DistinctVariants(items)
    ensures var a := Assembly(rows, components, kitVariantId, quantity, available, layerId, now);
            && (a.Some? <==> quantity >= 1 && AllQuoted(rows, items) && forall i :: 0 <= i < |components| ==>
                  components[i].quantity * quantity <= if components[i].variantId in available then available[components[i].variantId] else 0)
            && (a.Some? ==> (a.value.Journaled() <==> QuoteTotal(rows, items) > 0))
  {
    SequentialQuotes(rows, items);
  }

  /** Taking kits apart stores something exactly when there are kits enough, their cost is quoted and no component
      would be restored in a quantity below one; it then completes exactly when that quote is positive. */
  lemma DisassemblyCompletesIff(rows: seq<Layer>, components: seq<Component>, kitVariantId: string, quantity: int,
                                availableKits: int, ids: seq<string>, now: real)
    requires Table(rows) && |ids| == |components|
    ensures var d, quote := Disassembly(rows, components, kitVariantId, quantity, availableKits, ids, now),
                            CalculateCost(rows, kitVariantId, quantity, FIFO);
            && (d.Some? <==> availableKits >= quantity && quote.Charged? && (quantity >= 1 || (quantity < 0 && components == [])))
            && (d.Some? ==> (d.value.Journaled() <==> quote.cost > 0))
  {
    EstimatesMatchCharge(rows, kitVariantId, quantity, FIFO);
  }

  // ---------- kits without value ----------

  /** A kit without components is assembled and stored for nothing, and then its journal entry is refused. */
  lemma EmptyKitStoredButRefused(rows: seq<Layer>, kit: string, quantity: int, available: map<string, int>, layerId: string, now: real)
    requires Table(rows) && quantity >= 1 && !HasId(rows, layerId)
    ensures var a := Assembly(rows, [], kit, quantity, available, layerId, now);
            && a.Some? && !a.value.Journaled() && a.value.ledger == [Movement(kit, quantity)]
            && a.value.rows == rows + [Layer(layerId, kit, quantity, 0, 0, now, None)]
  {
    assert Needed([], quantity) == [] && Moves([], -1) == [];
    assert 0.0 / quantity as real == 0.0 && Round(0.0) == 0;
  }

  function Unit(id: string, v: string, cost: int): Layer { Layer(id, v, 1, 0, cost, 0.0, None) }

  lemma OneKitConsumed(kit: string, part: string, cost: int, rows: seq<Layer>)
    requires kit != part && rows == [Unit("k", kit, cost), Unit("p", part, 0)]
    ensures ConsumeLayers(rows, kit, 1, FIFO) == (Charged(cost), [Unit("k", kit, cost).(consumed := 1), Unit("p", part, 0)])
    ensures TotalValue(rows) == cost
  {
    var k, p := Unit("k", kit, cost), Unit("p", part, 0);
    var used := k.(consumed := 1);
    assert rows[1..] == [p] && [p][1..] == [] && [k][1..] == [];
    assert TotalValue([p]) == 0;
    assert Filter([p], IsVariant(kit)) == [];
    assert Filter(rows, IsVariant(kit)) == [k];
    assert Filter([k], IsActive()) == [k];
    assert StableSort([k], ByReceipt) == [k];
    assert GetActiveLayers(rows, kit, FIFO) == [k] && StrategySort([k], FIFO) == [k];
    assert DrawDown([k], 1) == Drawn([used], cost, 0);
    assert [used][..0] == [] && HasId(rows, rows[0].id);
    assert SaveBatch(rows, [used]) == Upsert(rows, used) == [used, p];
  }

  lemma PartIsWorthNothing(kit: string, part: string, used: Layer, items: seq<Item>, stored: seq<Layer>)
    requires kit != part && used.variantId == kit && stored == [used, Unit("p", part, 0)] && items == [Item(part, 1)]
    ensures Estimated(items, UnitCosts(stored, items)) == 0
  {
    var p := Unit("p", part, 0);
    assert stored[1..] == [p] && [p][1..] == [];
    assert Filter([p], IsVariant(part)) == [p] && Filter(stored, IsVariant(part)) == [p];
    assert Filter([p], IsActive()) == [p] && StableSort([p], ByReceipt) == [p];
    assert TotalUnits([p]) == 1 && TotalValue([p]) == 0;
    assert AverageUnitCost([p]) == Round(0.0) == 0;
    assert Front(items) == [] && Last(items).quantity == 1;
  }

  /** One kit of any positive cost, made of one part whose stock costs nothing: taking it apart loses the cost. */
  lemma KitCostIsLost(kit: string, part: string, cost: int, now: real) returns (rows: seq<Layer>, k: Kitted)
    requires kit != part && cost > 0
    ensures Table(rows) && TotalValue(rows) == cost
    ensures Disassembly(rows, [Component(part, 1)], kit, 1, 1, ["n"], now) == Some(k)
    ensures k.Journaled() && TotalValue(k.rows) == 0
  {
    rows := [Unit("k", kit, cost), Unit("p", part, 0)];
    OneKitConsumed(kit, part, cost, rows);
    var stored := ConsumeLayers(rows, kit, 1, FIFO).1;
    PartIsWorthNothing(kit, part, stored[0], Needed([Component(part, 1)], 1), stored);
    k := Disassembly(rows, [Component(part, 1)], kit, 1, 1, ["n"], now).value;
    DisassemblyKeepsValue(rows, [Component(part, 1)], kit, 1, 1, ["n"], now, k);
  }

  lemma OnePartRestored(stored: seq<Layer>, items: seq<Item>, part: string, unitCosts: seq<int>, restored: Layer, now: real)
    requires |stored| == 2 && stored[0].id == "k" && stored[1].id == "p" && items == [Item(part, 1)] && |unitCosts| == 1
    requires restored == Layer("n", part, 1, 0, 0, now, None)
    ensures SaveBatch(stored, RestoredLayers(items, unitCosts, 0.0, ["n"], now)) == stored + [restored]
  {
    assert RestoredLayers(items, unitCosts, 0.0, ["n"], now) == [restored];
    assert [restored][..0] == [] && SaveBatch(stored, [restored]) == Upsert(stored, restored);
    assert !HasId(stored, "n");
  }

  /** A kit of no cost is taken apart and its part restored, and then the journal entry is refused. */
  lemma FreeKitStoredButRefused(kit: string, part: string, now: real) returns (rows: seq<Layer>, k: Kitted)
    requires kit != part
    ensures Table(rows) && rows == [Unit("k", kit, 0), Unit("p", part, 0)]
    ensures Disassembly(rows, [Component(part, 1)], kit, 1, 1, ["n"], now) == Some(k) && !k.Journaled()
    ensures k.rows == [rows[0].(consumed := 1), rows[1], Layer("n", part, 1, 0, 0, now, None)]
    ensures k.ledger == [Movement(kit, -1), Movement(part, 1)]
  {
    rows := [Unit("k", kit, 0), Unit("p", part, 0)];
    OneKitConsumed(kit, part, 0, rows);
    var stored, items := [rows[0].(consumed := 1), rows[1]], Needed([Component(part, 1)], 1);
    assert items == [Item(part, 1)] && Moves(items, 1) == [Movement(part, 1)];
    PartIsWorthNothing(kit, part, stored[0], items, stored);
    k := Disassembly(rows, [Component(part, 1)], kit, 1, 1, ["n"], now).value;
    OnePartRestored(stored, items, part, UnitCosts(stored, items), Layer("n", part, 1, 0, 0, now, None), now);
  }
}
