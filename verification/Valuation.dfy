/** The stock valuation report: quantities are added up per variant, each variant is costed once, and its
    cost is spread back over the locations at a rounded unit cost. */
module Valuation {
  import opened CostLayers
  import opened CostComparison
  import opened BatchCosting
  import opened CostLayerService
  import CostQuotes
  import CostLayerStore
  import KitValue
  import MapSums

  datatype StockItem = StockItem(sku: string, locationId: string, quantity: nat)

  datatype ReportLine = ReportLine(sku: string, variantId: string, locationId: string, quantityOnHand: nat,
                                   unitCostCents: int, totalValueCents: int)

  type Catalog = map<string, string>

  /** Items without stock or without a variant are not reported. */
  predicate Counted(catalog: Catalog, item: StockItem) {
    item.quantity > 0 && item.sku in catalog && catalog[item.sku] != ""
  }

  predicate Of(catalog: Catalog, item: StockItem, v: string) { Counted(catalog, item) && catalog[item.sku] == v }

  /** Units of a variant over all locations. */
  function UnitsOf(catalog: Catalog, items: seq<StockItem>, v: string): nat {
    if items == [] then 0
    else UnitsOf(catalog, items[..|items| - 1], v) + if Of(catalog, items[|items| - 1], v) then items[|items| - 1].quantity else 0
  }

  function VariantsOf(catalog: Catalog, items: seq<StockItem>): seq<string> {
    if items == [] then []
    else
      var item, seen := items[|items| - 1], VariantsOf(catalog, items[..|items| - 1]);
      if Counted(catalog, item) && catalog[item.sku] !in seen then seen + [catalog[item.sku]] else seen
  }

  lemma {:induction false} SeenIffUnits(catalog: Catalog, items: seq<StockItem>, v: string)
    ensures v in VariantsOf(catalog, items) <==> UnitsOf(catalog, items, v) > 0
  {
    if items != [] { SeenIffUnits(catalog, items[..|items| - 1], v); }
  }

  // ---------- the report ----------

  /** The cost of all units of a variant; 0 when they cannot be costed. */
  function VariantCost(rows: seq<Layer>, v: string, units: int, m: CostingMethod): int {
    match CalculateCostInBatch(rows, v, units, m)
    case Charged(cost) => if cost > 0 then cost else 0
    case Failed => 0
  }

  /** `variantQuantities.get(v) || 1`. */
  function Divisor(units: nat): nat { if units == 0 then 1 else units }

  function UnitPrice(units: nat, cost: int): int {
    if cost > 0 then Round(cost as real / Divisor(units) as real) else 0
  }

  function Prices(rows: seq<Layer>, catalog: Catalog, items: seq<StockItem>, m: CostingMethod): string -> int {
    v => UnitPrice(UnitsOf(catalog, items, v), VariantCost(rows, v, UnitsOf(catalog, items, v), m))
  }

  function LineFor(catalog: Catalog, item: StockItem, unit: int): ReportLine
    requires Counted(catalog, item)
  {
    ReportLine(item.sku, catalog[item.sku], item.locationId, item.quantity, unit, unit * item.quantity)
  }

  function Lines(catalog: Catalog, items: seq<StockItem>, price: string -> int): seq<ReportLine> {
    if items == [] then []
    else
      var item := items[|items| - 1];
      Lines(catalog, items[..|items| - 1], price)
      + if Counted(catalog, item) then [LineFor(catalog, item, price(catalog[item.sku]))] else []
  }

  function Total(lines: seq<ReportLine>): int {
    if lines == [] then 0 else Total(lines[..|lines| - 1]) + lines[|lines| - 1].totalValueCents
  }

  ghost predicate Tallied(catalog: Catalog, items: seq<StockItem>, order: seq<string>, quantities: map<string, nat>) {
    && order == VariantsOf(catalog, items)
    && (forall v :: v in quantities <==> v in order)
    && (forall v :: v in quantities ==> quantities[v] == UnitsOf(catalog, items, v) > 0)
  }

  method TallyVariants(catalog: Catalog, items: seq<StockItem>) returns (order: seq<string>, variantQuantities: map<string, nat>)
    ensures Tallied(catalog, items, order, variantQuantities)
  {
    order, variantQuantities := [], map[];
    ghost var done := [];
    for i := 0 to |items|
      invariant done == items[..i] && Tallied(catalog, done, order, variantQuantities)
    {
      var item := items[i];
      ghost var before := done;
      done := done + [item];
      assert done[..|done| - 1] == before;
      if item.quantity <= 0 { continue; }
      if item.sku !in catalog || catalog[item.sku] == "" { continue; }
      var v := catalog[item.sku];
      SeenIffUnits(catalog, before, v);
      if v !in variantQuantities { order := order + [v]; }
      variantQuantities := variantQuantities[v := (if v in variantQuantities then variantQuantities[v] else 0) + item.quantity];
    }
    assert done == items;
  }

  /** `calculateCostBatch` for every variant, as a map. */
  method CostVariants(costService: Service, order: seq<string>, quantities: map<string, nat>, m: CostingMethod)
    returns (costMap: map<string, CostLayerStore.Outcome>)
    requires forall v :: v in order ==> v in quantities
    ensures forall v :: v in order ==>
      v in costMap && costMap[v] == CalculateCostInBatch(costService.layers.rows, v, quantities[v], m)
  {
    var batchRequest := seq(|order|, i requires 0 <= i < |order| => Item(order[i], quantities[order[i]]));
    var batchResults := CostQuotes.CalculateCostBatch(costService, batchRequest, m, map[]);
    costMap := map[];
    for i := 0 to |order|
      invariant forall v :: v in order[..i] ==>
        v in costMap && costMap[v] == CalculateCostInBatch(costService.layers.rows, v, quantities[v], m)
    {
      assert order[..i + 1] == order[..i] + [order[i]];
      costMap := costMap[batchRequest[i].variantId := batchResults[i]];
    }
    assert order[..|order|] == order;
  }

  method MakeLine(catalog: Catalog, item: StockItem, units: nat, costBreakdown: CostLayerStore.Outcome)
    returns (line: ReportLine)
    requires Counted(catalog, item)
    ensures line == LineFor(catalog, item, UnitPrice(units, CostOf(costBreakdown)))
  {
    var v := catalog[item.sku];
    if costBreakdown.Charged? && costBreakdown.cost > 0 {
      var unitCostCents := Round(costBreakdown.cost as real / Divisor(units) as real);
      var itemTotalCents := Round((unitCostCents * item.quantity) as real);
      line := ReportLine(item.sku, v, item.locationId, item.quantity, unitCostCents, itemTotalCents);
    } else {
      line := ReportLine(item.sku, v, item.locationId, item.quantity, 0, 0);
    }
  }

  function CostOf(o: CostLayerStore.Outcome): int { if o.Charged? then o.cost else 0 }

  /** What the two maps say about a variant amounts to its price. */
  predicate Priced(v: string, quantities: map<string, nat>, costMap: map<string, CostLayerStore.Outcome>, unit: int) {
    v in quantities && v in costMap && UnitPrice(quantities[v], CostOf(costMap[v])) == unit
  }

  lemma LinesMore(catalog: Catalog, items: seq<StockItem>, item: StockItem, price: string -> int)
    ensures Lines(catalog, items + [item], price)
         == Lines(catalog, items, price) + if Counted(catalog, item) then [LineFor(catalog, item, price(catalog[item.sku]))] else []
  {
    assert (items + [item])[..|items|] == items;
  }

  lemma TotalMore(lines: seq<ReportLine>, line: ReportLine)
    ensures Total(lines + [line]) == Total(lines) + line.totalValueCents
  {
    assert (lines + [line])[..|lines|] == lines;
  }

  /** The loop that writes the lines. */
  method WriteLines(items: seq<StockItem>, catalog: Catalog, quantities: map<string, nat>,
                    costMap: map<string, CostLayerStore.Outcome>, ghost price: string -> int)
    returns (lineItems: seq<ReportLine>, totalValueCents: int)
    requires forall i :: 0 <= i < |items| && Counted(catalog, items[i]) ==>
      Priced(catalog[items[i].sku], quantities, costMap, price(catalog[items[i].sku]))
    ensures lineItems == Lines(catalog, items, price) && totalValueCents == Total(lineItems)
  {
    lineItems, totalValueCents := [], 0;
    ghost var done := [];
    for i := 0 to |items|
      invariant done == items[..i] && lineItems == Lines(catalog, done, price) && totalValueCents == Total(lineItems)
    {
      var item := items[i];
      LinesMore(catalog, done, item, price);
      done := done + [item];
      if item.quantity <= 0 { continue; }
      if item.sku !in catalog || catalog[item.sku] == "" { continue; }
      var v := catalog[item.sku];
      var line := MakeLine(catalog, item, quantities[v], costMap[v]);
      assert Priced(v, quantities, costMap, price(v));
      TotalMore(lineItems, line);
      lineItems := lineItems + [line];
      totalValueCents := totalValueCents + line.totalValueCents;
    }
    assert done == items;
  }

  lemma PriceOf(rows: seq<Layer>, catalog: Catalog, items: seq<StockItem>, m: CostingMethod, v: string, units: nat,
                outcome: CostLayerStore.Outcome)
    requires units == UnitsOf(catalog, items, v) && outcome == CalculateCostInBatch(rows, v, units, m)
    ensures UnitPrice(units, CostOf(outcome)) == Prices(rows, catalog, items, m)(v)
  {}

  method ReportStock(costService: Service, items: seq<StockItem>, catalog: Catalog, m: CostingMethod)
    returns (lineItems: seq<ReportLine>, totalValueCents: int)
    ensures lineItems == Lines(catalog, items, Prices(costService.layers.rows, catalog, items, m))
    ensures totalValueCents == Total(lineItems)
  {
    var order, variantQuantities := TallyVariants(catalog, items);
    var costMap := CostVariants(costService, order, variantQuantities, m);
    ghost var price := Prices(costService.layers.rows, catalog, items, m);
    forall i | 0 <= i < |items| && Counted(catalog, items[i])
      ensures Priced(catalog[items[i].sku], variantQuantities, costMap, price(catalog[items[i].sku]))
    {
      var v := catalog[items[i].sku];
      ItemCounts(catalog, items, i);
      SeenIffUnits(catalog, items, v);
      PriceOf(costService.layers.rows, catalog, items, m, v, variantQuantities[v], costMap[v]);
    }
    lineItems, totalValueCents := WriteLines(items, catalog, variantQuantities, costMap, price);
  }

  lemma {:induction false} ItemCounts(catalog: Catalog, items: seq<StockItem>, i: nat)
    requires i < |items| && Counted(catalog, items[i])
    ensures UnitsOf(catalog, items, catalog[items[i].sku]) > 0
  {
    if i < |items| - 1 { ItemCounts(catalog, items[..|items| - 1], i); }
  }

  // ---------- how far rounding moves the report ----------

  function VariantTotal(lines: seq<ReportLine>, v: string): int {
    if lines == [] then 0
    else
      VariantTotal(lines[..|lines| - 1], v) + if lines[|lines| - 1].variantId == v then lines[|lines| - 1].totalValueCents else 0
  }

  lemma AppendLine(lines: seq<ReportLine>, l: ReportLine, v: string)
    ensures VariantTotal(lines + [l], v) == VariantTotal(lines, v) + if l.variantId == v then l.totalValueCents else 0
  {
    assert (lines + [l])[..|lines|] == lines;
  }

  /** The lines of a variant are worth its units at one price. */
  lemma {:induction false} LinesOfVariant(catalog: Catalog, items: seq<StockItem>, price: string -> int, v: string)
    ensures VariantTotal(Lines(catalog, items, price), v) == price(v) * UnitsOf(catalog, items, v)
  {
    if items != [] {
      var front, item := items[..|items| - 1], items[|items| - 1];
      LinesOfVariant(catalog, front, price, v);
      var before := Lines(catalog, front, price);
      if Counted(catalog, item) {
        AppendLine(before, LineFor(catalog, item, price(catalog[item.sku])), v);
        Distribute(price(v), UnitsOf(catalog, front, v), item.quantity);
      } else {
        assert before + [] == before;
      }
    }
  }

  lemma Distribute(unit: int, a: int, b: int)
    ensures unit * (a + b) == unit * a + unit * b
  {}

  lemma PriceWithinRounding(units: int, cost: int, unit: int)
    requires units > 0 && cost >= 0 && unit == UnitPrice(units, cost)
    ensures -units <= 2 * (unit * units - cost) <= units
  {
    if cost > 0 { KitValue.SpreadEvenly(cost, units, unit); }
  }

  /** Per variant, the report differs from the variant's cost by at most half a cent per unit on hand. */
  lemma VariantWithinRounding(rows: seq<Layer>, catalog: Catalog, items: seq<StockItem>, m: CostingMethod, v: string, units: int)
    requires units == UnitsOf(catalog, items, v) && units > 0
    ensures var lines := Lines(catalog, items, Prices(rows, catalog, items, m));
            -units <= 2 * (VariantTotal(lines, v) - VariantCost(rows, v, units, m)) <= units
  {
    var price := Prices(rows, catalog, items, m);
    LinesOfVariant(catalog, items, price, v);
    PriceWithinRounding(units, VariantCost(rows, v, units, m), price(v));
  }

  // ---------- the whole report ----------

  ghost function ByVariant(lines: seq<ReportLine>): map<string, int> {
    if lines == [] then map[]
    else
      var m, l := ByVariant(lines[..|lines| - 1]), lines[|lines| - 1];
      m[l.variantId := (if l.variantId in m then m[l.variantId] else 0) + l.totalValueCents]
  }

  lemma {:induction false} ByVariantFacts(lines: seq<ReportLine>)
    ensures MapSums.Sum(ByVariant(lines)) == Total(lines)
    ensures forall v :: VariantTotal(lines, v) == if v in ByVariant(lines) then ByVariant(lines)[v] else 0
  {
    if lines != [] {
      var front, l := lines[..|lines| - 1], lines[|lines| - 1];
      ByVariantFacts(front);
      var m := ByVariant(front);
      MapSums.SumUpdate(m, l.variantId, (if l.variantId in m then m[l.variantId] else 0) + l.totalValueCents);
    }
  }

  lemma {:induction false} LinesNameVariants(catalog: Catalog, items: seq<StockItem>, price: string -> int)
    ensures ByVariant(Lines(catalog, items, price)).Keys == set v | v in VariantsOf(catalog, items)
  {
    if items != [] {
      var front, item := items[..|items| - 1], items[|items| - 1];
      LinesNameVariants(catalog, front, price);
      var before := Lines(catalog, front, price);
      if Counted(catalog, item) {
        var line := LineFor(catalog, item, price(catalog[item.sku]));
        assert (before + [line])[..|before|] == before;
      } else {
        assert before + [] == before;
      }
    }
  }

  /** The exact cost of each variant on hand, and its units. */
  ghost function Costs(rows: seq<Layer>, catalog: Catalog, items: seq<StockItem>, m: CostingMethod): map<string, int> {
    map v | v in VariantsOf(catalog, items) :: VariantCost(rows, v, UnitsOf(catalog, items, v), m)
  }

  ghost function OnHand(catalog: Catalog, items: seq<StockItem>): map<string, int> {
    map v | v in VariantsOf(catalog, items) :: UnitsOf(catalog, items, v)
  }

  lemma {:induction false} SumsClose(a: map<string, int>, c: map<string, int>, q: map<string, int>)
    requires a.Keys == c.Keys == q.Keys && forall k :: k in a ==> -q[k] <= 2 * (a[k] - c[k]) <= q[k]
    ensures -MapSums.Sum(q) <= 2 * (MapSums.Sum(a) - MapSums.Sum(c)) <= MapSums.Sum(q)
    decreases |a|
  {
    if a != map[] {
      var k :| k in a;
      MapSums.SumWithout(a, k);
      MapSums.SumWithout(c, k);
      MapSums.SumWithout(q, k);
      SumsClose(a - {k}, c - {k}, q - {k});
    } else {
      assert c == map[] && q == map[];
    }
  }

  /** The whole report differs from the exact cost of the stock by at most half a cent per unit on hand. */
  lemma ReportWithinRounding(rows: seq<Layer>, catalog: Catalog, items: seq<StockItem>, m: CostingMethod)
    ensures var units := MapSums.Sum(OnHand(catalog, items));
            var lines := Lines(catalog, items, Prices(rows, catalog, items, m));
            -units <= 2 * (Total(lines) - MapSums.Sum(Costs(rows, catalog, items, m))) <= units
  {
    var price := Prices(rows, catalog, items, m);
    var lines := Lines(catalog, items, price);
    ByVariantFacts(lines);
    LinesNameVariants(catalog, items, price);
    var totals, costs, units := ByVariant(lines), Costs(rows, catalog, items, m), OnHand(catalog, items);
    forall v | v in totals ensures -units[v] <= 2 * (totals[v] - costs[v]) <= units[v] {
      SeenIffUnits(catalog, items, v);
      VariantWithinRounding(rows, catalog, items, m, v, units[v]);
      assert VariantTotal(lines, v) == totals[v];
    }
    SumsClose(totals, costs, units);
  }
}
