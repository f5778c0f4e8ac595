/** The lines of the stock valuation report, item by item, on the items' own fields. */
module ValuationMeaning {
  import opened CostLayers
  import opened CostLayerStore
  import opened CostComparison
  import opened CostOrder
  import opened Valuation
  import MapSums

  /** The items that are reported under a variant, with their quantities. */
  ghost function Reported(catalog: Catalog, items: seq<StockItem>, v: string): map<int, int> {
    map i | 0 <= i < |items| && v != "" && items[i].sku in catalog && catalog[items[i].sku] == v :: items[i].quantity as int
  }

  lemma ReportedMore(catalog: Catalog, front: seq<StockItem>, item: StockItem, v: string)
    ensures var m := Reported(catalog, front, v);
            Reported(catalog, front + [item], v) == if v != "" && item.sku in catalog && catalog[item.sku] == v then m[|front| := item.quantity] else m
  {
    assert forall i :: 0 <= i < |front| ==> (front + [item])[i] == front[i];
    assert (front + [item])[|front|] == item;
  }

  /** A variant's units are what its items have. */
  lemma {:induction false} UnitsMean(catalog: Catalog, items: seq<StockItem>, v: string)
    ensures UnitsOf(catalog, items, v) == MapSums.Sum(Reported(catalog, items, v))
  {
    if items == [] {
      assert Reported(catalog, items, v) == map[];
    } else {
      var front, item := items[..|items| - 1], items[|items| - 1];
      assert items == front + [item];
      UnitsMean(catalog, front, v);
      ReportedMore(catalog, front, item, v);
      MapSums.SumUpdate(Reported(catalog, front, v), |front|, item.quantity);
    }
  }

  /** The lines are those of the items at these positions, which ascend: all items with stock and a variant. */
  ghost predicate LinesOf(catalog: Catalog, items: seq<StockItem>, price: string -> int, places: seq<int>, lines: seq<ReportLine>) {
    && |lines| == |places| && (forall j :: 0 <= j < |places| ==> 0 <= places[j] < |items| && items[places[j]].sku in catalog)
    && (forall j :: 0 <= j < |places| ==>
          var item := items[places[j]];
          var unit := price(catalog[item.sku]);
          lines[j] == ReportLine(item.sku, catalog[item.sku], item.locationId, item.quantity, unit, unit * item.quantity))
    && (forall j, k :: 0 <= j < k < |places| ==> places[j] < places[k])
    && (forall i :: 0 <= i < |items| ==>
          (items[i].quantity >= 1 && items[i].sku in catalog && catalog[items[i].sku] != "" <==> i in places))
  }

  lemma LinesSkip(catalog: Catalog, front: seq<StockItem>, item: StockItem, price: string -> int, places: seq<int>, lines: seq<ReportLine>)
    requires LinesOf(catalog, front, price, places, lines) && !(item.quantity >= 1 && item.sku in catalog && catalog[item.sku] != "")
    ensures LinesOf(catalog, front + [item], price, places, lines)
  {
    assert forall i :: 0 <= i < |front| ==> (front + [item])[i] == front[i];
    assert |front| !in places;
  }

  lemma LinesAppend(catalog: Catalog, front: seq<StockItem>, item: StockItem, price: string -> int, places: seq<int>, lines: seq<ReportLine>, unit: int)
    requires LinesOf(catalog, front, price, places, lines) && item.quantity >= 1 && item.sku in catalog && catalog[item.sku] != ""
    requires unit == price(catalog[item.sku])
    ensures LinesOf(catalog, front + [item], price, places + [|front|],
                    lines + [ReportLine(item.sku, catalog[item.sku], item.locationId, item.quantity, unit, unit * item.quantity)])
  {
    var all := front + [item];
    assert forall i :: 0 <= i < |front| ==> all[i] == front[i];
    assert forall i :: 0 <= i < |all| ==> (i in places + [|front|] <==> i in places || i == |front|);
    assert |front| !in places;
  }

  lemma {:induction false} LinesMean(catalog: Catalog, items: seq<StockItem>, price: string -> int) returns (places: seq<int>)
    ensures LinesOf(catalog, items, price, places, Lines(catalog, items, price))
  {
    places := [];
    if items != [] {
      var front, item := items[..|items| - 1], items[|items| - 1];
      assert items == front + [item];
      places := LinesMean(catalog, front, price);
      var lines := Lines(catalog, front, price);
      if Counted(catalog, item) {
        LinesAppend(catalog, front, item, price, places, lines, price(catalog[item.sku]));
        places := places + [|front|];
      } else {
        LinesSkip(catalog, front, item, price, places, lines);
        assert lines + [] == lines;
      }
    }
  }

  lemma UnitPriceMeans(units: int, cost: int, unit: int)
    requires units > 0 && unit == UnitPrice(units, cost)
    ensures if cost > 0 then -units < 2 * (unit * units - cost) <= units else unit == 0
  {
    if cost > 0 { NearestQuotient(unit, 1, cost, units, cost as real / units as real); }
  }

  /** The report: one line for each item with stock and a variant, in the order of the items, at one price per variant. A
      variant's price is the quote for all its units, by the method asked for, divided by them to the nearest cent; 0
      when there is no quote or it is 0. The total is that of the lines. */
  lemma ReportMeans(rows: seq<Layer>, catalog: Catalog, items: seq<StockItem>, m: CostingMethod, v: string, units: int, price: string -> int)
      returns (places: seq<int>)
    requires units == MapSums.Sum(Reported(catalog, items, v)) && units > 0 && price == Prices(rows, catalog, items, m)
    ensures LinesOf(catalog, items, price, places, Lines(catalog, items, price))
    ensures match CalculateCostInBatch(rows, v, units, m)
            case Charged(cost) => if cost > 0 then -units < 2 * (price(v) * units - cost) <= units else price(v) == 0
            case Failed => price(v) == 0
  {
    UnitsMean(catalog, items, v);
    places := LinesMean(catalog, items, price);
    UnitPriceMeans(units, VariantCost(rows, v, units, m), price(v));
  }

  lemma {:induction false} TotalMeans(lines: seq<ReportLine>)
    ensures Total(lines) == MapSums.Sum(map i | 0 <= i < |lines| :: lines[i].totalValueCents)
  {
    var all := map i | 0 <= i < |lines| :: lines[i].totalValueCents;
    if lines == [] {
      assert all == map[];
    } else {
      var n := |lines| - 1;
      TotalMeans(lines[..n]);
      var before := map i | 0 <= i < n :: lines[..n][i].totalValueCents;
      assert all == before[n := lines[n].totalValueCents];
      MapSums.SumUpdate(before, n, lines[n].totalValueCents);
    }
  }
}
