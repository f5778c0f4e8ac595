/** In which order each costing method uses up the stored layers, on the layers' own fields. */
module CostOrder {
  import opened Numbers
  import opened Options
  import opened Sorting
  import opened CostLayers
  import opened CostLayerStore
  import opened CostComparison
  import opened BatchCosting
  import opened InventoryValue
  import MapSums

  // ---------- the orders ----------

  /** First in, first out: by receipt; so do the methods that are drawn like it. */
  lemma FifoOrder(rows: seq<Layer>, v: string, m: CostingMethod, i: nat, j: nat)
    requires m in {FIFO, WeightedAverageCost} && i < j < |Line(rows, v, m)|
    ensures Line(rows, v, m)[i].receivedAt <= Line(rows, v, m)[j].receivedAt
  {
    SortFacts(Filter(rows, IsVariant(v)), ByReceipt);
    assert AtMost(ByReceipt(Line(rows, v, m)[i]), ByReceipt(Line(rows, v, m)[j]));
  }

  /** Last in, first out: latest receipt first. */
  lemma LifoOrder(rows: seq<Layer>, v: string, i: nat, j: nat)
    requires i < j < |Line(rows, v, LIFO)|
    ensures Line(rows, v, LIFO)[i].receivedAt >= Line(rows, v, LIFO)[j].receivedAt
  {
    SortFacts(Filter(rows, IsVariant(v)), ByReceiptDown);
    assert AtMost(ByReceiptDown(Line(rows, v, LIFO)[i]), ByReceiptDown(Line(rows, v, LIFO)[j]));
  }

  /** First expired, first out: lots by expiration, layers without a lot last, and equals by receipt. */
  lemma FefoOrder(rows: seq<Layer>, v: string, i: nat, j: nat)
    requires i < j < |Line(rows, v, FEFO)|
    ensures var a, b := Line(rows, v, FEFO)[i], Line(rows, v, FEFO)[j];
            && (a.lot == None ==> b.lot == None)
            && (a.lot.Some? && b.lot.Some? ==> a.lot.value.expiration <= b.lot.value.expiration)
            && (a.lot == None || (b.lot.Some? && a.lot.value.expiration == b.lot.value.expiration) ==> a.receivedAt <= b.receivedAt)
  {
    var byReceipt := StableSort(Filter(rows, IsVariant(v)), ByReceipt);
    var a, b := Line(rows, v, FEFO)[i], Line(rows, v, FEFO)[j];
    SortFacts(Filter(rows, IsVariant(v)), ByReceipt);
    SortFacts(byReceipt, ByExpiry);
    assert AtMost(ByExpiry(a), ByExpiry(b));
    if ByExpiry(a) == ByExpiry(b) { TiesKeepOrder(byReceipt, ByReceipt, ByExpiry, i, j); }
  }

  /** The same for the sort that a strategy applies to any list it is given. */
  lemma StrategyOrder(layers: seq<Layer>, m: CostingMethod, i: nat, j: nat)
    requires i < j < |StrategySort(layers, m)|
    ensures var a, b := StrategySort(layers, m)[i], StrategySort(layers, m)[j];
            && (m in {FIFO, WeightedAverageCost} ==> a.receivedAt <= b.receivedAt)
            && (m == LIFO ==> a.receivedAt >= b.receivedAt)
            && (m == FEFO ==> (a.lot == None ==> b.lot == None) &&
                              (a.lot.Some? && b.lot.Some? ==> a.lot.value.expiration <= b.lot.value.expiration))
  {
    var a, b := StrategySort(layers, m)[i], StrategySort(layers, m)[j];
    match m {
      case LIFO => SortFacts(layers, ByReceiptDown); assert AtMost(ByReceiptDown(a), ByReceiptDown(b));
      case FEFO => SortFacts(layers, ByExpiry); assert AtMost(ByExpiry(a), ByExpiry(b));
      case _ => SortFacts(layers, ByReceipt); assert AtMost(ByReceipt(a), ByReceipt(b));
    }
  }

  /** ... which reorders the list and loses nothing. */
  lemma StrategyPermutes(layers: seq<Layer>, m: CostingMethod)
    ensures multiset(StrategySort(layers, m)) == multiset(layers)
  {
    match m
    case LIFO => SortFacts(layers, ByReceiptDown);
    case FEFO => SortFacts(layers, ByExpiry);
    case _ => SortFacts(layers, ByReceipt);
  }

  // ---------- what a consumption takes ----------

  /** A draw that takes from a layer exhausts every layer before it. */
  lemma {:induction false} DrawsInOrder(layers: seq<Layer>, quantity: int, i: nat, j: nat)
    requires AllValid(layers) && i < j < |layers|
    requires DrawDown(layers, quantity).layers[j].consumed != layers[j].consumed
    ensures DrawDown(layers, quantity).layers[i].Remaining() == 0
  {
    if quantity > 0 {
      var take := Min(quantity, layers[0].Remaining());
      var rest := DrawDown(layers[1..], quantity - take);
      assert DrawDown(layers, quantity).layers[1..] == rest.layers;
      if i > 0 { DrawsInOrder(layers[1..], quantity - take, i - 1, j - 1); }
    }
  }

  /** Where row j stands in its line before and after a consumption. */
  lemma RowInLine(rows: seq<Layer>, after: seq<Layer>, v: string, m: CostingMethod, drawn: seq<Layer>, j: nat) returns (k: nat)
    requires Table(rows) && SameRows(rows, after) && Line(after, v, m) == drawn && j < |rows| && rows[j].variantId == v
    requires |drawn| == |Line(rows, v, m)| && forall i :: 0 <= i < |drawn| ==> drawn[i].SameExceptConsumed(Line(rows, v, m)[i])
    ensures k < |drawn| && Line(rows, v, m)[k] == rows[j] && drawn[k] == after[j]
  {
    k := LineTo(after, m, j);
    var n := LineFrom(rows, v, m, k);
    assert Id(rows[n]) == Id(rows[j]);
  }

  lemma {:induction false} DrawShape(layers: seq<Layer>, quantity: int, i: nat)
    requires i < |layers|
    ensures DrawDown(layers, quantity).layers[i].SameExceptConsumed(layers[i])
  {
    if quantity > 0 && i > 0 { DrawShape(layers[1..], quantity - Min(quantity, layers[0].Remaining()), i - 1); }
  }

  /** Whatever row of the variant comes earlier in the line is exhausted once a later one has been taken from. */
  lemma TakesInLineOrder(rows: seq<Layer>, v: string, quantity: int, m: CostingMethod, i: nat, j: nat) returns (x: nat, y: nat)
    requires Table(rows) && m != SpecificIdentification && i < |rows| && j < |rows| && rows[i].variantId == rows[j].variantId == v
    requires ConsumeLayers(rows, v, quantity, m).0.Charged?
    ensures SameRows(rows, ConsumeLayers(rows, v, quantity, m).1)
    ensures x < |Line(rows, v, m)| && y < |Line(rows, v, m)| && Line(rows, v, m)[x] == rows[i] && Line(rows, v, m)[y] == rows[j]
    ensures x < y && ConsumeLayers(rows, v, quantity, m).1[j].consumed != rows[j].consumed ==>
              ConsumeLayers(rows, v, quantity, m).1[i].consumed == rows[i].initial
  {
    ConsumeLayersEffect(rows, v, quantity, m);
    var after, line := ConsumeLayers(rows, v, quantity, m).1, Line(rows, v, m);
    var drawn := DrawDown(line, quantity).layers;
    forall k | 0 <= k < |line| ensures drawn[k].SameExceptConsumed(line[k]) { DrawShape(line, quantity, k); }
    x := RowInLine(rows, after, v, m, drawn, i);
    y := RowInLine(rows, after, v, m, drawn, j);
    LineValid(rows, v, m);
    if x < y && drawn[y].consumed != line[y].consumed { DrawsInOrder(line, quantity, x, y); }
  }

  lemma FifoBefore(rows: seq<Layer>, v: string, m: CostingMethod, x: nat, y: nat)
    requires m in {FIFO, WeightedAverageCost} && x < |Line(rows, v, m)| && y < |Line(rows, v, m)|
    requires Line(rows, v, m)[x].receivedAt < Line(rows, v, m)[y].receivedAt
    ensures x < y
  {
    if y < x { FifoOrder(rows, v, m, y, x); }
  }

  lemma LifoBefore(rows: seq<Layer>, v: string, x: nat, y: nat)
    requires x < |Line(rows, v, LIFO)| && y < |Line(rows, v, LIFO)|
    requires Line(rows, v, LIFO)[x].receivedAt > Line(rows, v, LIFO)[y].receivedAt
    ensures x < y
  {
    if y < x { LifoOrder(rows, v, y, x); }
  }

  lemma FefoBefore(rows: seq<Layer>, v: string, x: nat, y: nat)
    requires x < |Line(rows, v, FEFO)| && y < |Line(rows, v, FEFO)|
    requires var a, b := Line(rows, v, FEFO)[x], Line(rows, v, FEFO)[y];
             a.lot.Some? && (b.lot == None || a.lot.value.expiration < b.lot.value.expiration)
    ensures x < y
  {
    if y < x { FefoOrder(rows, v, y, x); }
  }

  /** FIFO: a layer is taken from only when every layer received earlier is used up. */
  lemma FifoTakesOldest(rows: seq<Layer>, v: string, quantity: int, m: CostingMethod, i: nat, j: nat)
    requires Table(rows) && m in {FIFO, WeightedAverageCost} && ConsumeLayers(rows, v, quantity, m).0.Charged?
    requires i < |rows| && j < |rows| && rows[i].variantId == rows[j].variantId == v && rows[i].receivedAt < rows[j].receivedAt
    ensures var after := ConsumeLayers(rows, v, quantity, m).1;
            |after| == |rows| && (after[j].consumed != rows[j].consumed ==> after[i].consumed == rows[i].initial)
  {
    var x, y := TakesInLineOrder(rows, v, quantity, m, i, j);
    FifoBefore(rows, v, m, x, y);
  }

  /** LIFO: only when every layer received later is. */
  lemma LifoTakesNewest(rows: seq<Layer>, v: string, quantity: int, i: nat, j: nat)
    requires Table(rows) && ConsumeLayers(rows, v, quantity, LIFO).0.Charged?
    requires i < |rows| && j < |rows| && rows[i].variantId == rows[j].variantId == v && rows[i].receivedAt > rows[j].receivedAt
    ensures var after := ConsumeLayers(rows, v, quantity, LIFO).1;
            |after| == |rows| && (after[j].consumed != rows[j].consumed ==> after[i].consumed == rows[i].initial)
  {
    var x, y := TakesInLineOrder(rows, v, quantity, LIFO, i, j);
    LifoBefore(rows, v, x, y);
  }

  /** FEFO: only when every layer whose lot expires earlier is, and layers without a lot come last. */
  lemma FefoTakesEarliest(rows: seq<Layer>, v: string, quantity: int, i: nat, j: nat)
    requires Table(rows) && ConsumeLayers(rows, v, quantity, FEFO).0.Charged?
    requires i < |rows| && j < |rows| && rows[i].variantId == rows[j].variantId == v
    requires rows[i].lot.Some? && (rows[j].lot == None || rows[i].lot.value.expiration < rows[j].lot.value.expiration)
    ensures var after := ConsumeLayers(rows, v, quantity, FEFO).1;
            |after| == |rows| && (after[j].consumed != rows[j].consumed ==> after[i].consumed == rows[i].initial)
  {
    var x, y := TakesInLineOrder(rows, v, quantity, FEFO, i, j);
    FefoBefore(rows, v, x, y);
  }

  // ---------- how much, and at what cost ----------

  /** By any method but specific identification, which is refused, a consumption takes exactly the quantity of the variant's
      units, and charges what they are worth. */
  lemma TakesUnitsAndValue(rows: seq<Layer>, v: string, quantity: nat, m: CostingMethod)
    requires Table(rows)
    ensures var (outcome, after) := ConsumeLayers(rows, v, quantity, m);
            var onHand := TotalUnits(Filter(rows, IsVariant(v)));
            && (outcome.Charged? <==> m != SpecificIdentification && quantity <= onHand)
            && (outcome.Failed? ==> after == rows)
            && (outcome.Charged? ==> TotalUnits(Filter(after, IsVariant(v))) == onHand - quantity
                                     && TotalValue(after) == TotalValue(rows) - outcome.cost)
  {
    if m == SpecificIdentification { return; }
    ConsumeLayersEffect(rows, v, quantity, m);
    var (outcome, after) := ConsumeLayers(rows, v, quantity, m);
    var line := Line(rows, v, m);
    LineValid(rows, v, m);
    DrawTakesPrefix(line, quantity);
    TotalsOfUnits(line);
    TotalsOrder(Filter(rows, IsVariant(v)), m);
    if outcome.Charged? {
      DrawTakesValue(line, quantity);
      TotalsOfUnits(Line(after, v, m));
      TotalsOrder(Filter(after, IsVariant(v)), m);
      ValueMovesWithLine(rows, after, v);
      TotalsOrder(Filter(rows, IsVariant(v)), FIFO);
      TotalsOrder(Filter(after, IsVariant(v)), FIFO);
    }
  }

  /** One more item is consumed from what the items before it left, by its variant's own method, or first in, first out. */
  lemma NextItem(rows: seq<Layer>, items: seq<Item>, item: Item, methods: Methods)
    ensures Sequential(rows, items + [item], methods)
         == match Sequential(rows, items, methods)
            case None => None
            case Some((stored, costs)) =>
              var m := if item.variantId in methods then methods[item.variantId] else FIFO;
              var (outcome, after) := ConsumeLayers(stored, item.variantId, item.quantity, m);
              if outcome.Failed? then None else Some((after, costs + [outcome.cost]))
  {
    assert Front(items + [item]) == items && Last(items + [item]) == item;
  }

  ghost function QuantitiesOf(items: seq<Item>, v: string): map<int, int> {
    map i | 0 <= i < |items| && items[i].variantId == v :: items[i].quantity
  }

  ghost function CostsOf(items: seq<Item>, costs: seq<int>, v: string): map<int, int>
    requires |items| == |costs|
  {
    map i | 0 <= i < |items| && items[i].variantId == v :: costs[i]
  }

  lemma LastQuantity(items: seq<Item>, v: string)
    requires items != []
    ensures var m, n := QuantitiesOf(Front(items), v), |items| - 1;
            QuantitiesOf(items, v) == if Last(items).variantId == v then m[n := Last(items).quantity] else m
  {
    assert forall i :: 0 <= i < |items| - 1 ==> Front(items)[i] == items[i];
  }

  lemma LastCost(items: seq<Item>, costs: seq<int>, v: string)
    requires items != [] && |items| == |costs|
    ensures var m, n := CostsOf(Front(items), Front(costs), v), |items| - 1;
            CostsOf(items, costs, v) == if Last(items).variantId == v then m[n := Last(costs)] else m
  {
    assert forall i :: 0 <= i < |items| - 1 ==> Front(items)[i] == items[i] && Front(costs)[i] == costs[i];
  }

  /** A variant's breakdown adds up its items' quantities and their costs. */
  lemma {:induction false} BreakdownMeans(items: seq<Item>, costs: seq<int>, v: string)
    requires |items| == |costs|
    ensures BreakdownOf(items, costs, v) == Breakdown(MapSums.Sum(QuantitiesOf(items, v)), MapSums.Sum(CostsOf(items, costs, v)))
    decreases |items|
  {
    if items == [] {
      assert QuantitiesOf(items, v) == map[] && CostsOf(items, costs, v) == map[];
    } else {
      var n := |items| - 1;
      BreakdownMeans(Front(items), Front(costs), v);
      LastQuantity(items, v);
      LastCost(items, costs, v);
      MapSums.SumUpdate(QuantitiesOf(Front(items), v), n, Last(items).quantity);
      MapSums.SumUpdate(CostsOf(Front(items), Front(costs), v), n, Last(costs));
    }
  }

  // ---------- the average ----------

  lemma {:induction false} ActiveTotals(layers: seq<Layer>)
    requires AllValid(layers)
    ensures TotalUnits(Filter(layers, IsActive())) == TotalUnits(layers) >= 0
    ensures TotalValue(Filter(layers, IsActive())) == TotalValue(layers)
  {
    if layers != [] {
      ActiveTotals(layers[1..]);
      var rest := Filter(layers[1..], IsActive());
      assert ([layers[0]] + rest)[1..] == rest;
    }
  }

  /** A product of reals rounded to the nearest whole number, with the fraction cleared. */
  lemma NearestQuotient(c: int, q: int, value: int, units: int, x: real)
    requires units > 0 && c == Round(x) && x == q as real * (value as real / units as real)
    ensures -units < 2 * (c * units - q * value) <= units
  {
    var u, price, d := units as real, value as real / units as real, c as real - x;
    assert price * u == value as real;
    TimesPrice(q as real, price, u, value as real, x);
    TimesUnits(d, u, c as real * u, x * u);
    Exactly(c, units);
    Exactly(q, value);
    Whole(c * units, q * value, units);
  }

  lemma TimesPrice(q: real, price: real, u: real, value: real, x: real)
    requires price * u == value && x == q * price
    ensures x * u == q * value
  {}

  lemma TimesUnits(d: real, u: real, cu: real, xu: real)
    requires -0.5 < d <= 0.5 && u > 0.0 && d * u == cu - xu
    ensures -0.5 * u < cu - xu <= 0.5 * u
  {
    var below, above := 0.5 - d, d + 0.5;
    Products(below, above, u);
    assert below * u == 0.5 * u - d * u && above * u == d * u + 0.5 * u;
  }

  lemma Products(x: real, y: real, u: real)
    requires x >= 0.0 && y > 0.0 && u > 0.0
    ensures x * u >= 0.0 && y * u > 0.0
  {}

  lemma Exactly(a: int, b: int)
    ensures (a * b) as real == a as real * b as real
  {}

  lemma Whole(a: int, b: int, units: int)
    requires -0.5 * units as real < a as real - b as real <= 0.5 * units as real
    ensures -units < 2 * (a - b) <= units
  {
    assert a as real - b as real == (a - b) as real;
    assert (2 * (a - b)) as real == 2.0 * (a - b) as real;
  }

  lemma AverageRounds(layers: seq<Layer>, quantity: int, units: int, value: int, cost: int)
    requires units == TotalUnits(layers) > 0 && value == TotalValue(layers)
    requires WeightedAverage(layers, quantity) == Charged(cost)
    ensures -units < 2 * (cost * units - quantity * value) <= units
  {
    NearestQuotient(cost, quantity, value, units, quantity as real * (value as real / units as real));
  }

  lemma ActiveListTotals(rows: seq<Layer>, v: string)
    requires AllValid(rows)
    ensures var own, active := Filter(rows, IsVariant(v)), GetActiveLayers(rows, v, FIFO);
            TotalUnits(active) == TotalUnits(own) >= 0 && TotalValue(active) == TotalValue(own)
  {
    OwnValid(rows, v);
    ActiveTotals(Filter(rows, IsVariant(v)));
    TotalsOrder(ActiveRows(rows, v), FIFO);
  }

  /** The average quote is the quantity's share of the variant's whole value, to the nearest cent; there is none when
      nothing is on hand. */
  lemma AverageMeans(rows: seq<Layer>, v: string, quantity: int)
    requires AllValid(rows)
    ensures var units, value := TotalUnits(Filter(rows, IsVariant(v))), TotalValue(Filter(rows, IsVariant(v)));
            match CalculateCost(rows, v, quantity, WeightedAverageCost)
            case Failed => units == 0
            case Charged(cost) => units > 0 && -units < 2 * (cost * units - quantity * value) <= units
  {
    var active := GetActiveLayers(rows, v, FIFO);
    ActiveListTotals(rows, v);
    assert CalculateCost(rows, v, quantity, WeightedAverageCost) == WeightedAverage(active, quantity);
    var units, value := TotalUnits(active), TotalValue(active);
    if units > 0 { AverageRounds(active, quantity, units, value, WeightedAverage(active, quantity).cost); }
  }

  lemma {:induction false} OwnValid(rows: seq<Layer>, v: string)
    requires AllValid(rows)
    ensures AllValid(Filter(rows, IsVariant(v)))
  {
    forall i | 0 <= i < |Filter(rows, IsVariant(v))| ensures Filter(rows, IsVariant(v))[i].Valid() { var j := FilterFrom(rows, IsVariant(v), i); }
  }
}
