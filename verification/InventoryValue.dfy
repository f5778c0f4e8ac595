/** The value of the whole layer table, and what consumption takes out of it. */
module InventoryValue {
  import opened Numbers
  import opened Sorting
  import opened CostLayers
  import opened CostLayerStore
  import opened CostComparison
  import opened BatchCosting

  lemma {:induction false} TotalsJoin(a: seq<Layer>, b: seq<Layer>)
    ensures TotalUnits(a + b) == TotalUnits(a) + TotalUnits(b) && TotalValue(a + b) == TotalValue(a) + TotalValue(b)
  {
    if a == [] {
      assert a + b == b;
    } else {
      assert (a + b)[0] == a[0] && (a + b)[1..] == a[1..] + b;
      TotalsJoin(a[1..], b);
    }
  }

  lemma Taken(remaining: int, take: int, cost: int)
    ensures (remaining - take) * cost == remaining * cost - take * cost
  {}

  /** Drawing down takes exactly the charged cost out of the value. */
  lemma {:induction false} DrawTakesValue(layers: seq<Layer>, quantity: int)
    ensures var d := DrawDown(layers, quantity); TotalValue(d.layers) == TotalValue(layers) - d.cost
  {
    if layers != [] && quantity > 0 {
      var take := Min(quantity, layers[0].Remaining());
      DrawTakesValue(layers[1..], quantity - take);
      Taken(layers[0].Remaining(), take, layers[0].unitCost);
      assert DrawDown(layers, quantity).layers[1..] == DrawDown(layers[1..], quantity - take).layers;
    }
  }

  function IsOther(v: string): Layer -> bool { (l: Layer) => l.variantId != v }

  lemma {:induction false} ValueSplits(rows: seq<Layer>, v: string)
    ensures TotalValue(rows) == TotalValue(Filter(rows, IsVariant(v))) + TotalValue(Filter(rows, IsOther(v)))
  {
    if rows != [] { ValueSplits(rows[1..], v); }
  }

  lemma {:induction false} OthersKept(rows: seq<Layer>, after: seq<Layer>, v: string)
    requires |after| == |rows|
    requires forall j :: 0 <= j < |rows| ==> after[j].variantId == rows[j].variantId
    requires forall j :: 0 <= j < |rows| && rows[j].variantId != v ==> after[j] == rows[j]
    ensures Filter(after, IsOther(v)) == Filter(rows, IsOther(v))
  {
    if rows != [] { OthersKept(rows[1..], after[1..], v); }
  }

  lemma OtherRow(rows: seq<Layer>, after: seq<Layer>, v: string, j: nat)
    requires Table(rows) && SameRows(rows, after) && j < |rows| && rows[j].variantId != v
    requires forall u: string :: u != v ==> Line(after, u, FIFO) == Line(rows, u, FIFO)
    ensures after[j] == rows[j]
  {
    var i := LineTo(after, FIFO, j);
    var k := LineFrom(rows, after[j].variantId, FIFO, i);
    assert Id(rows[k]) == Id(rows[j]);
  }

  /** When only one variant's line changed, the table's value changes as that line's does. */
  lemma ValueMovesWithLine(rows: seq<Layer>, after: seq<Layer>, v: string)
    requires Table(rows) && SameRows(rows, after)
    requires forall u: string :: u != v ==> Line(after, u, FIFO) == Line(rows, u, FIFO)
    ensures TotalValue(after) - TotalValue(rows) == TotalValue(Line(after, v, FIFO)) - TotalValue(Line(rows, v, FIFO))
  {
    forall j | 0 <= j < |rows| && rows[j].variantId != v ensures after[j] == rows[j] { OtherRow(rows, after, v, j); }
    OthersKept(rows, after, v);
    ValueSplits(rows, v);
    ValueSplits(after, v);
    TotalsOrder(Filter(rows, IsVariant(v)), FIFO);
    TotalsOrder(Filter(after, IsVariant(v)), FIFO);
  }

  lemma FifoTakesValue(rows: seq<Layer>, v: string, quantity: int)
    requires Table(rows)
    ensures var (outcome, after) := ConsumeLayers(rows, v, quantity, FIFO);
            TotalValue(after) == TotalValue(rows) - if outcome.Charged? then outcome.cost else 0
  {
    ConsumeLayersEffect(rows, v, quantity, FIFO);
    var (outcome, after) := ConsumeLayers(rows, v, quantity, FIFO);
    if outcome.Charged? {
      DrawTakesValue(Line(rows, v, FIFO), quantity);
      ValueMovesWithLine(rows, after, v);
    }
  }

  /** Consuming several items takes the sum of what they are charged. */
  lemma {:induction false} SequentialTakesValue(rows: seq<Layer>, items: seq<Item>)
    requires Table(rows) && Sequential(rows, items, map[]).Some?
    ensures var (stored, costs) := Sequential(rows, items, map[]).value; TotalValue(stored) == TotalValue(rows) - Sum(costs)
  {
    if items != [] {
      var front, item := Front(items), Last(items);
      SequentialTakesValue(rows, front);
      SequentialMeaning(rows, front, map[]);
      var (stored, costs) := Sequential(rows, front, map[]).value;
      FifoTakesValue(stored, item.variantId, item.quantity);
      var cost := ConsumeLayers(stored, item.variantId, item.quantity, FIFO).0.cost;
      SumConcat(costs, [cost]);
      assert Sum([cost]) == cost;
    }
  }

  /** A new layer adds its own value. */
  lemma NewLayerAddsValue(rows: seq<Layer>, l: Layer)
    requires !HasId(rows, l.id)
    ensures TotalValue(Upsert(rows, l)) == TotalValue(rows) + l.Remaining() * l.unitCost
  {
    TotalsJoin(rows, [l]);
    assert TotalValue([l]) == l.Remaining() * l.unitCost + TotalValue([l][1..]);
  }
}
