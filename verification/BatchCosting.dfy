/** The specification of batch consumption: the items one by one, in input order. */
module BatchCosting {
  import opened Options
  import opened Sorting
  import opened CostLayers
  import opened CostLayerStore

  datatype Item = Item(variantId: string, quantity: int)

  datatype Breakdown = Breakdown(quantity: int, totalCostCents: int)

  type Methods = map<string, CostingMethod>

  /** `methodsMap?.get(v) || FIFO`. */
  function MethodOf(methods: Methods, variantId: string): CostingMethod {
    if variantId in methods then methods[variantId] else FIFO
  }

  function OfMethod(methods: Methods, m: CostingMethod): Item -> bool {
    (i: Item) => MethodOf(methods, i.variantId) == m
  }

  function Front<T>(s: seq<T>): seq<T> requires s != [] { s[..|s| - 1] }

  function Last<T>(s: seq<T>): T requires s != [] { s[|s| - 1] }

  /** `consumeLayers` item by item: each fetches from what the previous one stored. */
  function Sequential(rows: seq<Layer>, items: seq<Item>, methods: Methods): Option<(seq<Layer>, seq<int>)> {
    if items == [] then Some((rows, []))
    else
      match Sequential(rows, Front(items), methods)
      case None => None
      case Some((stored, costs)) =>
        var item := Last(items);
        var (outcome, stored') := ConsumeLayers(stored, item.variantId, item.quantity, MethodOf(methods, item.variantId));
        if outcome.Failed? then None else Some((stored', costs + [outcome.cost]))
  }

  // ---------- what the items do to each line ----------

  /** A variant's line after the items, each drawing what it can. */
  function LineAfter(rows: seq<Layer>, items: seq<Item>, methods: Methods, v: string): seq<Layer> {
    if items == [] then Line(rows, v, MethodOf(methods, v))
    else
      var line := LineAfter(rows, Front(items), methods, v);
      if Last(items).variantId == v then DrawDown(line, Last(items).quantity).layers else line
  }

  /** The draw made by the last of the items. */
  function LastDraw(rows: seq<Layer>, items: seq<Item>, methods: Methods): Drawn
    requires items != []
  {
    DrawDown(LineAfter(rows, Front(items), methods, Last(items).variantId), Last(items).quantity)
  }

  predicate AllCovered(rows: seq<Layer>, items: seq<Item>, methods: Methods) {
    items == [] || (AllCovered(rows, Front(items), methods) &&
                    MethodOf(methods, Last(items).variantId) != SpecificIdentification &&
                    LastDraw(rows, items, methods).missing <= 0)
  }

  function TotalCost(rows: seq<Layer>, items: seq<Item>, methods: Methods): int {
    if items == [] then 0 else TotalCost(rows, Front(items), methods) + LastDraw(rows, items, methods).cost
  }

  predicate Occurs(items: seq<Item>, v: string) {
    exists k :: 0 <= k < |items| && items[k].variantId == v
  }

  /** What the items of one variant ask for and cost together. */
  function VariantBreakdown(rows: seq<Layer>, items: seq<Item>, methods: Methods, v: string): Breakdown {
    if items == [] then Breakdown(0, 0)
    else
      var b := VariantBreakdown(rows, Front(items), methods, v);
      if Last(items).variantId != v then b
      else Breakdown(b.quantity + Last(items).quantity, b.totalCostCents + LastDraw(rows, items, methods).cost)
  }

  /** The same breakdown read off a list of per-item costs. */
  function BreakdownOf(items: seq<Item>, costs: seq<int>, v: string): Breakdown
    requires |items| == |costs|
  {
    if items == [] then Breakdown(0, 0)
    else
      var b := BreakdownOf(Front(items), Front(costs), v);
      if Last(items).variantId != v then b
      else Breakdown(b.quantity + Last(items).quantity, b.totalCostCents + Last(costs))
  }

  /** Sequential processing succeeds iff every item is covered; its costs and lines are the ones above. */
  lemma {:induction false} SequentialMeaning(rows: seq<Layer>, items: seq<Item>, methods: Methods)
    requires Table(rows)
    ensures Sequential(rows, items, methods).Some? <==> AllCovered(rows, items, methods)
    ensures Sequential(rows, items, methods).Some? ==>
              var (stored, costs) := Sequential(rows, items, methods).value;
              |costs| == |items| && Sum(costs) == TotalCost(rows, items, methods) && Table(stored) && SameRows(rows, stored) &&
              forall v: string :: Line(stored, v, MethodOf(methods, v)) == LineAfter(rows, items, methods, v)
  {
    if items != [] {
      var front, item := Front(items), Last(items);
      SequentialMeaning(rows, front, methods);
      var m := MethodOf(methods, item.variantId);
      if Sequential(rows, front, methods).Some? && m != SpecificIdentification {
        var (stored, costs) := Sequential(rows, front, methods).value;
        ConsumeLayersEffect(stored, item.variantId, item.quantity, m);
        SumConcat(costs, [LastDraw(rows, items, methods).cost]);
        assert Sum([LastDraw(rows, items, methods).cost]) == LastDraw(rows, items, methods).cost;
      }
    }
  }

  lemma SequentialStep(rows: seq<Layer>, items: seq<Item>, methods: Methods)
    requires Table(rows) && items != [] && Sequential(rows, items, methods).Some?
    ensures Sequential(rows, Front(items), methods).Some?
    ensures Sequential(rows, items, methods).value.1 ==
              Sequential(rows, Front(items), methods).value.1 + [LastDraw(rows, items, methods).cost]
  {
    SequentialMeaning(rows, Front(items), methods);
    var item, stored := Last(items), Sequential(rows, Front(items), methods).value.0;
    ConsumeLayersEffect(stored, item.variantId, item.quantity, MethodOf(methods, item.variantId));
  }

  lemma {:induction false} SequentialBreakdown(rows: seq<Layer>, items: seq<Item>, methods: Methods, v: string)
    requires Table(rows) && Sequential(rows, items, methods).Some?
    ensures var costs := Sequential(rows, items, methods).value.1;
            |costs| == |items| && VariantBreakdown(rows, items, methods, v) == BreakdownOf(items, costs, v)
  {
    if items != [] {
      SequentialStep(rows, items, methods);
      SequentialBreakdown(rows, Front(items), methods, v);
      var costs, cost := Sequential(rows, Front(items), methods).value.1, LastDraw(rows, items, methods).cost;
      assert Front(costs + [cost]) == costs && Last(costs + [cost]) == cost;
    }
  }

  // ---------- regrouping by method ----------

  lemma {:induction false} FilterLast<T>(items: seq<T>, p: T -> bool)
    requires items != []
    ensures Filter(items, p) == Filter(Front(items), p) + if p(Last(items)) then [Last(items)] else []
  {
    if |items| == 1 {
      assert Front(items) == [];
    } else {
      FilterLast(items[1..], p);
      assert Front(items[1..]) == Front(items)[1..];
    }
  }

  lemma GroupStep(items: seq<Item>, methods: Methods, m: CostingMethod)
    requires items != []
    ensures var group, before := Filter(items, OfMethod(methods, m)), Filter(Front(items), OfMethod(methods, m));
            if MethodOf(methods, Last(items).variantId) == m
            then group != [] && Front(group) == before && Last(group) == Last(items)
            else group == before
  {
    FilterLast(items, OfMethod(methods, m));
  }

  /** A variant's line and breakdown only depend on the items of its method. */
  lemma {:induction false} GroupDecides(rows: seq<Layer>, items: seq<Item>, methods: Methods, v: string)
    ensures var group := Filter(items, OfMethod(methods, MethodOf(methods, v)));
            LineAfter(rows, group, methods, v) == LineAfter(rows, items, methods, v)
  {
    if items != [] {
      GroupDecides(rows, Front(items), methods, v);
      GroupStep(items, methods, MethodOf(methods, v));
    }
  }

  lemma {:induction false} GroupBreakdown(rows: seq<Layer>, items: seq<Item>, methods: Methods, v: string)
    ensures var group := Filter(items, OfMethod(methods, MethodOf(methods, v)));
            VariantBreakdown(rows, group, methods, v) == VariantBreakdown(rows, items, methods, v)
  {
    if items != [] {
      GroupBreakdown(rows, Front(items), methods, v);
      GroupStep(items, methods, MethodOf(methods, v));
      if Last(items).variantId == v { GroupDecides(rows, Front(items), methods, v); }
    }
  }

  lemma GroupOccurs(items: seq<Item>, methods: Methods, v: string)
    ensures Occurs(Filter(items, OfMethod(methods, MethodOf(methods, v))), v) <==> Occurs(items, v)
  {
    var p := OfMethod(methods, MethodOf(methods, v));
    if Occurs(Filter(items, p), v) {
      var k :| 0 <= k < |Filter(items, p)| && Filter(items, p)[k].variantId == v;
      var j := FilterFrom(items, p, k);
    }
    if Occurs(items, v) {
      var k :| 0 <= k < |items| && items[k].variantId == v;
      var j := FilterTo(items, p, k);
    }
  }

  lemma OccursLast(items: seq<Item>, v: string)
    requires items != []
    ensures Occurs(items, v) <==> Occurs(Front(items), v) || Last(items).variantId == v
  {
    if Occurs(Front(items), v) {
      var k :| 0 <= k < |Front(items)| && Front(items)[k].variantId == v;
      assert items[k].variantId == v;
    }
    if Occurs(items, v) && Last(items).variantId != v {
      var k :| 0 <= k < |items| && items[k].variantId == v;
      assert Front(items)[k].variantId == v;
    }
  }

  /** The last item's draw is the same within its group. */
  lemma GroupDraw(rows: seq<Layer>, items: seq<Item>, methods: Methods)
    requires items != []
    ensures var group := Filter(items, OfMethod(methods, MethodOf(methods, Last(items).variantId)));
            group != [] && Front(group) == Filter(Front(items), OfMethod(methods, MethodOf(methods, Last(items).variantId))) &&
            Last(group) == Last(items) && LastDraw(rows, group, methods) == LastDraw(rows, items, methods)
  {
    var v := Last(items).variantId;
    GroupStep(items, methods, MethodOf(methods, v));
    GroupDecides(rows, Front(items), methods, v);
  }

  function GroupsCost(rows: seq<Layer>, items: seq<Item>, methods: Methods, order: seq<CostingMethod>): int {
    if order == [] then 0
    else GroupsCost(rows, items, methods, Front(order)) + TotalCost(rows, Filter(items, OfMethod(methods, Last(order))), methods)
  }

  ghost predicate Listed(items: seq<Item>, methods: Methods, order: seq<CostingMethod>) {
    (forall i, j :: 0 <= i < j < |order| ==> order[i] != order[j]) &&
    (forall k :: 0 <= k < |items| ==> MethodOf(methods, items[k].variantId) in order)
  }

  /** One more item adds its cost to its own group only. */
  lemma {:induction false} GroupsCostLast(rows: seq<Layer>, items: seq<Item>, methods: Methods, order: seq<CostingMethod>)
    requires items != [] && forall i, j :: 0 <= i < j < |order| ==> order[i] != order[j]
    ensures GroupsCost(rows, items, methods, order) == GroupsCost(rows, Front(items), methods, order)
            + if MethodOf(methods, Last(items).variantId) in order then LastDraw(rows, items, methods).cost else 0
  {
    if order != [] {
      GroupsCostLast(rows, items, methods, Front(order));
      GroupStep(items, methods, Last(order));
      if MethodOf(methods, Last(items).variantId) == Last(order) {
        GroupDraw(rows, items, methods);
        assert MethodOf(methods, Last(items).variantId) !in Front(order);
      } else {
        assert MethodOf(methods, Last(items).variantId) in order <==> MethodOf(methods, Last(items).variantId) in Front(order);
      }
    }
  }

  /** Adding up group by group gives the same total. */
  lemma {:induction false} RegroupedTotal(rows: seq<Layer>, items: seq<Item>, methods: Methods, order: seq<CostingMethod>)
    requires Listed(items, methods, order)
    ensures GroupsCost(rows, items, methods, order) == TotalCost(rows, items, methods)
  {
    if items == [] {
      NoCost(rows, methods, order);
    } else {
      RegroupedTotal(rows, Front(items), methods, order);
      GroupsCostLast(rows, items, methods, order);
    }
  }

  lemma {:induction false} NoCost(rows: seq<Layer>, methods: Methods, order: seq<CostingMethod>)
    ensures GroupsCost(rows, [], methods, order) == 0
  {
    if order != [] { NoCost(rows, methods, Front(order)); }
  }

  /** Everything is covered iff every group is. */
  lemma {:induction false} RegroupedCover(rows: seq<Layer>, items: seq<Item>, methods: Methods)
    ensures AllCovered(rows, items, methods) <==> forall m :: AllCovered(rows, Filter(items, OfMethod(methods, m)), methods)
  {
    if items != [] {
      RegroupedCover(rows, Front(items), methods);
      GroupDraw(rows, items, methods);
      var mine := MethodOf(methods, Last(items).variantId);
      forall m ensures m != mine ==> Filter(items, OfMethod(methods, m)) == Filter(Front(items), OfMethod(methods, m)) {
        GroupStep(items, methods, m);
      }
      var group := Filter(items, OfMethod(methods, mine));
      assert AllCovered(rows, group, methods) <==>
        AllCovered(rows, Front(group), methods) && mine != SpecificIdentification && LastDraw(rows, items, methods).missing <= 0;
    }
  }

  // ---------- saving everything at the end ----------

  /** Two versions of a table with equal lines are equal. */
  lemma LinesDetermineRows(rows: seq<Layer>, a: seq<Layer>, b: seq<Layer>, methods: Methods)
    requires Table(rows) && SameRows(rows, a) && SameRows(rows, b)
    requires forall v: string :: Line(a, v, MethodOf(methods, v)) == Line(b, v, MethodOf(methods, v))
    ensures a == b
  {
    forall j | 0 <= j < |a| ensures a[j] == b[j] {
      var m := MethodOf(methods, a[j].variantId);
      var i := LineTo(a, m, j);
      var k := LineFrom(b, a[j].variantId, m, i);
      assert Id(rows[k]) == Id(rows[j]);
    }
  }

  /** The batch's layer objects, per variant, when it is about to save. */
  ghost predicate Touched(rows: seq<Layer>, items: seq<Item>, methods: Methods, drawn: map<string, seq<Layer>>, saved: seq<Layer>) {
    (forall v :: v in drawn <==> Occurs(items, v)) &&
    (forall v :: v in drawn ==> Tracks(drawn[v], LineAfter(rows, items, methods, v), Line(rows, v, MethodOf(methods, v)))) &&
    (forall v, k :: v in drawn && 0 <= k < |drawn[v]| ==> drawn[v][k] in saved) &&
    (forall k :: 0 <= k < |saved| ==> saved[k].variantId in drawn && saved[k] in drawn[saved[k].variantId])
  }

  lemma SavedIsRow(rows: seq<Layer>, items: seq<Item>, methods: Methods, drawn: map<string, seq<Layer>>, saved: seq<Layer>, k: nat)
    returns (j: nat)
    requires Table(rows) && Touched(rows, items, methods, drawn, saved) && k < |saved|
    ensures j < |rows| && rows[j].id == saved[k].id && rows[j].variantId == saved[k].variantId
  {
    var v := saved[k].variantId;
    var base := Line(rows, v, MethodOf(methods, v));
    var line := LineAfter(rows, items, methods, v);
    TracksShape(drawn[v], line, base);
    var n :| 0 <= n < |drawn[v]| && drawn[v][n] == saved[k];
    var i :| 0 <= i < |line| && line[i] == drawn[v][n];
    j := LineFrom(rows, v, MethodOf(methods, v), i);
  }

  lemma {:induction false} UntouchedLine(rows: seq<Layer>, items: seq<Item>, methods: Methods, v: string)
    requires !Occurs(items, v)
    ensures LineAfter(rows, items, methods, v) == Line(rows, v, MethodOf(methods, v))
  {
    if items != [] {
      OccursLast(items, v);
      UntouchedLine(rows, Front(items), methods, v);
    }
  }

  lemma SavedBatchLine(rows: seq<Layer>, items: seq<Item>, methods: Methods, drawn: map<string, seq<Layer>>, saved: seq<Layer>, v: string)
    requires Table(rows) && Touched(rows, items, methods, drawn, saved)
    ensures Line(Map(rows, LatestIn(saved)), v, MethodOf(methods, v)) == LineAfter(rows, items, methods, v)
  {
    var m := MethodOf(methods, v);
    var base := Line(rows, v, m);
    LineOfSaved(rows, saved, v, m);
    forall k, i | 0 <= k < |saved| && 0 <= i < |base| && saved[k].id == base[i].id ensures saved[k].variantId == v {
      var j := SavedIsRow(rows, items, methods, drawn, saved, k);
      var n := LineFrom(rows, v, m, i);
      assert Id(rows[n]) == Id(rows[j]);
    }
    if v in drawn {
      LineUnique(rows, v, m);
      SavedLine(saved, drawn[v], LineAfter(rows, items, methods, v), base);
    } else {
      UntouchedLine(rows, items, methods, v);
      forall i | 0 <= i < |base| ensures Latest(saved, base[i]) == base[i] {
        LatestIs(saved, base[i], base[i]);
      }
      assert Map(base, LatestIn(saved)) == base;
    }
  }

  /** Saving all touched layer objects at the end stores what the one-by-one run stores. */
  lemma BatchSavesSequential(rows: seq<Layer>, items: seq<Item>, methods: Methods, drawn: map<string, seq<Layer>>, saved: seq<Layer>)
    requires Table(rows) && AllCovered(rows, items, methods) && Touched(rows, items, methods, drawn, saved)
    ensures Sequential(rows, items, methods).Some? && SaveBatch(rows, saved) == Sequential(rows, items, methods).value.0
  {
    SequentialMeaning(rows, items, methods);
    forall k | 0 <= k < |saved| ensures HasId(rows, saved[k].id) {
      var j := SavedIsRow(rows, items, methods, drawn, saved, k);
    }
    SaveOverwrites(rows, saved);
    forall v: string ensures Line(SaveBatch(rows, saved), v, MethodOf(methods, v)) == LineAfter(rows, items, methods, v) {
      SavedBatchLine(rows, items, methods, drawn, saved, v);
    }
    LinesDetermineRows(rows, SaveBatch(rows, saved), Sequential(rows, items, methods).value.0, methods);
  }
}
