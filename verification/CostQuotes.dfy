/** `calculateCostBatch`: the items are grouped by costing method, each group is fetched at once, and every
    quote is written back at its item's index; an item that cannot be covered gets no quote. */
module CostQuotes {
  import opened CostLayers
  import opened CostLayerStore
  import opened CostComparison
  import opened BatchCosting
  import opened CostLayerService

  function MethodFor(methodsMap: Methods, globalMethod: CostingMethod, v: string): CostingMethod {
    if v in methodsMap then methodsMap[v] else globalMethod
  }

  /** Each item's quote, on its own. */
  function Quote(rows: seq<Layer>, item: Item, methodsMap: Methods, globalMethod: CostingMethod): Outcome {
    CalculateCostInBatch(rows, item.variantId, item.quantity, MethodFor(methodsMap, globalMethod, item.variantId))
  }

  /** The indices of each method, and the methods in the order they first occur. */
  ghost predicate Grouped(items: seq<Item>, n: nat, methodsMap: Methods, globalMethod: CostingMethod,
                          order: seq<CostingMethod>, groups: map<CostingMethod, seq<nat>>)
    requires n <= |items|
  {
    && (forall m :: m in groups <==> m in order)
    && (forall m, k :: m in groups && 0 <= k < |groups[m]| ==>
          groups[m][k] < n && MethodFor(methodsMap, globalMethod, items[groups[m][k]].variantId) == m)
    && (forall i :: 0 <= i < n ==>
          var m := MethodFor(methodsMap, globalMethod, items[i].variantId); m in groups && i in groups[m])
  }

  method GroupIndices(items: seq<Item>, methodsMap: Methods, globalMethod: CostingMethod)
    returns (order: seq<CostingMethod>, groups: map<CostingMethod, seq<nat>>)
    ensures Grouped(items, |items|, methodsMap, globalMethod, order, groups)
  {
    order, groups := [], map[];
    for i := 0 to |items|
      invariant Grouped(items, i, methodsMap, globalMethod, order, groups)
    {
      var m := MethodFor(methodsMap, globalMethod, items[i].variantId);
      var list := if m in groups then groups[m] else [];
      if m !in groups { order := order + [m]; }
      groups := groups[m := list + [i]];
    }
  }

  /** One quote from the layers fetched for its variant. */
  method QuoteFrom(activeLayers: Objects, quantity: int, m: CostingMethod, ghost rows: seq<Layer>, ghost v: string)
    returns (quote: Outcome)
    requires View(activeLayers) == CostLayerStore.GetActiveLayers(rows, v, if m == WeightedAverageCost then FIFO else m)
    ensures quote == CalculateCostInBatch(rows, v, quantity, m)
  {
    if m == WeightedAverageCost {
      quote := WeightedAverageCostSync(activeLayers, quantity);
    } else {
      quote := WalkCost(activeLayers, quantity);
    }
  }

  method FetchGroup(costService: Service, items: seq<Item>, indices: seq<nat>, m: CostingMethod) returns (active: map<string, Objects>)
    requires forall k :: 0 <= k < |indices| ==> indices[k] < |items|
    ensures forall k :: 0 <= k < |indices| ==>
      var v := items[indices[k]].variantId;
      v in active && View(active[v]) == CostLayerStore.GetActiveLayers(costService.layers.rows, v, m)
  {
    var variantIds := seq(|indices|, k requires 0 <= k < |indices| => items[indices[k]].variantId);
    ghost var repr;
    active, repr := costService.layers.GetActiveLayersBatch(variantIds, m);
    forall k | 0 <= k < |indices|
      ensures var v := items[indices[k]].variantId;
              v in active && View(active[v]) == CostLayerStore.GetActiveLayers(costService.layers.rows, v, m)
    {
      assert variantIds[k] in variantIds;
    }
  }

  /** One method group: its items' places in the results are filled, the others keep what they had. */
  method QuoteGroup(costService: Service, items: seq<Item>, indices: seq<nat>, m: CostingMethod, results: array<Outcome>)
    requires results.Length == |items| && forall k :: 0 <= k < |indices| ==> indices[k] < |items|
    modifies results
    ensures forall i :: 0 <= i < |items| ==>
      results[i] == if i in indices then CalculateCostInBatch(costService.layers.rows, items[i].variantId, items[i].quantity, m)
                    else old(results[i])
  {
    var fetchOrder := if m == WeightedAverageCost then FIFO else m;
    var active := FetchGroup(costService, items, indices, fetchOrder);
    ghost var rows := costService.layers.rows;
    for k := 0 to |indices|
      invariant forall i :: 0 <= i < |items| ==>
        results[i] == if i in indices[..k] then CalculateCostInBatch(rows, items[i].variantId, items[i].quantity, m)
                      else old(results[i])
      invariant forall j :: 0 <= j < |indices| ==>
        View(active[items[indices[j]].variantId]) == CostLayerStore.GetActiveLayers(rows, items[indices[j]].variantId, fetchOrder)
    {
      var index := indices[k];
      var quote := QuoteFrom(active[items[index].variantId], items[index].quantity, m, rows, items[index].variantId);
      results[index] := quote;
      assert indices[..k + 1] == indices[..k] + [index];
    }
    assert indices[..|indices|] == indices;
  }

  /** Grouping by method changes no quote: each item gets the quote it would get on its own. */
  method CalculateCostBatch(costService: Service, items: seq<Item>, globalMethod: CostingMethod, methodsMap: Methods)
    returns (quotes: seq<Outcome>)
    ensures |quotes| == |items|
    ensures forall i :: 0 <= i < |items| ==> quotes[i] == Quote(costService.layers.rows, items[i], methodsMap, globalMethod)
    ensures forall i :: 0 <= i < |items| ==>
      quotes[i] == CalculateCostInBatch(costService.layers.rows, items[i].variantId, items[i].quantity,
                                        if items[i].variantId in methodsMap then methodsMap[items[i].variantId] else globalMethod)
  {
    var order, groups := GroupIndices(items, methodsMap, globalMethod);
    var results := new Outcome[|items|](_ => Failed);
    ghost var rows := costService.layers.rows;
    for g := 0 to |order|
      invariant forall i :: 0 <= i < |items| && MethodFor(methodsMap, globalMethod, items[i].variantId) in order[..g] ==>
        results[i] == Quote(rows, items[i], methodsMap, globalMethod)
    {
      var m := order[g];
      QuoteGroup(costService, items, groups[m], m, results);
      assert order[..g + 1] == order[..g] + [m];
    }
    assert order[..|order|] == order;
    quotes := results[..];
  }
}
