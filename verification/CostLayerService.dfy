/** The costing code itself: layer objects mutated in place by the strategies' loops, a repository
    that hands out fresh objects, and the service's single and batch paths. */
module CostLayerService {
  import opened Numbers
  import opened Options
  import opened Sorting
  import opened CostLayers
  import opened CostLayerStore
  import opened CostComparison
  import opened BatchCosting

  class InventoryCostLayer {
    const id: string
    const variantId: string
    const initialQuantity: int
    const unitCostCents: int
    const receivedAt: real
    const lot: Option<Lot>
    var consumedQuantity: int

    constructor (l: Layer)
      ensures State() == l && variantId == l.variantId && receivedAt == l.receivedAt && lot == l.lot
    {
      id, variantId, initialQuantity, unitCostCents := l.id, l.variantId, l.initial, l.unitCost;
      receivedAt, lot, consumedQuantity := l.receivedAt, l.lot, l.consumed;
    }

    function State(): Layer
      reads this
    {
      Layer(id, variantId, initialQuantity, consumedQuantity, unitCostCents, receivedAt, lot)
    }

    function RemainingQuantity(): int
      reads this
    {
      initialQuantity - consumedQuantity
    }

    method Consume(quantity: int) returns (taken: int)
      modifies this
      ensures taken == Min(quantity, old(RemainingQuantity()))
      ensures State() == old(State()).(consumed := old(consumedQuantity) + taken)
    {
      taken := Min(quantity, RemainingQuantity());
      consumedQuantity := consumedQuantity + taken;
    }
  }

  type Objects = seq<InventoryCostLayer>

  function View(objects: Objects): (s: seq<Layer>)
    reads objects
    ensures |s| == |objects| && forall i :: 0 <= i < |objects| ==> s[i] == objects[i].State()
  {
    seq(|objects|, i requires 0 <= i < |objects| reads objects => objects[i].State())
  }

  ghost predicate Distinct(objects: Objects) {
    forall i, j :: 0 <= i < j < |objects| ==> objects[i] != objects[j]
  }

  // ---------- sorting objects: the keys are constant fields ----------

  function ObjectKey(method_: CostingMethod): InventoryCostLayer -> SortKey {
    match method_
    case LIFO => (o: InventoryCostLayer) => Finite(-o.receivedAt)
    case FEFO => (o: InventoryCostLayer) => if o.lot.Some? then Finite(o.lot.value.expiration) else Infinity
    case _ => (o: InventoryCostLayer) => Finite(o.receivedAt)
  }

  function LayerKey(method_: CostingMethod): Layer -> SortKey {
    match method_
    case LIFO => ByReceiptDown
    case FEFO => ByExpiry
    case _ => ByReceipt
  }

  lemma StrategySortByKey(layers: seq<Layer>, method_: CostingMethod)
    ensures StrategySort(layers, method_) == StableSort(layers, LayerKey(method_))
  {}

  lemma KeyAt(objects: Objects, method_: CostingMethod, i: nat)
    requires i < |objects|
    ensures ObjectKey(method_)(objects[i]) == LayerKey(method_)(View(objects)[i])
  {}

  lemma OrderedObjects(objects: Objects, method_: CostingMethod)
    requires StrategySort(View(objects), method_) == View(objects)
    ensures Ascending(objects, ObjectKey(method_))
  {
    StrategySortByKey(View(objects), method_);
    SortFacts(View(objects), LayerKey(method_));
    forall i, j | 0 <= i < j < |objects| ensures AtMost(ObjectKey(method_)(objects[i]), ObjectKey(method_)(objects[j])) {
      KeyAt(objects, method_, i);
      KeyAt(objects, method_, j);
      assert AtMost(LayerKey(method_)(View(objects)[i]), LayerKey(method_)(View(objects)[j]));
    }
  }

  // ---------- the strategies ----------

  /** How far a loop over `layers` has come when the first k have been handled. */
  lemma {:induction false} DrawSplit(layers: seq<Layer>, quantity: int, k: nat)
    requires k < |layers| && quantity > 0
    ensures var take := Min(quantity, layers[k].Remaining());
            DrawDown(layers[k..], quantity).cost == take * layers[k].unitCost + DrawDown(layers[k + 1..], quantity - take).cost &&
            DrawDown(layers[k..], quantity).missing == DrawDown(layers[k + 1..], quantity - take).missing &&
            DrawDown(layers[k..], quantity).layers ==
              [layers[k].(consumed := layers[k].consumed + take)] + DrawDown(layers[k + 1..], quantity - take).layers
  {
    assert layers[k..][1..] == layers[k + 1..];
  }

  /** The draw as the loop performs it: in place from index k, on top of the cost so far. */
  ghost function DrawFrom(layers: seq<Layer>, k: nat, quantity: int, cost: int): Drawn
    decreases |layers| - k
  {
    if k >= |layers| || quantity <= 0 then Drawn(layers, cost, quantity)
    else
      var take := Min(quantity, layers[k].Remaining());
      DrawFrom(Consumed(layers, k, take), k + 1, quantity - take, cost + take * layers[k].unitCost)
  }

  function Consumed(layers: seq<Layer>, k: nat, take: int): seq<Layer>
    requires k < |layers|
  {
    layers[k := layers[k].(consumed := layers[k].consumed + take)]
  }

  lemma ConsumedParts(layers: seq<Layer>, k: nat, take: int, rest: seq<Layer>)
    requires k < |layers|
    ensures Consumed(layers, k, take)[k + 1..] == layers[k + 1..]
    ensures Consumed(layers, k, take)[..k + 1] + rest == layers[..k] + ([layers[k].(consumed := layers[k].consumed + take)] + rest)
  {}

  lemma {:induction false} DrawFromIsDraw(layers: seq<Layer>, k: nat, quantity: int, cost: int)
    requires k <= |layers|
    ensures var d := DrawDown(layers[k..], quantity);
            DrawFrom(layers, k, quantity, cost) == Drawn(layers[..k] + d.layers, cost + d.cost, d.missing)
    decreases |layers| - k
  {
    if k == |layers| || quantity <= 0 {
      assert layers == layers[..k] + layers[k..];
    } else {
      var take := Min(quantity, layers[k].Remaining());
      DrawFromIsDraw(Consumed(layers, k, take), k + 1, quantity - take, cost + take * layers[k].unitCost);
      DrawSplit(layers, quantity, k);
      ConsumedParts(layers, k, take, DrawDown(layers[k + 1..], quantity - take).layers);
    }
  }

  lemma DrawFromStart(layers: seq<Layer>, quantity: int)
    ensures DrawFrom(layers, 0, quantity, 0) == DrawDown(layers, quantity)
  {
    DrawFromIsDraw(layers, 0, quantity, 0);
    assert layers[0..] == layers && layers[..0] == [];
  }

  lemma DrawFromEnd(layers: seq<Layer>, k: nat, quantity: int, cost: int)
    requires k == |layers| || quantity <= 0
    ensures DrawFrom(layers, k, quantity, cost) == Drawn(layers, cost, quantity)
  {}

  method ConsumeAt(layers: Objects, k: nat, quantity: int) returns (taken: int)
    requires k < |layers| && Distinct(layers)
    modifies layers[k]
    ensures taken == Min(quantity, old(View(layers))[k].Remaining())
    ensures View(layers) == Consumed(old(View(layers)), k, taken)
  {
    taken := layers[k].Consume(quantity);
  }

  /** The loop body: consume from one layer, on top of the cost so far. */
  method DrawStep(sorted: Objects, k: nat, remaining: int, totalCost: int) returns (left: int, cost: int)
    requires k < |sorted| && Distinct(sorted) && remaining > 0
    modifies sorted
    ensures |View(sorted)| == old(|View(sorted)|)
    ensures DrawFrom(View(sorted), k + 1, left, cost) == DrawFrom(old(View(sorted)), k, remaining, totalCost)
  {
    var consumed := ConsumeAt(sorted, k, remaining);
    cost := totalCost + consumed * sorted[k].unitCostCents;
    left := remaining - consumed;
  }

  /** The loop of `consumeLayers`: layer by layer, until nothing is missing. */
  method DrawInPlace(sorted: Objects, quantity: int) returns (outcome: Outcome)
    requires Distinct(sorted)
    modifies sorted
    ensures var d := DrawDown(old(View(sorted)), quantity);
            View(sorted) == d.layers && outcome == if d.missing > 0 then Failed else Charged(d.cost)
  {
    var remaining, totalCost := quantity, 0;
    ghost var whole := DrawDown(View(sorted), quantity);
    DrawFromStart(View(sorted), quantity);
    var k := 0;
    while k < |sorted| && remaining > 0
      invariant 0 <= k <= |sorted|
      invariant whole == DrawFrom(View(sorted), k, remaining, totalCost)
    {
      remaining, totalCost := DrawStep(sorted, k, remaining, totalCost);
      k := k + 1;
    }
    DrawFromEnd(View(sorted), k, remaining, totalCost);
    outcome := if remaining > 0 then Failed else Charged(totalCost);
  }

  lemma ViewCons(o: InventoryCostLayer, objects: Objects)
    ensures View([o] + objects) == [o.State()] + View(objects)
  {}

  lemma ViewTail(objects: Objects)
    requires objects != []
    ensures View(objects)[0] == objects[0].State() && View(objects)[1..] == View(objects[1..])
  {}

  lemma {:induction false} InsertView(o: InventoryCostLayer, objects: Objects, m: CostingMethod)
    ensures View(Insert(o, objects, ObjectKey(m))) == Insert(o.State(), View(objects), LayerKey(m))
  {
    KeyAt([o], m, 0);
    ViewCons(o, objects);
    if objects != [] {
      KeyAt(objects, m, 0);
      ViewTail(objects);
      InsertView(o, objects[1..], m);
      ViewCons(objects[0], Insert(o, objects[1..], ObjectKey(m)));
    }
  }

  /** Sorting the objects sorts what they stand for. */
  lemma {:induction false} SortedView(objects: Objects, m: CostingMethod)
    ensures View(StableSort(objects, ObjectKey(m))) == StrategySort(View(objects), m)
  {
    StrategySortByKey(View(objects), m);
    if objects != [] {
      ViewTail(objects);
      SortedView(objects[1..], m);
      StrategySortByKey(View(objects[1..]), m);
      InsertView(objects[0], StableSort(objects[1..], ObjectKey(m)), m);
    }
  }

  lemma SortedObjects(objects: Objects, m: CostingMethod)
    requires Distinct(objects)
    ensures var sorted := StableSort(objects, ObjectKey(m));
            Distinct(sorted) && multiset(sorted) == multiset(objects) && forall i :: 0 <= i < |sorted| ==> sorted[i] in objects
  {
    var sorted := StableSort(objects, ObjectKey(m));
    SortFacts(objects, ObjectKey(m));
    SortDiffer(objects, ObjectKey(m), (o: InventoryCostLayer) => o);
    forall i | 0 <= i < |sorted| ensures sorted[i] in objects { var j := SortedFrom(objects, ObjectKey(m), i); }
  }

  /** `consumeLayers` of a strategy, on any list: sort a copy of it, then draw in place. */
  method ConsumeInPlace(layers: Objects, quantity: int, method_: CostingMethod)
    returns (outcome: Outcome, sorted: Objects)
    requires Distinct(layers)
    modifies layers
    ensures sorted == StableSort(layers, ObjectKey(method_)) && multiset(sorted) == multiset(layers)
    ensures var d := DrawDown(StrategySort(old(View(layers)), method_), quantity);
            View(sorted) == d.layers && outcome == if d.missing > 0 then Failed else Charged(d.cost)
    ensures Ascending(layers, ObjectKey(method_)) ==> sorted == layers && StrategySort(old(View(layers)), method_) == old(View(layers))
  {
    sorted := StableSort(layers, ObjectKey(method_));
    SortedObjects(layers, method_);
    SortedView(layers, method_);
    if Ascending(layers, ObjectKey(method_)) { SortOfAscending(layers, ObjectKey(method_)); }
    outcome := DrawInPlace(sorted, quantity);
  }

  /** The same on a list that the repository already returned in the method's order. */
  method ConsumeFetched(layers: Objects, quantity: int, method_: CostingMethod) returns (outcome: Outcome, sorted: Objects)
    requires Distinct(layers) && Ascending(layers, ObjectKey(method_))
    modifies layers
    ensures sorted == layers
    ensures var d := DrawDown(old(View(layers)), quantity);
            View(layers) == d.layers && outcome == if d.missing > 0 then Failed else Charged(d.cost)
  {
    outcome, sorted := ConsumeInPlace(layers, quantity, method_);
  }

  /** `calculateCost` of the layer strategies (and, unsorted, of the batch estimate): the same walk, read only. */
  method WalkCost(layers: Objects, quantity: int) returns (outcome: Outcome)
    ensures outcome == Estimate(View(layers), quantity)
  {
    var remaining, totalCost := quantity, 0;
    ghost var all := View(layers);
    var k := 0;
    while k < |layers| && remaining > 0
      invariant 0 <= k <= |layers|
      invariant DrawDown(all, quantity).cost == totalCost + DrawDown(all[k..], remaining).cost
      invariant DrawDown(all, quantity).missing == DrawDown(all[k..], remaining).missing
    {
      DrawSplit(all, remaining, k);
      var consumed := Min(remaining, layers[k].RemainingQuantity());
      totalCost := totalCost + consumed * layers[k].unitCostCents;
      remaining := remaining - consumed;
      k := k + 1;
    }
    outcome := if remaining > 0 then Failed else Charged(totalCost);
  }

  lemma {:induction false} TotalsSplit(layers: seq<Layer>, k: nat)
    requires k < |layers|
    ensures TotalUnits(layers[..k + 1]) == TotalUnits(layers[..k]) + layers[k].Remaining()
    ensures TotalValue(layers[..k + 1]) == TotalValue(layers[..k]) + layers[k].Remaining() * layers[k].unitCost
  {
    if k > 0 {
      assert layers[1..][..k] == layers[..k + 1][1..];
      assert layers[1..][..k - 1] == layers[..k][1..];
      TotalsSplit(layers[1..], k - 1);
    }
  }

  /** `calculateWeightedAverageCostSync`. */
  method WeightedAverageCostSync(layers: Objects, quantity: int) returns (outcome: Outcome)
    ensures outcome == WeightedAverage(View(layers), quantity)
  {
    var totalUnits, totalValue := 0, 0;
    for i := 0 to |layers|
      invariant totalUnits == TotalUnits(View(layers)[..i]) && totalValue == TotalValue(View(layers)[..i])
    {
      TotalsSplit(View(layers), i);
      totalUnits := totalUnits + layers[i].RemainingQuantity();
      totalValue := totalValue + layers[i].RemainingQuantity() * layers[i].unitCostCents;
    }
    assert View(layers)[..|layers|] == View(layers);
    if totalUnits == 0 { return Failed; }
    outcome := Charged(Round(quantity as real * (totalValue as real / totalUnits as real)));
  }

  // ---------- the repository ----------

  ghost predicate AllAscending(found: map<string, Objects>, m: CostingMethod) {
    forall v :: v in found ==> Ascending(found[v], ObjectKey(m))
  }

  lemma AddList(found: map<string, Objects>, repr: set<InventoryCostLayer>, v: string, objects: Objects, m: CostingMethod)
    requires Separate(found) && AllAscending(found, m) && Within(found, repr)
    requires Distinct(objects) && Ascending(objects, ObjectKey(m)) && forall o :: o in objects ==> o.variantId == v
    ensures Separate(found[v := objects]) && AllAscending(found[v := objects], m)
    ensures Within(found[v := objects], repr + set o | o in objects)
  {}

  class CostLayerRepository {
    var rows: seq<Layer>

    constructor ()
      ensures rows == []
    {
      rows := [];
    }

    /** Fresh objects for the rows that still hold units. */
    method GetActiveLayers(variantId: string, method_: CostingMethod) returns (objects: Objects)
      ensures View(objects) == CostLayerStore.GetActiveLayers(rows, variantId, method_)
      ensures Ascending(objects, ObjectKey(method_))
      ensures Distinct(objects) && forall o :: o in objects ==> fresh(o) && o.variantId == variantId
    {
      var found := CostLayerStore.GetActiveLayers(rows, variantId, method_);
      objects := [];
      for i := 0 to |found|
        invariant View(objects) == found[..i]
        invariant Distinct(objects) && forall o :: o in objects ==> fresh(o) && o.variantId == variantId
      {
        var o := new InventoryCostLayer(found[i]);
        ActiveOwner(rows, variantId, method_, i);
        assert found[..i + 1] == found[..i] + [found[i]];
        objects := objects + [o];
      }
      assert View(objects) == found by { assert found[..|found|] == found; }
      StrategySortOfOrder(ActiveRows(rows, variantId), method_);
      OrderedObjects(objects, method_);
    }

    /** One list of fresh objects per requested variant; repeated requests share it. */
    method GetActiveLayersBatch(variantIds: seq<string>, m: CostingMethod) 
      returns (found: map<string, Objects>, ghost repr: set<InventoryCostLayer>)
      ensures fresh(repr) && Within(found, repr)
      ensures forall v :: v in found <==> v in variantIds
      ensures forall v :: v in found ==> View(found[v]) == CostLayerStore.GetActiveLayers(rows, v, m)
      ensures Separate(found) && AllAscending(found, m)
    {
      found, repr := map[], {};
      for k := 0 to |variantIds|
        invariant forall v :: v in found <==> v in variantIds[..k]
        invariant forall v :: v in found ==> View(found[v]) == CostLayerStore.GetActiveLayers(rows, v, m)
        invariant Separate(found) && AllAscending(found, m) && fresh(repr) && Within(found, repr)
      {
        assert variantIds[..k + 1] == variantIds[..k] + [variantIds[k]];
        if variantIds[k] !in found {
          var objects := GetActiveLayers(variantIds[k], m);
          AddList(found, repr, variantIds[k], objects, m);
          found := found[variantIds[k] := objects];
          repr := repr + set o | o in objects;
        }
      }
      assert variantIds[..|variantIds|] == variantIds;
    }

    method SaveBatch(batch: Objects)
      modifies this
      ensures rows == CostLayerStore.SaveBatch(old(rows), old(View(batch)))
    {
      for i := 0 to |batch|
        invariant View(batch) == old(View(batch))
        invariant rows == CostLayerStore.SaveBatch(old(rows), View(batch)[..i])
      {
        assert Front(View(batch)[..i + 1]) == View(batch)[..i];
        rows := Upsert(rows, batch[i].State());
      }
      assert View(batch)[..|batch|] == View(batch);
    }
  }

  lemma ActiveOwner(rows: seq<Layer>, variantId: string, method_: CostingMethod, i: nat)
    requires i < |GetActiveLayers(rows, variantId, method_)|
    ensures GetActiveLayers(rows, variantId, method_)[i].variantId == variantId
  {
    var j := OrderFrom(ActiveRows(rows, variantId), method_, i);
    j := FilterFrom(Filter(rows, IsVariant(variantId)), IsActive(), j);
    j := FilterFrom(rows, IsVariant(variantId), j);
  }

  // ---------- the service ----------

  class Service {
    const layers: CostLayerRepository

    constructor (repository: CostLayerRepository)
      ensures layers == repository
    {
      layers := repository;
    }

    method CalculateCost(variantId: string, quantity: int, method_: CostingMethod) returns (outcome: Outcome)
      ensures outcome == CostComparison.CalculateCost(layers.rows, variantId, quantity, method_)
    {
      if method_ == SpecificIdentification { return Failed; }
      if method_ == WeightedAverageCost {
        var all := layers.GetActiveLayers(variantId, FIFO);
        outcome := WeightedAverageCostSync(all, quantity);
        return;
      }
      var active := layers.GetActiveLayers(variantId, method_);
      StrategySortOfOrder(ActiveRows(layers.rows, variantId), method_);
      SortOfAscending(active, ObjectKey(method_));
      outcome := WalkCost(StableSort(active, ObjectKey(method_)), quantity);
    }

    method ConsumeLayers(variantId: string, quantity: int, method_: CostingMethod) returns (outcome: Outcome)
      modifies layers
      ensures (outcome, layers.rows) == CostLayerStore.ConsumeLayers(old(layers.rows), variantId, quantity, method_)
    {
      if method_ == SpecificIdentification { return Failed; }
      var effective := Strategy(method_);
      var active := layers.GetActiveLayers(variantId, effective);
      StrategySortOfOrder(ActiveRows(layers.rows, variantId), method_);
      assert View(active) == CostLayerStore.GetActiveLayers(layers.rows, variantId, method_);
      var sorted;
      outcome, sorted := ConsumeFetched(active, quantity, effective);
      if outcome.Charged? && |sorted| > 0 {
        layers.SaveBatch(sorted);
      }
    }

    /** One method group of the batch: fetch each variant once, then let the items share its objects. */
    method ConsumeGroup(group: seq<Item>, m: CostingMethod, ghost methods: Methods,
                        breakdowns: map<string, Breakdown>, totalCostCents: int)
      returns (ok: bool, breakdowns': map<string, Breakdown>, total': int, touched: Objects,
               ghost fetched: map<string, Objects>, ghost repr: set<InventoryCostLayer>)
      requires Table(layers.rows) && forall k :: 0 <= k < |group| ==> MethodOf(methods, group[k].variantId) == m
      requires forall v :: Occurs(group, v) ==> v !in breakdowns
      ensures fresh(repr) && Separate(fetched) && forall v :: v in fetched <==> Occurs(group, v)
      ensures if ok then Accounted(layers.rows, group, methods, breakdowns, totalCostCents, breakdowns', total')
              else !AllCovered(layers.rows, group, methods)
      ensures ok ==> DrawnOut(layers.rows, group, methods, fetched, repr) && Gathered(group, fetched, touched)
    {
      var activeLayersMap, objects := layers.GetActiveLayersBatch(Map(group, (i: Item) => i.variantId), m);
      fetched, repr := activeLayersMap, objects;
      RequestedVariants(group);
      forall v | v in fetched ensures TracksLine(layers.rows, [], methods, v, View(fetched[v])) {
        assert Occurs(group, v);
        FetchedTracksLine(layers.rows, v, m);
      }
      ok, breakdowns', total', touched :=
        ConsumeItems(layers.rows, group, m, methods, breakdowns, totalCostCents, activeLayersMap, repr);
    }

    /** `consumeLayersBatch`: group by method, consume group by group on shared objects, save once at the end.
        It does exactly what consuming the items one by one in input order does; a failure stores nothing. */
    method ConsumeLayersBatch(items: seq<Item>, methodsMap: Methods)
      returns (ok: bool, breakdowns: map<string, Breakdown>, totalCostCents: int)
      requires Table(layers.rows)
      modifies layers
      ensures ok <==> Sequential(old(layers.rows), items, methodsMap).Some?
      ensures !ok ==> layers.rows == old(layers.rows)
      ensures ok ==> MatchesSequential(old(layers.rows), items, methodsMap, layers.rows, breakdowns, totalCostCents)
    {
      ghost var rows := layers.rows;
      var order, groups := GroupByMethod(items, methodsMap);
      var layersToSave;
      ghost var all, repr;
      ok, breakdowns, totalCostCents, layersToSave, all, repr := ConsumeGroups(items, methodsMap, order, groups);
      if !ok {
        UncoveredFails(rows, items, methodsMap);
        return;
      }
      ghost var stored := FinishBatch(rows, items, methodsMap, order, breakdowns, totalCostCents, all, layersToSave, repr);
      layers.SaveBatch(layersToSave);
    }

    /** The outer loop: nothing is stored while it runs. */
    method ConsumeGroups(ghost items: seq<Item>, ghost methods: Methods, order: seq<CostingMethod>, groups: map<CostingMethod, seq<Item>>)
      returns (ok: bool, breakdowns: map<string, Breakdown>, totalCostCents: int, layersToSave: Objects,
               ghost all: map<string, Objects>, ghost repr: set<InventoryCostLayer>)
      requires Table(layers.rows) && Grouped(items, methods, order, groups)
      ensures if ok then Progress(layers.rows, items, methods, order, breakdowns, totalCostCents)
              else !AllCovered(layers.rows, items, methods)
      ensures ok ==> Collected(items, methods, order, all, layersToSave) && DrawnOut(layers.rows, items, methods, all, repr)
      ensures fresh(repr)
    {
      ok, breakdowns, totalCostCents, layersToSave, all, repr := true, map[], 0, [], map[], {};
      ghost var done: seq<CostingMethod> := [];
      var g := 0;
      while ok && g < |order|
        invariant g <= |order| && done == order[..g]
        invariant if ok then Progress(layers.rows, items, methods, done, breakdowns, totalCostCents)
                  else !AllCovered(layers.rows, items, methods)
        invariant ok ==> Collected(items, methods, done, all, layersToSave)
        invariant ok ==> DrawnOut(layers.rows, items, methods, all, repr)
        invariant fresh(repr)
        decreases ok, |order| - g
      {
        NextGroup(items, methods, order, groups, g);
        ok, breakdowns, totalCostCents, layersToSave, all, repr :=
          ConsumeNextGroup(items, methods, done, order[g], groups[order[g]], breakdowns, totalCostCents, layersToSave, all, repr);
        done := done + [order[g]];
        g := g + 1;
      }
      WholePrefix(order);
    }

    /** The body of the outer loop: one method group, after the groups in `done`. */
    method ConsumeNextGroup(ghost items: seq<Item>, ghost methods: Methods, ghost done: seq<CostingMethod>, m: CostingMethod,
                            group: seq<Item>, breakdowns: map<string, Breakdown>, totalCostCents: int, layersToSave: Objects,
                            ghost all: map<string, Objects>, ghost repr: set<InventoryCostLayer>)
      returns (ok: bool, breakdowns': map<string, Breakdown>, total': int, layersToSave': Objects, ghost all': map<string, Objects>,
               ghost repr': set<InventoryCostLayer>)
      requires Table(layers.rows) && group == Filter(items, OfMethod(methods, m)) && m !in done
      requires Progress(layers.rows, items, methods, done, breakdowns, totalCostCents)
      requires Collected(items, methods, done, all, layersToSave) && DrawnOut(layers.rows, items, methods, all, repr)
      ensures if ok then Progress(layers.rows, items, methods, done + [m], breakdowns', total')
              else !AllCovered(layers.rows, items, methods)
      ensures ok ==> Collected(items, methods, done + [m], all', layersToSave') && DrawnOut(layers.rows, items, methods, all', repr')
      ensures repr <= repr' && fresh(repr' - repr)
    {
      layersToSave', all', repr' := layersToSave, all, repr;
      GroupFacts(items, methods, m);
      var touched;
      ghost var fetched, mine;
      ok, breakdowns', total', touched, fetched, mine := ConsumeGroup(group, m, methods, breakdowns, totalCostCents);
      if !ok {
        RegroupedCover(layers.rows, items, methods);
        return;
      }
      ProgressStep(layers.rows, items, methods, done, m, breakdowns, totalCostCents, breakdowns', total');
      CollectedStep(items, methods, done, m, all, layersToSave, fetched, touched);
      WholeGroupDrawn(layers.rows, items, methods, m, fetched, mine);
      DrawnJoin(layers.rows, items, methods, all, repr, fetched, mine);
      layersToSave' := layersToSave + touched;
      all' := all + fetched;
      repr' := repr + mine;
    }
  }

  lemma WholeGroupDrawn(rows: seq<Layer>, items: seq<Item>, methods: Methods, m: CostingMethod, fetched: map<string, Objects>,
                        repr: set<InventoryCostLayer>)
    requires DrawnOut(rows, Filter(items, OfMethod(methods, m)), methods, fetched, repr)
    requires forall v :: v in fetched ==> MethodOf(methods, v) == m
    ensures DrawnOut(rows, items, methods, fetched, repr)
  {
    forall v | v in fetched ensures TracksLine(rows, items, methods, v, Views(fetched, repr)[v]) {
      GroupDecides(rows, items, methods, v);
    }
  }

  lemma DrawnJoin(rows: seq<Layer>, items: seq<Item>, methods: Methods, all: map<string, Objects>, repr: set<InventoryCostLayer>,
                  fetched: map<string, Objects>, mine: set<InventoryCostLayer>)
    requires DrawnOut(rows, items, methods, all, repr) && DrawnOut(rows, items, methods, fetched, mine)
    ensures DrawnOut(rows, items, methods, all + fetched, repr + mine)
  {
    forall v | v in all + fetched ensures TracksLine(rows, items, methods, v, View((all + fetched)[v])) {
      assert v !in fetched ==> TracksLine(rows, items, methods, v, Views(all, repr)[v]);
      assert v in fetched ==> TracksLine(rows, items, methods, v, Views(fetched, mine)[v]);
    }
  }

  /** Every variant's shared objects, all of them in `repr`, stand where the items draw its line to. */
  ghost predicate DrawnOut(rows: seq<Layer>, items: seq<Item>, methods: Methods, fetched: map<string, Objects>,
                           repr: set<InventoryCostLayer>)
    reads repr
  {
    Within(fetched, repr) && AllTrack(rows, items, methods, Views(fetched, repr))
  }

  /** The groups of the first k items, and the order in which their methods appeared. */
  ghost predicate Grouped(items: seq<Item>, methods: Methods, order: seq<CostingMethod>, groups: map<CostingMethod, seq<Item>>) {
    Listed(items, methods, order) && (forall m :: m in groups <==> m in order) &&
    forall m :: GroupIs(items, methods, groups, m)
  }

  /** The group kept for a method (none when it did not appear) is its items, in input order. */
  ghost predicate GroupIs(items: seq<Item>, methods: Methods, groups: map<CostingMethod, seq<Item>>, m: CostingMethod) {
    Filter(items, OfMethod(methods, m)) == if m in groups then groups[m] else []
  }

  function Regroup(groups: map<CostingMethod, seq<Item>>, m: CostingMethod, item: Item): map<CostingMethod, seq<Item>> {
    groups[m := (if m in groups then groups[m] else []) + [item]]
  }

  lemma GroupGrows(items: seq<Item>, methods: Methods, item: Item, n: CostingMethod)
    ensures Filter(items + [item], OfMethod(methods, n)) ==
              Filter(items, OfMethod(methods, n)) + if n == MethodOf(methods, item.variantId) then [item] else []
  {
    FrontAndLast(items, item);
    FilterLast(items + [item], OfMethod(methods, n));
  }

  lemma ListedStep(items: seq<Item>, methods: Methods, order: seq<CostingMethod>, item: Item)
    requires Listed(items, methods, order)
    ensures var m := MethodOf(methods, item.variantId);
            Listed(items + [item], methods, if m in order then order else order + [m])
  {
    var m := MethodOf(methods, item.variantId);
    var order' := if m in order then order else order + [m];
    forall k | 0 <= k < |items + [item]| ensures MethodOf(methods, (items + [item])[k].variantId) in order' {
      if k < |items| { assert MethodOf(methods, items[k].variantId) in order; }
    }
  }

  lemma GroupAfter(items: seq<Item>, methods: Methods, groups: map<CostingMethod, seq<Item>>, item: Item, n: CostingMethod)
    requires GroupIs(items, methods, groups, n)
    ensures GroupIs(items + [item], methods, Regroup(groups, MethodOf(methods, item.variantId), item), n)
  {
    var group := Filter(items, OfMethod(methods, n));
    GroupGrows(items, methods, item, n);
    assert group + [] == group;
  }

  lemma GroupedStep(items: seq<Item>, methods: Methods, order: seq<CostingMethod>, groups: map<CostingMethod, seq<Item>>, item: Item)
    requires Grouped(items, methods, order, groups)
    ensures var m := MethodOf(methods, item.variantId);
            Grouped(items + [item], methods, if m in groups then order else order + [m], Regroup(groups, m, item))
  {
    ListedStep(items, methods, order, item);
    forall n ensures GroupIs(items + [item], methods, Regroup(groups, MethodOf(methods, item.variantId), item), n) {
      assert GroupIs(items, methods, groups, n);
      GroupAfter(items, methods, groups, item, n);
    }
  }

  /** `methodGroups`: the methods in order of first appearance, and each one's items in input order. */
  method GroupByMethod(items: seq<Item>, methodsMap: Methods)
    returns (order: seq<CostingMethod>, groups: map<CostingMethod, seq<Item>>)
    ensures Grouped(items, methodsMap, order, groups)
  {
    order, groups := [], map[];
    for k := 0 to |items|
      invariant Grouped(items[..k], methodsMap, order, groups)
    {
      GroupedStep(items[..k], methodsMap, order, groups, items[k]);
      PrefixGrows(items, k);
      var m := MethodOf(methodsMap, items[k].variantId);
      order := if m in groups then order else order + [m];
      groups := Regroup(groups, m, items[k]);
    }
    WholePrefix(items);
  }

  // ---------- bookkeeping of the outer loop ----------

  ghost predicate InGroups(items: seq<Item>, methods: Methods, done: seq<CostingMethod>, v: string) {
    Occurs(items, v) && MethodOf(methods, v) in done
  }

  /** Breakdowns, total and cover of the groups done so far. */
  ghost predicate Progress(rows: seq<Layer>, items: seq<Item>, methods: Methods, done: seq<CostingMethod>,
                           breakdowns: map<string, Breakdown>, total: int)
  {
    (forall m :: m in done ==> AllCovered(rows, Filter(items, OfMethod(methods, m)), methods)) &&
    total == GroupsCost(rows, items, methods, done) &&
    (forall v :: v in breakdowns <==> InGroups(items, methods, done, v)) &&
    (forall v :: v in breakdowns ==> breakdowns[v] == VariantBreakdown(rows, items, methods, v))
  }

  ghost predicate Collected(items: seq<Item>, methods: Methods, done: seq<CostingMethod>, all: map<string, Objects>, toSave: Objects) {
    Separate(all) &&
    (forall v :: v in all <==> InGroups(items, methods, done, v)) &&
    (forall v, i :: v in all && 0 <= i < |all[v]| ==> all[v][i] in toSave) &&
    (forall k :: 0 <= k < |toSave| ==> toSave[k].variantId in all && toSave[k] in all[toSave[k].variantId])
  }

  lemma GroupMethod(items: seq<Item>, methods: Methods, m: CostingMethod, v: string)
    ensures Occurs(Filter(items, OfMethod(methods, m)), v) <==> Occurs(items, v) && MethodOf(methods, v) == m
  {
    if Occurs(Filter(items, OfMethod(methods, m)), v) {
      var k :| 0 <= k < |Filter(items, OfMethod(methods, m))| && Filter(items, OfMethod(methods, m))[k].variantId == v;
      var j := FilterFrom(items, OfMethod(methods, m), k);
    }
    if MethodOf(methods, v) == m { GroupOccurs(items, methods, v); }
  }

  lemma NextGroup(items: seq<Item>, methods: Methods, order: seq<CostingMethod>, groups: map<CostingMethod, seq<Item>>, g: nat)
    requires g < |order| && Grouped(items, methods, order, groups)
    ensures order[g] !in order[..g] && order[..g] + [order[g]] == order[..g + 1]
    ensures order[g] in groups && groups[order[g]] == Filter(items, OfMethod(methods, order[g]))
  {
    assert GroupIs(items, methods, groups, order[g]);
  }

  lemma GroupFacts(items: seq<Item>, methods: Methods, m: CostingMethod)
    ensures var group := Filter(items, OfMethod(methods, m));
            (forall v :: Occurs(group, v) <==> Occurs(items, v) && MethodOf(methods, v) == m) &&
            (forall k :: 0 <= k < |group| ==> MethodOf(methods, group[k].variantId) == m)
  {
    var group := Filter(items, OfMethod(methods, m));
    forall v ensures Occurs(group, v) <==> Occurs(items, v) && MethodOf(methods, v) == m {
      GroupMethod(items, methods, m, v);
    }
    forall k | 0 <= k < |group| ensures MethodOf(methods, group[k].variantId) == m {
      var j := FilterFrom(items, OfMethod(methods, m), k);
    }
  }

  lemma BreakdownAfter(rows: seq<Layer>, items: seq<Item>, methods: Methods, done: seq<CostingMethod>, m: CostingMethod,
                       before: map<string, Breakdown>, after: map<string, Breakdown>, v: string)
    requires v in before <==> InGroups(items, methods, done, v)
    requires v in before ==> before[v] == VariantBreakdown(rows, items, methods, v)
    requires Tallied(rows, Filter(items, OfMethod(methods, m)), methods, before, after)
    ensures v in after <==> InGroups(items, methods, done + [m], v)
    ensures v in after ==> after[v] == VariantBreakdown(rows, items, methods, v)
  {
    GroupMethod(items, methods, m, v);
    if Occurs(items, v) && MethodOf(methods, v) == m { GroupBreakdown(rows, items, methods, v); }
  }

  lemma ProgressStep(rows: seq<Layer>, items: seq<Item>, methods: Methods, done: seq<CostingMethod>, m: CostingMethod,
                     before: map<string, Breakdown>, base: int, after: map<string, Breakdown>, total: int)
    requires m !in done && Progress(rows, items, methods, done, before, base)
    requires Accounted(rows, Filter(items, OfMethod(methods, m)), methods, before, base, after, total)
    ensures Progress(rows, items, methods, done + [m], after, total)
  {
    assert Front(done + [m]) == done && Last(done + [m]) == m;
    forall v ensures (v in after <==> InGroups(items, methods, done + [m], v))
                     && (v in after ==> after[v] == VariantBreakdown(rows, items, methods, v)) {
      BreakdownAfter(rows, items, methods, done, m, before, after, v);
    }
  }

  lemma CollectedStep(items: seq<Item>, methods: Methods, done: seq<CostingMethod>, m: CostingMethod, all: map<string, Objects>,
                      toSave: Objects, fetched: map<string, Objects>, touched: Objects)
    requires m !in done && Collected(items, methods, done, all, toSave) && Separate(fetched)
    requires Gathered(Filter(items, OfMethod(methods, m)), fetched, touched)
    requires forall v :: v in fetched <==> Occurs(Filter(items, OfMethod(methods, m)), v)
    ensures Collected(items, methods, done + [m], all + fetched, toSave + touched)
  {
    forall v ensures v in fetched <==> Occurs(items, v) && MethodOf(methods, v) == m { GroupMethod(items, methods, m, v); }
  }

  lemma UncoveredFails(rows: seq<Layer>, items: seq<Item>, methods: Methods)
    requires Table(rows) && !AllCovered(rows, items, methods)
    ensures Sequential(rows, items, methods).None?
  {
    SequentialMeaning(rows, items, methods);
  }

  /** The stored rows, the per-variant breakdowns and the total of the one-by-one run. */
  ghost predicate MatchesSequential(rows: seq<Layer>, items: seq<Item>, methods: Methods, stored: seq<Layer>,
                                    breakdowns: map<string, Breakdown>, total: int)
  {
    var run := Sequential(rows, items, methods);
    run.Some? && stored == run.value.0 && |run.value.1| == |items| && total == Sum(run.value.1) &&
    (forall v :: v in breakdowns <==> Occurs(items, v)) &&
    (forall v :: v in breakdowns ==> breakdowns[v] == BreakdownOf(items, run.value.1, v))
  }

  lemma FinishBatch(rows: seq<Layer>, items: seq<Item>, methods: Methods, order: seq<CostingMethod>,
                    breakdowns: map<string, Breakdown>, total: int, all: map<string, Objects>, toSave: Objects,
                    repr: set<InventoryCostLayer>)
    returns (stored: seq<Layer>)
    requires Table(rows) && Listed(items, methods, order) && Progress(rows, items, methods, order, breakdowns, total)
    requires Collected(items, methods, order, all, toSave)
    requires DrawnOut(rows, items, methods, all, repr)
    ensures stored == CostLayerStore.SaveBatch(rows, View(toSave))
    ensures Sequential(rows, items, methods).Some? && MatchesSequential(rows, items, methods, stored, breakdowns, total)
  {
    forall v ensures InGroups(items, methods, order, v) <==> Occurs(items, v) {}
    forall m ensures AllCovered(rows, Filter(items, OfMethod(methods, m)), methods) {
      var group := Filter(items, OfMethod(methods, m));
      if group != [] {
        var j := FilterFrom(items, OfMethod(methods, m), 0);
      }
    }
    RegroupedCover(rows, items, methods);
    SequentialMeaning(rows, items, methods);
    RegroupedTotal(rows, items, methods, order);
    forall v | v in breakdowns ensures breakdowns[v] == BreakdownOf(items, Sequential(rows, items, methods).value.1, v) {
      SequentialBreakdown(rows, items, methods, v);
    }
    SaveCollected(rows, items, methods, order, all, toSave, repr);
    stored := CostLayerStore.SaveBatch(rows, View(toSave));
  }

  lemma SaveCollected(rows: seq<Layer>, items: seq<Item>, methods: Methods, order: seq<CostingMethod>,
                      all: map<string, Objects>, toSave: Objects, repr: set<InventoryCostLayer>)
    requires Table(rows) && Listed(items, methods, order) && AllCovered(rows, items, methods)
    requires Collected(items, methods, order, all, toSave)
    requires DrawnOut(rows, items, methods, all, repr)
    ensures Sequential(rows, items, methods).Some?
    ensures CostLayerStore.SaveBatch(rows, View(toSave)) == Sequential(rows, items, methods).value.0
  {
    var drawn := map v | v in all :: View(all[v]);
    var saved := View(toSave);
    forall v ensures InGroups(items, methods, order, v) <==> Occurs(items, v) {}
    forall v, k | v in drawn && 0 <= k < |drawn[v]| ensures drawn[v][k] in saved {
      assert all[v][k] in toSave;
      var i :| 0 <= i < |toSave| && toSave[i] == all[v][k];
      assert saved[i] == drawn[v][k];
    }
    forall k | 0 <= k < |saved| ensures saved[k].variantId in drawn && saved[k] in drawn[saved[k].variantId] {
      var v := toSave[k].variantId;
      var i :| 0 <= i < |all[v]| && all[v][i] == toSave[k];
      assert drawn[v][i] == saved[k];
    }
    BatchSavesSequential(rows, items, methods, drawn, saved);
  }

  /** Everything the batch adds up over the items. */
  ghost predicate Accounted(rows: seq<Layer>, items: seq<Item>, methods: Methods, start: map<string, Breakdown>, base: int,
                            now: map<string, Breakdown>, total: int)
  {
    AllCovered(rows, items, methods) && total == base + TotalCost(rows, items, methods) && Tallied(rows, items, methods, start, now)
  }

  lemma AccountedStep(rows: seq<Layer>, items: seq<Item>, methods: Methods, start: map<string, Breakdown>, base: int,
                      now: map<string, Breakdown>, total: int)
    requires items != [] && Accounted(rows, Front(items), methods, start, base, now, total) && Last(items).variantId !in start
    requires MethodOf(methods, Last(items).variantId) != SpecificIdentification && LastDraw(rows, items, methods).missing <= 0
    ensures var cost := LastDraw(rows, items, methods).cost;
            Accounted(rows, items, methods, start, base, Tally(now, Last(items).variantId, Last(items).quantity, cost), total + cost)
  {
    TalliedStep(rows, items, methods, start, now);
  }

  /** The inner loop of the batch. */
  method ConsumeItems(ghost rows: seq<Layer>, group: seq<Item>, m: CostingMethod, ghost methods: Methods,
                      breakdowns: map<string, Breakdown>, totalCostCents: int, fetched: map<string, Objects>,
                      ghost repr: set<InventoryCostLayer>)
    returns (ok: bool, breakdowns': map<string, Breakdown>, total': int, touched: Objects)
    requires forall k :: 0 <= k < |group| ==> MethodOf(methods, group[k].variantId) == m
    requires forall k :: 0 <= k < |group| ==> group[k].variantId in fetched && group[k].variantId !in breakdowns
    requires Separate(fetched) && AllAscending(fetched, m)
    requires DrawnOut(rows, [], methods, fetched, repr)
    modifies repr
    ensures if ok then Accounted(rows, group, methods, breakdowns, totalCostCents, breakdowns', total')
            else !AllCovered(rows, group, methods)
    ensures ok ==> DrawnOut(rows, group, methods, fetched, repr) && Gathered(group, fetched, touched)
  {
    breakdowns', total', touched, ok := breakdowns, totalCostCents, [], true;
    ghost var done := [];
    var p := 0;
    while ok && p < |group|
      invariant p <= |group| && done == group[..p]
      invariant if ok then Accounted(rows, done, methods, breakdowns, totalCostCents, breakdowns', total')
                else !AllCovered(rows, group, methods)
      invariant ok ==> DrawnOut(rows, done, methods, fetched, repr)
      invariant ok ==> Gathered(done, fetched, touched)
      decreases ok, |group| - p
    {
      var item := group[p];
      ok, breakdowns', total', touched :=
        ConsumeItem(rows, done, methods, item, m, fetched, breakdowns, totalCostCents, breakdowns', total', touched, repr);
      PrefixGrows(group, p);
      done := done + [item];
      if !ok { CoveredPrefix(rows, group, methods, p + 1); }
      p := p + 1;
    }
    WholePrefix(group);
  }

  lemma WholePrefix<T>(group: seq<T>)
    ensures group[..|group|] == group
  {}

  lemma PrefixGrows(group: seq<Item>, p: nat)
    requires p < |group|
    ensures group[..p] + [group[p]] == group[..p + 1]
  {}

  lemma FrontAndLast(done: seq<Item>, item: Item)
    ensures Front(done + [item]) == done && Last(done + [item]) == item
  {}

  /** The body of the inner loop, after the items in `done`. */
  method ConsumeItem(ghost rows: seq<Layer>, ghost done: seq<Item>, ghost methods: Methods, item: Item, m: CostingMethod,
                     fetched: map<string, Objects>, ghost start: map<string, Breakdown>, ghost base: int,
                     breakdowns: map<string, Breakdown>, totalCostCents: int, touched: Objects,
                     ghost repr: set<InventoryCostLayer>)
    returns (ok: bool, breakdowns': map<string, Breakdown>, total': int, touched': Objects)
    requires item.variantId in fetched && m == MethodOf(methods, item.variantId)
    requires Separate(fetched) && Ascending(fetched[item.variantId], ObjectKey(m))
    requires DrawnOut(rows, done, methods, fetched, repr)
    requires Accounted(rows, done, methods, start, base, breakdowns, totalCostCents) && item.variantId !in start
    requires Gathered(done, fetched, touched)
    modifies repr
    ensures !ok ==> !AllCovered(rows, done + [item], methods)
    ensures ok ==> DrawnOut(rows, done + [item], methods, fetched, repr)
    ensures ok ==> Accounted(rows, done + [item], methods, start, base, breakdowns', total') && Gathered(done + [item], fetched, touched')
  {
    ok, breakdowns', total', touched' := false, breakdowns, totalCostCents, touched;
    ghost var items := done + [item];
    FrontAndLast(done, item);
    if m == SpecificIdentification { return; }
    var outcome := ConsumeShared(rows, items, methods, item, m, fetched, repr);
    if outcome.Failed? { return; }
    AccountedStep(rows, items, methods, start, base, breakdowns, totalCostCents);
    GatheredStep(items, fetched, touched);
    ok := true;
    breakdowns' := Tally(breakdowns, item.variantId, item.quantity, outcome.cost);
    total' := totalCostCents + outcome.cost;
    touched' := touched + fetched[item.variantId];
  }

  ghost predicate TracksLine(rows: seq<Layer>, items: seq<Item>, methods: Methods, v: string, drawn: seq<Layer>) {
    Tracks(drawn, LineAfter(rows, items, methods, v), Line(rows, v, MethodOf(methods, v)))
  }

  ghost predicate AllTrack(rows: seq<Layer>, items: seq<Item>, methods: Methods, lists: map<string, seq<Layer>>) {
    forall v :: v in lists ==> TracksLine(rows, items, methods, v, lists[v])
  }

  lemma LineTracks(rows: seq<Layer>, items: seq<Item>, methods: Methods, v: string, before: seq<Layer>, after: seq<Layer>)
    requires items != [] && TracksLine(rows, Front(items), methods, v, before)
    requires after == if v == Last(items).variantId then DrawDown(before, Last(items).quantity).layers else before
    ensures TracksLine(rows, items, methods, v, after)
    ensures v == Last(items).variantId ==>
              var d := DrawDown(before, Last(items).quantity);
              d.cost == LastDraw(rows, items, methods).cost && d.missing == LastDraw(rows, items, methods).missing
  {
    if v == Last(items).variantId {
      DrawTracks(before, LineAfter(rows, Front(items), methods, v), Line(rows, v, MethodOf(methods, v)), Last(items).quantity);
    }
  }

  /** The next item moves its variant's list on, and no other. */
  lemma ListsTrack(rows: seq<Layer>, items: seq<Item>, methods: Methods, before: map<string, seq<Layer>>, after: map<string, seq<Layer>>)
    requires items != [] && AllTrack(rows, Front(items), methods, before) && after.Keys == before.Keys
    requires forall v :: v in after ==>
      after[v] == if v == Last(items).variantId then DrawDown(before[v], Last(items).quantity).layers else before[v]
    ensures AllTrack(rows, items, methods, after)
  {
    forall v | v in after ensures TracksLine(rows, items, methods, v, after[v]) {
      LineTracks(rows, items, methods, v, before[v], after[v]);
    }
  }

  ghost predicate Within(fetched: map<string, Objects>, repr: set<InventoryCostLayer>) {
    forall v, o :: v in fetched && o in fetched[v] ==> o in repr
  }

  ghost function Views(fetched: map<string, Objects>, repr: set<InventoryCostLayer>): map<string, seq<Layer>>
    requires Within(fetched, repr)
    reads repr
  {
    map v | v in fetched :: View(fetched[v])
  }

  /** Two variants share no object. */
  lemma Apart(fetched: map<string, Objects>, v: string, w: string)
    requires Separate(fetched) && v in fetched && w in fetched && v != w
    ensures forall i :: 0 <= i < |fetched[v]| ==> fetched[v][i] !in fetched[w]
  {
    forall i | 0 <= i < |fetched[v]| ensures fetched[v][i] !in fetched[w] { assert fetched[v][i].variantId == v; }
  }

  /** One item of a batch draws from its variant's shared objects; every other list stays as it was. */
  method ConsumeShared(ghost rows: seq<Layer>, ghost items: seq<Item>, ghost methods: Methods, item: Item, m: CostingMethod,
                       fetched: map<string, Objects>, ghost repr: set<InventoryCostLayer>)
    returns (outcome: Outcome)
    requires items != [] && Last(items) == item && item.variantId in fetched && m == MethodOf(methods, item.variantId)
    requires Separate(fetched) && Ascending(fetched[item.variantId], ObjectKey(m))
    requires Within(fetched, repr) && AllTrack(rows, Front(items), methods, Views(fetched, repr))
    modifies fetched[item.variantId]
    ensures outcome == if LastDraw(rows, items, methods).missing > 0 then Failed else Charged(LastDraw(rows, items, methods).cost)
    ensures AllTrack(rows, items, methods, Views(fetched, repr))
  {
    var activeLayers := fetched[item.variantId];
    ghost var before := Views(fetched, repr);
    LineTracks(rows, items, methods, item.variantId, before[item.variantId], DrawDown(before[item.variantId], item.quantity).layers);
    var sorted;
    outcome, sorted := ConsumeFetched(activeLayers, item.quantity, Strategy(m));
    forall v | v in fetched && v != item.variantId ensures View(fetched[v]) == before[v] { Apart(fetched, v, item.variantId); }
    ListsTrack(rows, items, methods, before, Views(fetched, repr));
  }

  lemma RequestedVariants(group: seq<Item>)
    ensures forall v :: Occurs(group, v) <==> v in Map(group, (i: Item) => i.variantId)
  {
    var ids := Map(group, (i: Item) => i.variantId);
    forall v ensures Occurs(group, v) <==> v in ids {
      if Occurs(group, v) {
        var k :| 0 <= k < |group| && group[k].variantId == v;
        assert ids[k] == v;
      }
      if v in ids {
        var k :| 0 <= k < |ids| && ids[k] == v;
        assert group[k].variantId == v;
      }
    }
  }

  /** `touched` lists the objects of the variants that occur in the items, and no others. */
  ghost predicate Gathered(items: seq<Item>, fetched: map<string, Objects>, touched: Objects) {
    (forall v, i :: v in fetched && Occurs(items, v) && 0 <= i < |fetched[v]| ==> fetched[v][i] in touched) &&
    (forall k :: 0 <= k < |touched| ==> touched[k].variantId in fetched && touched[k] in fetched[touched[k].variantId])
  }

  lemma GatheredStep(items: seq<Item>, fetched: map<string, Objects>, touched: Objects)
    requires items != [] && Separate(fetched) && Last(items).variantId in fetched && Gathered(Front(items), fetched, touched)
    ensures Gathered(items, fetched, touched + fetched[Last(items).variantId])
  {
    forall w ensures Occurs(items, w) <==> Occurs(Front(items), w) || Last(items).variantId == w { OccursLast(items, w); }
  }

  /** No object belongs to two lists or twice to one. */
  ghost predicate Separate(fetched: map<string, Objects>) {
    (forall v :: v in fetched ==> Distinct(fetched[v])) &&
    (forall v, i :: v in fetched && 0 <= i < |fetched[v]| ==> fetched[v][i].variantId == v)
  }

  /** Add to a variant's breakdown, or start one. */
  function Tally(breakdowns: map<string, Breakdown>, v: string, quantity: int, cost: int): map<string, Breakdown> {
    if v in breakdowns
    then breakdowns[v := Breakdown(breakdowns[v].quantity + quantity, breakdowns[v].totalCostCents + cost)]
    else breakdowns[v := Breakdown(quantity, cost)]
  }

  /** `now` adds to `start` the breakdown of every variant that occurs in the items. */
  ghost predicate Tallied(rows: seq<Layer>, items: seq<Item>, methods: Methods, start: map<string, Breakdown>, now: map<string, Breakdown>) {
    (forall v :: v in now <==> v in start || Occurs(items, v)) &&
    forall v :: v in now ==> now[v] == if Occurs(items, v) then VariantBreakdown(rows, items, methods, v) else start[v]
  }

  lemma TalliedStep(rows: seq<Layer>, items: seq<Item>, methods: Methods, start: map<string, Breakdown>, now: map<string, Breakdown>)
    requires items != [] && Tallied(rows, Front(items), methods, start, now) && Last(items).variantId !in start
    ensures Tallied(rows, items, methods, start,
                    Tally(now, Last(items).variantId, Last(items).quantity, LastDraw(rows, items, methods).cost))
  {
    forall w ensures Occurs(items, w) <==> Occurs(Front(items), w) || Last(items).variantId == w { OccursLast(items, w); }
    NoOccurrence(rows, Front(items), methods, Last(items).variantId);
  }

  lemma {:induction false} CoveredPrefix(rows: seq<Layer>, items: seq<Item>, methods: Methods, n: nat)
    requires n <= |items|
    ensures AllCovered(rows, items, methods) ==> AllCovered(rows, items[..n], methods)
    decreases |items|
  {
    if n < |items| {
      CoveredPrefix(rows, Front(items), methods, n);
      assert Front(items)[..n] == items[..n];
    } else {
      assert items[..n] == items;
    }
  }

  lemma {:induction false} NoOccurrence(rows: seq<Layer>, items: seq<Item>, methods: Methods, v: string)
    ensures !Occurs(items, v) ==> VariantBreakdown(rows, items, methods, v) == Breakdown(0, 0)
  {
    if items != [] {
      OccursLast(items, v);
      NoOccurrence(rows, Front(items), methods, v);
    }
  }
}
