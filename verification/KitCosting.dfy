/** Kit assembly and disassembly: component cost rolled into a kit layer at a rounded unit cost, and kit cost
    spread back over component layers. Layers and ledger are stored before the journal entry is made, and a
    journal line refuses an amount of nothing. */
module KitCosting {
  import opened Options
  import opened Sorting
  import opened CostLayers
  import opened CostLayerStore
  import opened CostComparison
  import opened BatchCosting
  import opened CostLayerService

  datatype Component = Component(variantId: string, quantity: int)

  /** A ledger entry's variant and signed quantity. */
  datatype Movement = Movement(variantId: string, quantity: int)

  /** What a use case stores; none when it throws before anything is stored. */
  datatype Kitted = Kitted(rows: seq<Layer>, totalCostCents: int, ledger: seq<Movement>)
  {
    /** The journal entry comes last, and its lines must be positive. */
    predicate Journaled() { totalCostCents > 0 }
  }

  /** What the constructor of a kit component guarantees. */
  predicate PositiveParts(components: seq<Component>) {
    forall i :: 0 <= i < |components| ==> components[i].quantity >= 1
  }

  function Needed(components: seq<Component>, quantity: int): seq<Item> {
    Map(components, (c: Component) => Item(c.variantId, c.quantity * quantity))
  }

  function AvailableOf(available: map<string, int>, v: string): int { if v in available then available[v] else 0 }

  predicate Enough(components: seq<Component>, quantity: int, available: map<string, int>) {
    forall i :: 0 <= i < |components| ==> AvailableOf(available, components[i].variantId) >= components[i].quantity * quantity
  }

  function Moves(items: seq<Item>, sign: int): seq<Movement> {
    Map(items, (i: Item) => Movement(i.variantId, sign * i.quantity))
  }

  // ---------- assembly ----------

  function KitLayer(id: string, v: string, quantity: int, totalCostCents: int, now: real): Layer
    requires quantity >= 1
  {
    Layer(id, v, quantity, 0, Round(totalCostCents as real / quantity as real), now, None)
  }

  function Assembly(rows: seq<Layer>, components: seq<Component>, kitVariantId: string, quantity: int,
                    available: map<string, int>, layerId: string, now: real): Option<Kitted>
  {
    var items := Needed(components, quantity);
    if quantity < 1 || !Enough(components, quantity, available) then None
    else match Sequential(rows, items, map[])
      case None => None
      case Some((stored, costs)) =>
        var total := SumOf(costs);
        Some(Kitted(Upsert(stored, KitLayer(layerId, kitVariantId, quantity, total, now)), total,
                    Moves(items, -1) + [Movement(kitVariantId, quantity)]))
  }

  function SumOf(costs: seq<int>): (r: int)
    ensures r == Sum(costs)
  {
    if costs == [] then 0 else costs[0] + SumOf(costs[1..])
  }

  method CheckComponents(components: seq<Component>, quantity: int, available: map<string, int>) returns (ok: bool)
    ensures ok == Enough(components, quantity, available)
  {
    for i := 0 to |components|
      invariant forall k :: 0 <= k < i ==> AvailableOf(available, components[k].variantId) >= components[k].quantity * quantity
    {
      if AvailableOf(available, components[i].variantId) < components[i].quantity * quantity { return false; }
    }
    ok := true;
  }

  method Deduct(items: seq<Item>, sign: int) returns (ledger: seq<Movement>)
    ensures ledger == Moves(items, sign)
  {
    ledger := [];
    for i := 0 to |items|
      invariant |ledger| == i && forall k :: 0 <= k < i ==> ledger[k] == Moves(items, sign)[k]
    {
      ledger := ledger + [Movement(items[i].variantId, sign * items[i].quantity)];
    }
  }

  /** Kits are assembled for a positive quantity only: below that, everything is "consumed" without any effect
      before a ledger entry or the kit's layer is refused. */
  method AssembleKit(costService: Service, components: seq<Component>, kitVariantId: string, quantity: int,
                     available: map<string, int>, layerId: string, now: real)
    returns (completed: bool, totalCostCents: int, ledger: seq<Movement>)
    requires Table(costService.layers.rows) && PositiveParts(components)
    modifies costService.layers
    ensures var a := Assembly(old(costService.layers.rows), components, kitVariantId, quantity, available, layerId, now);
            if a.None? then !completed && ledger == [] && costService.layers.rows == old(costService.layers.rows)
            else completed == a.value.Journaled() && totalCostCents == a.value.totalCostCents &&
                 ledger == a.value.ledger && costService.layers.rows == a.value.rows
  {
    ledger := [];
    var enough := CheckComponents(components, quantity, available);
    if !enough { return false, 0, []; }
    var items := Needed(components, quantity);
    var ok, breakdowns;
    ok, breakdowns, totalCostCents := costService.ConsumeLayersBatch(items, map[]);
    if !ok { return false, 0, []; }
    if quantity <= 0 {
      NeedsNothing(components, quantity);
      NothingConsumed(old(costService.layers.rows), items);
      return false, 0, [];
    }
    ledger := Deduct(items, -1);
    var unitCostCents := Round(totalCostCents as real / quantity as real);
    var newKitLayer := new InventoryCostLayer(Layer(layerId, kitVariantId, quantity, 0, unitCostCents, now, None));
    costService.layers.SaveBatch([newKitLayer]);
    SaveOne(Sequential(old(costService.layers.rows), items, map[]).value.0, View([newKitLayer]));
    ledger := ledger + [Movement(kitVariantId, quantity)];
    completed := totalCostCents > 0;
  }

  lemma NeedsNothing(components: seq<Component>, quantity: int)
    requires PositiveParts(components)
    ensures forall i :: 0 <= i < |components| ==>
      if quantity >= 1 then Needed(components, quantity)[i].quantity >= 1
      else if quantity == 0 then Needed(components, quantity)[i].quantity == 0
      else Needed(components, quantity)[i].quantity < 0
  {
    forall i | 0 <= i < |components|
      ensures if quantity >= 1 then components[i].quantity * quantity >= 1
              else if quantity == 0 then components[i].quantity * quantity == 0 else components[i].quantity * quantity < 0
    {
      SignOfProduct(components[i].quantity, quantity);
    }
  }

  lemma SignOfProduct(n: int, q: int)
    requires n >= 1
    ensures if q >= 1 then n * q >= 1 else if q == 0 then n * q == 0 else n * q < 0
  {}

  /** Consuming nothing costs nothing and leaves the table as it was, although it is saved again. */
  lemma ConsumesNothing(rows: seq<Layer>, variantId: string, quantity: int)
    requires Table(rows) && quantity <= 0
    ensures CostLayerStore.ConsumeLayers(rows, variantId, quantity, FIFO) == (Charged(0), rows)
  {
    ConsumeLayersEffect(rows, variantId, quantity, FIFO);
    var stored := CostLayerStore.ConsumeLayers(rows, variantId, quantity, FIFO).1;
    assert DrawDown(Line(rows, variantId, FIFO), quantity) == Drawn(Line(rows, variantId, FIFO), 0, quantity);
    LinesDetermineRows(rows, stored, rows, map[]);
  }

  lemma {:induction false} NothingConsumed(rows: seq<Layer>, items: seq<Item>)
    requires Table(rows) && forall i :: 0 <= i < |items| ==> items[i].quantity <= 0
    ensures Sequential(rows, items, map[]).Some? && Sequential(rows, items, map[]).value.0 == rows
  {
    if items != [] {
      NothingConsumed(rows, Front(items));
      ConsumesNothing(rows, Last(items).variantId, Last(items).quantity);
    }
  }

  lemma SaveOne(rows: seq<Layer>, batch: seq<Layer>)
    requires |batch| == 1
    ensures CostLayerStore.SaveBatch(rows, batch) == Upsert(rows, batch[0])
  {
    assert batch[..0] == [];
  }

  // ---------- disassembly ----------

  /** What a component unit is estimated to cost; 1000 cents when nothing of it is in stock. */
  function AverageUnitCost(active: seq<Layer>): int {
    match WeightedAverage(active, 1)
    case Charged(cost) => cost
    case Failed => if active != [] then active[0].unitCost else 1000
  }

  function UnitCosts(rows: seq<Layer>, items: seq<Item>): seq<int> {
    Map(items, (i: Item) => AverageUnitCost(CostLayerStore.GetActiveLayers(rows, i.variantId, FIFO)))
  }

  function Estimated(items: seq<Item>, unitCosts: seq<int>): int
    requires |items| == |unitCosts|
    decreases |items|
  {
    if items == [] then 0
    else Estimated(Front(items), Front(unitCosts)) + Last(items).quantity * Last(unitCosts)
  }

  function Scale(total: int, estimated: int): real {
    if estimated > 0 then total as real / estimated as real else 0.0
  }

  function Allocation(unitCost: int, scale: real): int {
    if scale > 0.0 then Round(unitCost as real * scale) else 0
  }

  function RestoredLayers(items: seq<Item>, unitCosts: seq<int>, scale: real, ids: seq<string>, now: real): seq<Layer>
    requires |items| == |unitCosts| == |ids|
  {
    seq(|items|, i requires 0 <= i < |items| =>
      Layer(ids[i], items[i].variantId, items[i].quantity, 0, Allocation(unitCosts[i], scale), now, None))
  }

  function Disassembly(rows: seq<Layer>, components: seq<Component>, kitVariantId: string, quantity: int,
                       availableKits: int, ids: seq<string>, now: real): Option<Kitted>
    requires |ids| == |components|
  {
    if availableKits < quantity then None
    else
      var (outcome, stored) := CostLayerStore.ConsumeLayers(rows, kitVariantId, quantity, FIFO);
      if outcome.Failed? || quantity == 0 || (quantity < 0 && components != []) then None
      else
        var items := Needed(components, quantity);
        var unitCosts := UnitCosts(stored, items);
        var scale := Scale(outcome.cost, Estimated(items, unitCosts));
        Some(Kitted(CostLayerStore.SaveBatch(stored, RestoredLayers(items, unitCosts, scale, ids, now)), outcome.cost,
                    [Movement(kitVariantId, -quantity)] + Moves(items, 1)))
  }

  method EstimateUnitCost(activeLayers: Objects, ghost layers: seq<Layer>) returns (avgUnitCost: int)
    requires View(activeLayers) == layers
    ensures avgUnitCost == AverageUnitCost(layers)
  {
    var breakdown := WeightedAverageCostSync(activeLayers, 1);
    match breakdown
    case Charged(cost) => avgUnitCost := cost;
    case Failed => avgUnitCost := if |activeLayers| > 0 then activeLayers[0].unitCostCents else 1000;
  }

  lemma EstimatedStep(items: seq<Item>, unitCosts: seq<int>, item: Item, cost: int)
    requires |items| == |unitCosts|
    ensures Estimated(items + [item], unitCosts + [cost]) == Estimated(items, unitCosts) + item.quantity * cost
  {
    assert Front(items + [item]) == items && Front(unitCosts + [cost]) == unitCosts;
  }

  function VariantIds(items: seq<Item>): (r: seq<string>)
    ensures |r| == |items| && forall k :: 0 <= k < |items| ==> r[k] == items[k].variantId
  {
    Map(items, (i: Item) => i.variantId)
  }

  lemma NextPrefix<T>(s: seq<T>, i: nat)
    requires i < |s|
    ensures s[..i + 1] == s[..i] + [s[i]]
  {}

  lemma CostAt(rows: seq<Layer>, items: seq<Item>, i: nat)
    requires i < |items|
    ensures UnitCosts(rows, items)[i] == AverageUnitCost(CostLayerStore.GetActiveLayers(rows, items[i].variantId, FIFO))
  {}

  method FetchComponents(costService: Service, items: seq<Item>) returns (active: map<string, Objects>)
    ensures forall i :: 0 <= i < |items| ==>
      items[i].variantId in active
      && View(active[items[i].variantId]) == CostLayerStore.GetActiveLayers(costService.layers.rows, items[i].variantId, FIFO)
  {
    var variantIds := VariantIds(items);
    ghost var repr;
    active, repr := costService.layers.GetActiveLayersBatch(variantIds, FIFO);
    assert forall i :: 0 <= i < |items| ==> variantIds[i] in variantIds;
  }

  /** The estimation loop: the average unit cost of each component, and the estimated total. */
  method EstimateComponents(costService: Service, items: seq<Item>) returns (unitCosts: seq<int>, total: int)
    ensures unitCosts == UnitCosts(costService.layers.rows, items) && total == Estimated(items, unitCosts)
  {
    var active := FetchComponents(costService, items);
    ghost var all := UnitCosts(costService.layers.rows, items);
    unitCosts, total := [], 0;
    ghost var done := [];
    for i := 0 to |items|
      invariant done == items[..i] && unitCosts == all[..i] && total == Estimated(done, unitCosts)
      invariant forall k :: 0 <= k < |items| ==>
        View(active[items[k].variantId]) == CostLayerStore.GetActiveLayers(costService.layers.rows, items[k].variantId, FIFO)
    {
      var avgUnitCost := EstimateUnitCost(active[items[i].variantId],
        CostLayerStore.GetActiveLayers(costService.layers.rows, items[i].variantId, FIFO));
      CostAt(costService.layers.rows, items, i);
      EstimatedStep(done, unitCosts, items[i], avgUnitCost);
      NextPrefix(items, i);
      NextPrefix(all, i);
      done, unitCosts := done + [items[i]], unitCosts + [avgUnitCost];
      total := total + items[i].quantity * avgUnitCost;
    }
    assert done == items && unitCosts == all;
  }

  /** The restoring loop; a layer without a positive quantity is refused. */
  method RestoreComponents(items: seq<Item>, unitCosts: seq<int>, scale: real, ids: seq<string>, now: real)
    returns (ok: bool, layers: Objects)
    requires |items| == |unitCosts| == |ids|
    ensures ok <==> forall i :: 0 <= i < |items| ==> items[i].quantity > 0
    ensures ok ==> View(layers) == RestoredLayers(items, unitCosts, scale, ids, now)
  {
    layers := [];
    for i := 0 to |items|
      invariant forall k :: 0 <= k < i ==> items[k].quantity > 0
      invariant |layers| == i && forall k :: 0 <= k < i ==> View(layers)[k] == RestoredLayers(items, unitCosts, scale, ids, now)[k]
    {
      if items[i].quantity <= 0 { return false, []; }
      var allocatedUnitCost := if scale > 0.0 then Round(unitCosts[i] as real * scale) else 0;
      var layer := new InventoryCostLayer(Layer(ids[i], items[i].variantId, items[i].quantity, 0, allocatedUnitCost, now, None));
      layers := layers + [layer];
    }
    ok := true;
  }

  /** A kit without components can be taken apart for a negative quantity, which adds kits to the ledger. */
  method DisassembleKit(costService: Service, components: seq<Component>, kitVariantId: string, quantity: int,
                        availableKits: int, ids: seq<string>, now: real)
    returns (completed: bool, totalCostCents: int, ledger: seq<Movement>)
    requires |ids| == |components| && PositiveParts(components) && Table(costService.layers.rows)
    modifies costService.layers
    ensures var d := Disassembly(old(costService.layers.rows), components, kitVariantId, quantity, availableKits, ids, now);
            if d.None? then !completed && ledger == [] && costService.layers.rows == old(costService.layers.rows)
            else completed == d.value.Journaled() && totalCostCents == d.value.totalCostCents &&
                 ledger == d.value.ledger && costService.layers.rows == d.value.rows
  {
    ghost var rows := costService.layers.rows;
    if availableKits < quantity { return false, 0, []; }
    var outcome := costService.ConsumeLayers(kitVariantId, quantity, FIFO);
    if outcome.Failed? { return false, 0, []; }
    if quantity <= 0 { ConsumesNothing(rows, kitVariantId, quantity); }
    if quantity == 0 { return false, 0, []; }
    var items := Needed(components, quantity);
    NeedsNothing(components, quantity);
    var unitCosts, totalEstimated := EstimateComponents(costService, items);
    var scaleFactor := Scale(outcome.cost, totalEstimated);
    var ok, newLayers := RestoreComponents(items, unitCosts, scaleFactor, ids, now);
    assert ok <==> quantity >= 1 || components == [] by {
      if components != [] { assert Needed(components, quantity)[0].quantity > 0 <==> quantity >= 1; }
    }
    if !ok { return false, 0, []; }
    var restored := Deduct(items, 1);
    costService.layers.SaveBatch(newLayers);
    ledger := [Movement(kitVariantId, -quantity)] + restored;
    completed, totalCostCents := outcome.cost > 0, outcome.cost;
  }
}
