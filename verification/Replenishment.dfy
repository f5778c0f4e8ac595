/** The replenishment evaluator: each active rule is checked against the documents fetched before the loop,
    and the documents it creates are saved after it. A rule's forecast and the new document ids are inputs. */
module Replenishment {
  import opened Options
  import opened StockOrders

  datatype Supply = FromLocation(source: string) | FromSupplier(supplierId: string)

  datatype Rule = Rule(id: string, sku: string, locationId: string, reorderPoint: int, reorderQuantity: nat,
                       active: bool, dynamicRop: bool, supply: Supply)

  datatype Verdict =
    | Failed
    | NotInCatalog
    | OpenOrderExists
    | OpenTransferExists
    | AtOrAbovePoint(position: int)
    | Triggered(position: int, actionId: string)

  datatype Evaluation = Evaluation(ruleId: string, verdict: Verdict)

  /** What one evaluation of the rules produces. */
  datatype Outcome = Outcome(rules: seq<Rule>, results: seq<Evaluation>, transfers: map<string, Transfer>, orders: map<string, Order>)

  predicate Names(items: seq<Item>, variantId: string) { exists i :: 0 <= i < |items| && items[i].variantId == variantId }

  predicate OpenOrder(o: Order, variantId: string, locationId: string) {
    o.destination == locationId && (o.status == DraftOrder || o.status == Ordered) && Names(o.items, variantId)
  }

  predicate OpenTransfer(t: Transfer, variantId: string, locationId: string) {
    t.destination == locationId && (t.status == Draft || t.status == Dispatched) && Names(t.items, variantId)
  }

  predicate HasOpenOrder(orders: map<string, Order>, variantId: string, locationId: string) {
    exists id :: id in orders && OpenOrder(orders[id], variantId, locationId)
  }

  predicate HasOpenTransfer(transfers: map<string, Transfer>, variantId: string, locationId: string) {
    exists id :: id in transfers && OpenTransfer(transfers[id], variantId, locationId)
  }

  function Position(rows: Rows, p: Place): int {
    if p in rows then rows[p].quantity - rows[p].allocation + rows[p].inTransit else 0
  }

  /** The rule after its reorder point was forecast; None when the forecast throws or is negative. */
  function Forecasted(rule: Rule, forecasts: map<string, int>): Option<Rule> {
    if !rule.dynamicRop then Some(rule)
    else if rule.id !in forecasts || forecasts[rule.id] < 0 then None
    else Some(rule.(reorderPoint := forecasts[rule.id]))
  }

  predicate Blank(s: string) { forall i :: 0 <= i < |s| ==> s[i] == ' ' || s[i] == '\t' || s[i] == '\n' || s[i] == '\r' }

  /** The document's constructor accepts what the rule asks for. */
  predicate Creatable(rule: Rule) {
    match rule.supply
    case FromLocation(source) => source != rule.locationId
    case FromSupplier(supplierId) => !Blank(supplierId)
  }

  function VerdictOn(rule: Rule, w: World, variants: map<string, string>, id: string): Verdict {
    if rule.sku !in variants then NotInCatalog
    else
      var v := variants[rule.sku];
      if HasOpenOrder(w.orders, v, rule.locationId) then OpenOrderExists
      else if HasOpenTransfer(w.transfers, v, rule.locationId) then OpenTransferExists
      else
        var position := Position(w.inventory, Place(rule.sku, rule.locationId));
        if position >= rule.reorderPoint then AtOrAbovePoint(position)
        else if Creatable(rule) then Triggered(position, id) else Failed
  }

  function Documented(o: Outcome, rule: Rule, variantId: string, id: string): Outcome {
    var items := [Item(variantId, rule.reorderQuantity)];
    match rule.supply
    case FromLocation(source) => o.(transfers := o.transfers[id := Transfer(source, rule.locationId, items, Draft)])
    case FromSupplier(_) => o.(orders := o.orders[id := Order(rule.locationId, items, DraftOrder)])
  }

  function EvaluateRule(o: Outcome, rule: Rule, w: World, variants: map<string, string>, forecasts: map<string, int>, id: string): Outcome {
    if !rule.active then o.(rules := o.rules + [rule])
    else match Forecasted(rule, forecasts)
      case None => o.(rules := o.rules + [rule], results := o.results + [Evaluation(rule.id, Failed)])
      case Some(r) =>
        var verdict := VerdictOn(r, w, variants, id);
        var judged := o.(rules := o.rules + [r], results := o.results + [Evaluation(rule.id, verdict)]);
        if verdict.Triggered? then Documented(judged, r, variants[r.sku], id) else judged
  }

  function Evaluate(rules: seq<Rule>, w: World, variants: map<string, string>, forecasts: map<string, int>, ids: seq<string>): Outcome
    requires |rules| == |ids|
    decreases |rules|
  {
    if rules == [] then Outcome([], [], map[], map[])
    else
      var n := |rules| - 1;
      EvaluateRule(Evaluate(rules[..n], w, variants, forecasts, ids[..n]), rules[n], w, variants, forecasts, ids[n])
  }

  lemma EvaluateMore(rules: seq<Rule>, rule: Rule, w: World, variants: map<string, string>, forecasts: map<string, int>,
                     ids: seq<string>, id: string)
    requires |rules| == |ids|
    ensures Evaluate(rules + [rule], w, variants, forecasts, ids + [id])
         == EvaluateRule(Evaluate(rules, w, variants, forecasts, ids), rule, w, variants, forecasts, id)
  {
    assert (rules + [rule])[..|rules|] == rules && (ids + [id])[..|rules|] == ids;
  }

  function Stored(w: World, o: Outcome): World {
    w.(transfers := w.transfers + o.transfers, orders := w.orders + o.orders)
  }

  method Judge(rule: Rule, w: World, variants: map<string, string>, id: string) returns (verdict: Verdict)
    ensures verdict == VerdictOn(rule, w, variants, id)
  {
    if rule.sku !in variants { return NotInCatalog; }
    var variantId := variants[rule.sku];
    if HasOpenOrder(w.orders, variantId, rule.locationId) { return OpenOrderExists; }
    if HasOpenTransfer(w.transfers, variantId, rule.locationId) { return OpenTransferExists; }
    var p := Place(rule.sku, rule.locationId);
    var onHand, allocation, inTransit := 0, 0, 0;
    if p in w.inventory {
      onHand, allocation, inTransit := w.inventory[p].quantity, w.inventory[p].allocation, w.inventory[p].inTransit;
    }
    var inventoryPosition: int := onHand as int - allocation + inTransit;
    if inventoryPosition >= rule.reorderPoint { return AtOrAbovePoint(inventoryPosition); }
    if !Creatable(rule) { return Failed; }
    verdict := Triggered(inventoryPosition, id);
  }

  method EvaluateRules(control: StockControl, rules: seq<Rule>, variants: map<string, string>, forecasts: map<string, int>, ids: seq<string>)
    returns (results: seq<Evaluation>, rulesAfter: seq<Rule>)
    requires |rules| == |ids|
    modifies control
    ensures var o := Evaluate(rules, old(control.State()), variants, forecasts, ids);
            results == o.results && rulesAfter == o.rules && control.State() == Stored(old(control.State()), o)
  {
    var fetched := control.State();
    var transfersToSave: map<string, Transfer> := map[];
    var posToSave: map<string, Order> := map[];
    results, rulesAfter := [], [];
    ghost var done, doneIds := [], [];
    for i := 0 to |rules|
      invariant done == rules[..i] && doneIds == ids[..i]
      invariant Outcome(rulesAfter, results, transfersToSave, posToSave) == Evaluate(done, fetched, variants, forecasts, doneIds)
      invariant control.State() == fetched
    {
      var rule, id := rules[i], ids[i];
      EvaluateMore(done, rule, fetched, variants, forecasts, doneIds, id);
      done, doneIds := done + [rule], doneIds + [id];
      if !rule.active {
        rulesAfter := rulesAfter + [rule];
        continue;
      }
      var r := rule;
      if rule.dynamicRop {
        if rule.id !in forecasts || forecasts[rule.id] < 0 {
          rulesAfter, results := rulesAfter + [rule], results + [Evaluation(rule.id, Failed)];
          continue;
        }
        r := rule.(reorderPoint := forecasts[rule.id]);
      }
      var verdict := Judge(r, fetched, variants, id);
      rulesAfter, results := rulesAfter + [r], results + [Evaluation(rule.id, verdict)];
      if verdict.Triggered? {
        var items := [Item(variants[r.sku], r.reorderQuantity)];
        match r.supply {
          case FromLocation(source) => transfersToSave := transfersToSave[id := Transfer(source, r.locationId, items, Draft)];
          case FromSupplier(supplierId) => posToSave := posToSave[id := Order(r.locationId, items, DraftOrder)];
        }
      }
    }
    assert done == rules && doneIds == ids;
    control.transfers := control.transfers + transfersToSave;
    control.orders := control.orders + posToSave;
  }
}
