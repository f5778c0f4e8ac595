/** When a replenishment rule makes a document, and which, on the stored items, documents and rules. */
module ReplenishmentMeaning {
  import opened Options
  import opened StockOrders
  import opened Replenishment
  import opened ReplenishmentRuns

  /** On hand, less what is allocated, plus what is in transit; 0 where there is no item. */
  ghost function AtDisposal(w: World, p: Place): int {
    if p !in w.inventory then 0 else w.inventory[p].quantity + w.inventory[p].inTransit - w.inventory[p].allocation
  }

  /** Every order and transfer that would bring the variant there is received, cancelled, or waits for approval. */
  ghost predicate NothingUnderWay(w: World, variantId: string, locationId: string) {
    && (forall id, i :: id in w.orders && 0 <= i < |w.orders[id].items| && w.orders[id].items[i].variantId == variantId &&
                        w.orders[id].destination == locationId ==>
          w.orders[id].status in {ReceivedOrder, CancelledOrder, PendingApproval})
    && (forall id, i :: id in w.transfers && 0 <= i < |w.transfers[id].items| && w.transfers[id].items[i].variantId == variantId &&
                        w.transfers[id].destination == locationId ==>
          w.transfers[id].status in {Received, Cancelled})
  }

  ghost predicate HasText(s: string) { exists i :: 0 <= i < |s| && s[i] !in {' ', '\t', '\n', '\r'} }

  /** The rule is active, its SKU is known, nothing is under way, what is at disposal is below its reorder point (the
      forecast one if it has one), and its document can be made. */
  ghost predicate Due(rule: Rule, w: World, variants: map<string, string>, forecasts: map<string, int>) {
    && rule.active && rule.sku in variants && NothingUnderWay(w, variants[rule.sku], rule.locationId)
    && (if rule.dynamicRop
        then rule.id in forecasts && forecasts[rule.id] >= 0 && AtDisposal(w, Place(rule.sku, rule.locationId)) < forecasts[rule.id]
        else AtDisposal(w, Place(rule.sku, rule.locationId)) < rule.reorderPoint)
    && (rule.supply.FromLocation? ==> rule.supply.source != rule.locationId)
    && (rule.supply.FromSupplier? ==> HasText(rule.supply.supplierId))
  }

  lemma NothingOpenMeans(w: World, variantId: string, locationId: string)
    ensures !HasOpenOrder(w.orders, variantId, locationId) && !HasOpenTransfer(w.transfers, variantId, locationId)
            <==> NothingUnderWay(w, variantId, locationId)
  {
    if HasOpenOrder(w.orders, variantId, locationId) {
      var id :| id in w.orders && OpenOrder(w.orders[id], variantId, locationId);
      var i :| 0 <= i < |w.orders[id].items| && w.orders[id].items[i].variantId == variantId;
    }
    if HasOpenTransfer(w.transfers, variantId, locationId) {
      var id :| id in w.transfers && OpenTransfer(w.transfers[id], variantId, locationId);
      var i :| 0 <= i < |w.transfers[id].items| && w.transfers[id].items[i].variantId == variantId;
    }
  }

  lemma AsksMeans(rule: Rule, w: World, variants: map<string, string>, forecasts: map<string, int>, id: string)
    ensures Asks(rule, w, variants, forecasts, id) <==> Due(rule, w, variants, forecasts)
  {
    if rule.sku in variants { NothingOpenMeans(w, variants[rule.sku], rule.locationId); }
    if rule.supply.FromSupplier? && !Blank(rule.supply.supplierId) {
      var s := rule.supply.supplierId;
      var i :| 0 <= i < |s| && !(s[i] == ' ' || s[i] == '\t' || s[i] == '\n' || s[i] == '\r');
    }
  }

  /** The outcome holds the document of the rule at this id, of the one kind, and none of the other. */
  ghost predicate HoldsDocument(o: Replenishment.Outcome, rule: Rule, variantId: string, id: string) {
    var items := [Item(variantId, rule.reorderQuantity)];
    match rule.supply
    case FromLocation(source) =>
      id !in o.orders && id in o.transfers && o.transfers[id] == Transfer(source, rule.locationId, items, Draft)
    case FromSupplier(_) =>
      id !in o.transfers && id in o.orders && o.orders[id] == Order(rule.locationId, items, DraftOrder)
  }

  lemma LastDocument(o: Replenishment.Outcome, rule: Rule, w: World, variants: map<string, string>, forecasts: map<string, int>, id: string)
    requires Asks(rule, w, variants, forecasts, id) && id !in o.transfers && id !in o.orders
    ensures HoldsDocument(EvaluateRule(o, rule, w, variants, forecasts, id), rule, variants[rule.sku], id)
  {}

  lemma DocumentKept(o: Replenishment.Outcome, rule: Rule, w: World, variants: map<string, string>, forecasts: map<string, int>, id: string,
                     earlier: Rule, v: string, x: string)
    requires x != id && HoldsDocument(o, earlier, v, x)
    ensures HoldsDocument(EvaluateRule(o, rule, w, variants, forecasts, id), earlier, v, x)
  {}

  lemma {:induction false} DueIsMade(rules: seq<Rule>, w: World, variants: map<string, string>, forecasts: map<string, int>, ids: seq<string>, i: nat)
    requires |rules| == |ids| && FreshIds(w, ids) && i < |rules| && Asks(rules[i], w, variants, forecasts, ids[i])
    ensures HoldsDocument(Evaluate(rules, w, variants, forecasts, ids), rules[i], variants[rules[i].sku], ids[i])
    decreases |rules|
  {
    var n := |rules| - 1;
    var before := Evaluate(rules[..n], w, variants, forecasts, ids[..n]);
    if i < n {
      DueIsMade(rules[..n], w, variants, forecasts, ids[..n], i);
      DocumentKept(before, rules[n], w, variants, forecasts, ids[n], rules[i], variants[rules[i].sku], ids[i]);
    } else {
      if ids[n] in before.transfers { NewIds(rules[..n], w, variants, forecasts, ids[..n], TransferDocument(ids[n])); }
      if ids[n] in before.orders { NewIds(rules[..n], w, variants, forecasts, ids[..n], OrderDocument(ids[n])); }
      LastDocument(before, rules[n], w, variants, forecasts, ids[n]);
    }
  }

  /** A rule makes a document exactly when it is due: one draft, bound for its location, of its reorder quantity of its
      variant, a transfer from its source location or an order. */
  lemma MakesDocumentIff(rules: seq<Rule>, w: World, variants: map<string, string>, forecasts: map<string, int>, ids: seq<string>, i: nat)
    requires |rules| == |ids| && FreshIds(w, ids) && i < |rules|
    ensures var o := Evaluate(rules, w, variants, forecasts, ids);
            if Due(rules[i], w, variants, forecasts) then HoldsDocument(o, rules[i], variants[rules[i].sku], ids[i])
            else ids[i] !in o.transfers && ids[i] !in o.orders
  {
    AsksMeans(rules[i], w, variants, forecasts, ids[i]);
    var o := Evaluate(rules, w, variants, forecasts, ids);
    if Asks(rules[i], w, variants, forecasts, ids[i]) { DueIsMade(rules, w, variants, forecasts, ids, i); }
    else if ids[i] in o.transfers { NewWasAsked(rules, w, variants, forecasts, ids, TransferDocument(ids[i]), i); }
    else if ids[i] in o.orders { NewWasAsked(rules, w, variants, forecasts, ids, OrderDocument(ids[i]), i); }
  }

  /** ... and no document is made at any other id. */
  lemma OnlyForRules(rules: seq<Rule>, w: World, variants: map<string, string>, forecasts: map<string, int>, ids: seq<string>, id: string)
    requires |rules| == |ids|
    ensures var o := Evaluate(rules, w, variants, forecasts, ids); id in o.transfers || id in o.orders ==> id in ids
  {
    var o := Evaluate(rules, w, variants, forecasts, ids);
    if id in o.transfers { NewIds(rules, w, variants, forecasts, ids, TransferDocument(id)); }
    if id in o.orders { NewIds(rules, w, variants, forecasts, ids, OrderDocument(id)); }
  }

  lemma VerdictMeans(o: Replenishment.Outcome, rule: Rule, w: World, variants: map<string, string>, forecasts: map<string, int>, id: string)
    requires rule.active
    ensures var after := EvaluateRule(o, rule, w, variants, forecasts, id).results;
            && |after| == |o.results| + 1 && after[..|o.results|] == o.results && after[|o.results|].ruleId == rule.id
            && (Due(rule, w, variants, forecasts) ==>
                  after[|o.results|].verdict == Triggered(AtDisposal(w, Place(rule.sku, rule.locationId)), id))
            && (!Due(rule, w, variants, forecasts) ==> !after[|o.results|].verdict.Triggered?)
            && (after[|o.results|].verdict.AtOrAbovePoint? ==>
                  after[|o.results|].verdict.position == AtDisposal(w, Place(rule.sku, rule.locationId)))
  {
    AsksMeans(rule, w, variants, forecasts, id);
  }

  /** Every active rule is reported: as triggered, with what was at disposal and its document, exactly when it is due. */
  lemma {:induction false} ReportedAsDue(rules: seq<Rule>, w: World, variants: map<string, string>, forecasts: map<string, int>,
                                         ids: seq<string>, i: nat) returns (k: nat)
    requires |rules| == |ids| && i < |rules| && rules[i].active
    ensures var r := Evaluate(rules, w, variants, forecasts, ids).results;
            && k < |r| && r[k].ruleId == rules[i].id
            && (Due(rules[i], w, variants, forecasts) ==>
                  r[k].verdict == Triggered(AtDisposal(w, Place(rules[i].sku, rules[i].locationId)), ids[i]))
            && (!Due(rules[i], w, variants, forecasts) ==> !r[k].verdict.Triggered?)
    decreases |rules|
  {
    var n := |rules| - 1;
    var before := Evaluate(rules[..n], w, variants, forecasts, ids[..n]);
    if i < n {
      k := ReportedAsDue(rules[..n], w, variants, forecasts, ids[..n], i);
      if rules[n].active { VerdictMeans(before, rules[n], w, variants, forecasts, ids[n]); }
      assert Evaluate(rules, w, variants, forecasts, ids).results[..|before.results|] == before.results;
    } else {
      VerdictMeans(before, rules[n], w, variants, forecasts, ids[n]);
      k := |before.results|;
    }
  }

  /** The rules afterwards are the rules before, with the forecast points. */
  lemma RulesAfterMean(rules: seq<Rule>, w: World, variants: map<string, string>, forecasts: map<string, int>, ids: seq<string>, i: nat)
    requires |rules| == |ids| && i < |rules|
    ensures var after := Evaluate(rules, w, variants, forecasts, ids).rules;
            && |after| == |rules|
            && after[i] == if rules[i].active && rules[i].dynamicRop && rules[i].id in forecasts && forecasts[rules[i].id] >= 0
                           then rules[i].(reorderPoint := forecasts[rules[i].id]) else rules[i]
  {
    RuleAfter(rules, w, variants, forecasts, ids);
  }
}
