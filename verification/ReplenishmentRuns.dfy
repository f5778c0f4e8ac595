/** No double ordering: over any run of evaluations and document steps, at most one document that the
    evaluator made is open for a variant at a location. */
module ReplenishmentRuns {
  import opened StockOrders
  import opened StockRuns
  import opened Replenishment

  /** Transfers and purchase orders have separate ids. */
  datatype Document = TransferDocument(id: string) | OrderDocument(id: string)

  predicate Known(w: World, d: Document) {
    match d
    case TransferDocument(id) => id in w.transfers
    case OrderDocument(id) => id in w.orders
  }

  /** Draft or dispatched, draft or ordered. */
  predicate IsOpen(w: World, d: Document, variantId: string, locationId: string) {
    match d
    case TransferDocument(id) =>
      id in w.transfers && w.transfers[id].status in {Draft, Dispatched} && Brings(w.transfers[id].items, w.transfers[id].destination, variantId, locationId)
    case OrderDocument(id) =>
      id in w.orders && w.orders[id].status in {DraftOrder, Ordered} && Brings(w.orders[id].items, w.orders[id].destination, variantId, locationId)
  }

  predicate Brings(items: seq<Item>, destination: string, variantId: string, locationId: string) {
    destination == locationId && exists item :: item in items && item.variantId == variantId
  }

  ghost predicate SingleOpen(w: World, made: set<Document>) {
    && (forall d :: d in made ==> Known(w, d))
    && (forall a, b, v, l :: a in made && b in made && IsOpen(w, a, v, l) && IsOpen(w, b, v, l) ==> a == b)
  }

  // ---------- document steps ----------

  /** A document step keeps every document and never opens one that was closed. */
  lemma {:induction false} StepOpensNothing(catalog: Catalog, w: World, e: Event, d: Document, v: string, l: string)
    requires Known(w, d)
    ensures Known(Next(catalog, w, e), d)
    ensures IsOpen(Next(catalog, w, e), d, v, l) ==> IsOpen(w, d, v, l)
  {}

  lemma StepKeepsSingle(catalog: Catalog, w: World, e: Event, made: set<Document>)
    requires SingleOpen(w, made)
    ensures SingleOpen(Next(catalog, w, e), made)
  {
    var next := Next(catalog, w, e);
    forall d | d in made ensures Known(next, d) { StepOpensNothing(catalog, w, e, d, "", ""); }
    forall a, b, v, l | a in made && b in made && IsOpen(next, a, v, l) && IsOpen(next, b, v, l) ensures a == b {
      StepOpensNothing(catalog, w, e, a, v, l);
      StepOpensNothing(catalog, w, e, b, v, l);
    }
  }

  // ---------- an evaluation ----------

  /** The rules of one evaluation: at most one active rule per SKU and location. */
  ghost predicate UniqueRules(rules: seq<Rule>) {
    forall i, j :: 0 <= i < j < |rules| && rules[i].active && rules[j].active ==>
      rules[i].sku != rules[j].sku || rules[i].locationId != rules[j].locationId
  }

  ghost predicate FreshIds(w: World, ids: seq<string>) {
    && (forall i :: 0 <= i < |ids| ==> ids[i] !in w.transfers && ids[i] !in w.orders)
    && (forall i, j :: 0 <= i < j < |ids| ==> ids[i] != ids[j])
  }

  ghost predicate OneVariantPerSku(variants: map<string, string>) {
    forall s, t :: s in variants && t in variants && variants[s] == variants[t] ==> s == t
  }

  ghost function MadeBy(o: Replenishment.Outcome): set<Document> {
    (set id | id in o.transfers :: TransferDocument(id)) + (set id | id in o.orders :: OrderDocument(id))
  }

  /** A new document was made by an active rule for its own SKU and location, at its own id, and nothing was
      open for that variant there. */
  ghost predicate MadeFor(rules: seq<Rule>, w: World, variants: map<string, string>, ids: seq<string>, i: nat, v: string, l: string)
    requires |rules| == |ids|
  {
    && i < |rules| && rules[i].active && rules[i].sku in variants && v == variants[rules[i].sku] && l == rules[i].locationId
    && !HasOpenOrder(w.orders, v, l) && !HasOpenTransfer(w.transfers, v, l)
  }

  /** Open among the documents of an outcome. */
  predicate OpenIn(o: Replenishment.Outcome, d: Document, v: string, l: string) {
    match d
    case TransferDocument(id) => id in o.transfers && OpenTransfer(o.transfers[id], v, l)
    case OrderDocument(id) => id in o.orders && OpenOrder(o.orders[id], v, l)
  }

  predicate Has(o: Replenishment.Outcome, d: Document) {
    match d
    case TransferDocument(id) => id in o.transfers
    case OrderDocument(id) => id in o.orders
  }

  lemma LastRule(o: Replenishment.Outcome, rule: Rule, w: World, variants: map<string, string>, forecasts: map<string, int>, id: string, d: Document)
    ensures var after := EvaluateRule(o, rule, w, variants, forecasts, id);
            && (Has(after, d) ==> Has(o, d) || d.id == id)
            && (d.id != id ==> forall v, l :: OpenIn(after, d, v, l) == OpenIn(o, d, v, l))
            && (d.id == id && !Has(o, d) ==> forall v, l :: OpenIn(after, d, v, l) ==>
                  && rule.active && rule.sku in variants && v == variants[rule.sku] && l == rule.locationId
                  && !HasOpenOrder(w.orders, v, l) && !HasOpenTransfer(w.transfers, v, l))
  {}

  lemma {:induction false} NewIds(rules: seq<Rule>, w: World, variants: map<string, string>, forecasts: map<string, int>,
                                  ids: seq<string>, d: Document)
    requires |rules| == |ids| && Has(Evaluate(rules, w, variants, forecasts, ids), d)
    ensures d.id in ids
    decreases |rules|
  {
    var n := |rules| - 1;
    var before := Evaluate(rules[..n], w, variants, forecasts, ids[..n]);
    LastRule(before, rules[n], w, variants, forecasts, ids[n], d);
    if Has(before, d) { NewIds(rules[..n], w, variants, forecasts, ids[..n], d); }
  }

  lemma {:induction false} NewDocument(rules: seq<Rule>, w: World, variants: map<string, string>, forecasts: map<string, int>,
                                       ids: seq<string>, d: Document, v: string, l: string) returns (i: nat)
    requires |rules| == |ids| && FreshIds(w, ids) && OpenIn(Evaluate(rules, w, variants, forecasts, ids), d, v, l)
    ensures MadeFor(rules, w, variants, ids, i, v, l) && d.id == ids[i]
    decreases |rules|
  {
    var n := |rules| - 1;
    var before := Evaluate(rules[..n], w, variants, forecasts, ids[..n]);
    LastRule(before, rules[n], w, variants, forecasts, ids[n], d);
    if Has(before, d) { NewIds(rules[..n], w, variants, forecasts, ids[..n], d); }
    if d.id != ids[n] {
      i := NewDocument(rules[..n], w, variants, forecasts, ids[..n], d, v, l);
    } else {
      i := n;
    }
  }

  lemma OneMoreKind(o: Replenishment.Outcome, rule: Rule, w: World, variants: map<string, string>, forecasts: map<string, int>,
                    id: string, x: string)
    requires x !in o.transfers || x !in o.orders
    requires x in o.transfers || x in o.orders ==> x != id
    ensures var after := EvaluateRule(o, rule, w, variants, forecasts, id); x !in after.transfers || x !in after.orders
  {}

  /** An id is used for a transfer or for an order, not for both. */
  lemma {:induction false} OneKind(rules: seq<Rule>, w: World, variants: map<string, string>, forecasts: map<string, int>, ids: seq<string>, id: string)
    requires |rules| == |ids| && FreshIds(w, ids)
    ensures var o := Evaluate(rules, w, variants, forecasts, ids); id !in o.transfers || id !in o.orders
    decreases |rules|
  {
    if rules != [] {
      var n := |rules| - 1;
      var before := Evaluate(rules[..n], w, variants, forecasts, ids[..n]);
      OneKind(rules[..n], w, variants, forecasts, ids[..n], id);
      if id in before.transfers { NewIds(rules[..n], w, variants, forecasts, ids[..n], TransferDocument(id)); }
      if id in before.orders { NewIds(rules[..n], w, variants, forecasts, ids[..n], OrderDocument(id)); }
      OneMoreKind(before, rules[n], w, variants, forecasts, ids[n], id);
    }
  }

  lemma SameNew(rules: seq<Rule>, w: World, variants: map<string, string>, forecasts: map<string, int>, ids: seq<string>,
                a: Document, b: Document, v: string, l: string)
    requires |rules| == |ids| && FreshIds(w, ids) && UniqueRules(rules) && OneVariantPerSku(variants)
    requires var o := Evaluate(rules, w, variants, forecasts, ids); OpenIn(o, a, v, l) && OpenIn(o, b, v, l)
    ensures a == b
  {
    var i := NewDocument(rules, w, variants, forecasts, ids, a, v, l);
    var j := NewDocument(rules, w, variants, forecasts, ids, b, v, l);
    assert rules[i].sku == rules[j].sku;
    assert i == j;
    OneKind(rules, w, variants, forecasts, ids, a.id);
  }

  lemma StoredOpen(rules: seq<Rule>, w: World, variants: map<string, string>, forecasts: map<string, int>, ids: seq<string>,
                   d: Document, v: string, l: string)
    requires |rules| == |ids| && FreshIds(w, ids)
    ensures var o := Evaluate(rules, w, variants, forecasts, ids);
            && (Known(w, d) ==> (IsOpen(Stored(w, o), d, v, l) <==> IsOpen(w, d, v, l)) && Known(Stored(w, o), d))
            && (!Known(w, d) ==> (IsOpen(Stored(w, o), d, v, l) <==> OpenIn(o, d, v, l)))
            && (Has(o, d) ==> Known(Stored(w, o), d) && !Known(w, d))
  {
    var o := Evaluate(rules, w, variants, forecasts, ids);
    if Has(o, d) { NewIds(rules, w, variants, forecasts, ids, d); }
  }

  /** Two documents open after an evaluation for one variant and location are the same one. */
  lemma OneOpenAfter(rules: seq<Rule>, w: World, variants: map<string, string>, forecasts: map<string, int>, ids: seq<string>,
                     made: set<Document>, a: Document, b: Document, v: string, l: string)
    requires |rules| == |ids| && FreshIds(w, ids) && UniqueRules(rules) && OneVariantPerSku(variants) && SingleOpen(w, made)
    requires var o := Evaluate(rules, w, variants, forecasts, ids);
             a in made + MadeBy(o) && b in made + MadeBy(o) && IsOpen(Stored(w, o), a, v, l) && IsOpen(Stored(w, o), b, v, l)
    ensures a == b
  {
    StoredOpen(rules, w, variants, forecasts, ids, a, v, l);
    StoredOpen(rules, w, variants, forecasts, ids, b, v, l);
    if !Known(w, a) && !Known(w, b) {
      SameNew(rules, w, variants, forecasts, ids, a, b, v, l);
    } else if !Known(w, a) {
      var i := NewDocument(rules, w, variants, forecasts, ids, a, v, l);
    } else if !Known(w, b) {
      var i := NewDocument(rules, w, variants, forecasts, ids, b, v, l);
    }
  }

  /** An evaluation adds no document for a variant and location that already has an open one. */
  lemma EvaluationKeepsSingle(rules: seq<Rule>, w: World, variants: map<string, string>, forecasts: map<string, int>,
                              ids: seq<string>, made: set<Document>)
    requires |rules| == |ids| && FreshIds(w, ids) && UniqueRules(rules) && OneVariantPerSku(variants) && SingleOpen(w, made)
    ensures var o := Evaluate(rules, w, variants, forecasts, ids); SingleOpen(Stored(w, o), made + MadeBy(o))
  {
    var o := Evaluate(rules, w, variants, forecasts, ids);
    var next := Stored(w, o);
    forall d | d in made + MadeBy(o) ensures Known(next, d) { StoredOpen(rules, w, variants, forecasts, ids, d, "", ""); }
    forall a, b, v, l | a in made + MadeBy(o) && b in made + MadeBy(o) && IsOpen(next, a, v, l) && IsOpen(next, b, v, l) ensures a == b {
      OneOpenAfter(rules, w, variants, forecasts, ids, made, a, b, v, l);
    }
  }

  // ---------- runs ----------

  datatype Step =
    | StockStep(event: Event)
    | EvaluationStep(rules: seq<Rule>, variants: map<string, string>, forecasts: map<string, int>, ids: seq<string>)

  ghost predicate LegalStep(w: World, step: Step) {
    step.EvaluationStep? ==>
      |step.rules| == |step.ids| && FreshIds(w, step.ids) && UniqueRules(step.rules) && OneVariantPerSku(step.variants)
  }

  /** A run, together with the documents its evaluations made. */
  ghost predicate Run(catalog: Catalog, states: seq<World>, made: seq<set<Document>>, steps: seq<Step>) {
    && |states| == |made| == |steps| + 1 && made[0] == {}
    && forall i :: 0 <= i < |steps| ==> LegalStep(states[i], steps[i]) && Took(catalog, states[i], made[i], steps[i], states[i + 1], made[i + 1])
  }

  ghost predicate Took(catalog: Catalog, w: World, made: set<Document>, step: Step, next: World, madeNext: set<Document>)
    requires LegalStep(w, step)
  {
    match step
    case StockStep(event) => next == Next(catalog, w, event) && madeNext == made
    case EvaluationStep(rules, variants, forecasts, ids) =>
      var o := Evaluate(rules, w, variants, forecasts, ids); next == Stored(w, o) && madeNext == made + MadeBy(o)
  }

  lemma StepKeeps(catalog: Catalog, w: World, made: set<Document>, step: Step, next: World, madeNext: set<Document>)
    requires SingleOpen(w, made) && LegalStep(w, step) && Took(catalog, w, made, step, next, madeNext)
    ensures SingleOpen(next, madeNext)
  {
    match step
    case StockStep(event) => StepKeepsSingle(catalog, w, event, made);
    case EvaluationStep(rules, variants, forecasts, ids) => EvaluationKeepsSingle(rules, w, variants, forecasts, ids, made);
  }

  /** In every state of a run from any stored documents, at most one open document that an evaluation made
      brings a variant to a location. */
  lemma {:induction false} NoDoubleOrdering(catalog: Catalog, states: seq<World>, made: seq<set<Document>>, steps: seq<Step>, i: nat)
    requires Run(catalog, states, made, steps) && i < |states|
    ensures SingleOpen(states[i], made[i])
  {
    if i == 0 {
      assert made[0] == {};
    } else {
      NoDoubleOrdering(catalog, states, made, steps, i - 1);
      StepKeeps(catalog, states[i - 1], made[i - 1], steps[i - 1], states[i], made[i]);
    }
  }

  // ---------- evaluating again ----------

  function Updated(rule: Rule, forecasts: map<string, int>): Rule {
    if rule.active && Forecasted(rule, forecasts).Some? then Forecasted(rule, forecasts).value else rule
  }

  /** The rule asks for a new document. */
  predicate Asks(rule: Rule, w: World, variants: map<string, string>, forecasts: map<string, int>, id: string) {
    rule.active && Forecasted(rule, forecasts).Some? && VerdictOn(Forecasted(rule, forecasts).value, w, variants, id).Triggered?
  }

  lemma OneRuleMore(o: Replenishment.Outcome, rule: Rule, w: World, variants: map<string, string>, forecasts: map<string, int>, id: string)
    ensures EvaluateRule(o, rule, w, variants, forecasts, id).rules == o.rules + [Updated(rule, forecasts)]
  {}

  lemma {:induction false} RuleAfter(rules: seq<Rule>, w: World, variants: map<string, string>, forecasts: map<string, int>, ids: seq<string>)
    requires |rules| == |ids|
    ensures var o := Evaluate(rules, w, variants, forecasts, ids);
            |o.rules| == |rules| && forall i :: 0 <= i < |rules| ==> o.rules[i] == Updated(rules[i], forecasts)
    decreases |rules|
  {
    if rules != [] {
      var n := |rules| - 1;
      RuleAfter(rules[..n], w, variants, forecasts, ids[..n]);
      OneRuleMore(Evaluate(rules[..n], w, variants, forecasts, ids[..n]), rules[n], w, variants, forecasts, ids[n]);
    }
  }

  /** What a rule asked for is there afterwards, and open. */
  lemma {:induction false} AskedIsMade(rules: seq<Rule>, w: World, variants: map<string, string>, forecasts: map<string, int>, ids: seq<string>, i: nat)
      returns (d: Document)
    requires |rules| == |ids| && i < |rules| && FreshIds(w, ids) && Asks(rules[i], w, variants, forecasts, ids[i])
    ensures d.id == ids[i] && OpenIn(Evaluate(rules, w, variants, forecasts, ids), d, variants[rules[i].sku], rules[i].locationId)
    decreases |rules|
  {
    var n := |rules| - 1;
    var before := Evaluate(rules[..n], w, variants, forecasts, ids[..n]);
    if i < n {
      d := AskedIsMade(rules[..n], w, variants, forecasts, ids[..n], i);
      LastRule(before, rules[n], w, variants, forecasts, ids[n], d);
    } else {
      d := if rules[n].supply.FromLocation? then TransferDocument(ids[n]) else OrderDocument(ids[n]);
      assert Item(variants[rules[i].sku], rules[i].reorderQuantity) == [Item(variants[rules[i].sku], rules[i].reorderQuantity)][0];
    }
  }

  /** What was open for a variant at a location still is after the evaluation. */
  lemma StaysOpen(rules: seq<Rule>, w: World, variants: map<string, string>, forecasts: map<string, int>, ids: seq<string>, v: string, l: string)
    requires |rules| == |ids| && FreshIds(w, ids)
    ensures var next := Stored(w, Evaluate(rules, w, variants, forecasts, ids));
            && (HasOpenOrder(w.orders, v, l) ==> HasOpenOrder(next.orders, v, l))
            && (HasOpenTransfer(w.transfers, v, l) ==> HasOpenTransfer(next.transfers, v, l))
  {
    if HasOpenOrder(w.orders, v, l) {
      var k :| k in w.orders && OpenOrder(w.orders[k], v, l);
      StoredOpen(rules, w, variants, forecasts, ids, OrderDocument(k), v, l);
    }
    if HasOpenTransfer(w.transfers, v, l) {
      var k :| k in w.transfers && OpenTransfer(w.transfers[k], v, l);
      StoredOpen(rules, w, variants, forecasts, ids, TransferDocument(k), v, l);
    }
  }

  lemma AskedIsOpen(rules: seq<Rule>, w: World, variants: map<string, string>, forecasts: map<string, int>, ids: seq<string>, i: nat)
    requires |rules| == |ids| && i < |rules| && FreshIds(w, ids) && Asks(rules[i], w, variants, forecasts, ids[i])
    ensures var next, v := Stored(w, Evaluate(rules, w, variants, forecasts, ids)), variants[rules[i].sku];
            HasOpenOrder(next.orders, v, rules[i].locationId) || HasOpenTransfer(next.transfers, v, rules[i].locationId)
  {
    var v, l := variants[rules[i].sku], rules[i].locationId;
    var d := AskedIsMade(rules, w, variants, forecasts, ids, i);
    StoredOpen(rules, w, variants, forecasts, ids, d, v, l);
  }

  lemma AsksOnlyIf(rule: Rule, w: World, next: World, variants: map<string, string>, forecasts: map<string, int>, id: string, again: string)
    requires next.inventory == w.inventory && Asks(Updated(rule, forecasts), next, variants, forecasts, again)
    requires rule.sku in variants && !HasOpenOrder(w.orders, variants[rule.sku], rule.locationId)
    requires !HasOpenTransfer(w.transfers, variants[rule.sku], rule.locationId)
    ensures Asks(rule, w, variants, forecasts, id)
  {}

  lemma NothingMoreAsked(rules: seq<Rule>, w: World, variants: map<string, string>, forecasts: map<string, int>, ids: seq<string>, i: nat, again: string)
    requires |rules| == |ids| && i < |rules| && FreshIds(w, ids)
    ensures !Asks(Updated(rules[i], forecasts), Stored(w, Evaluate(rules, w, variants, forecasts, ids)), variants, forecasts, again)
  {
    var next, r := Stored(w, Evaluate(rules, w, variants, forecasts, ids)), rules[i];
    if Asks(Updated(r, forecasts), next, variants, forecasts, again) {
      StaysOpen(rules, w, variants, forecasts, ids, variants[r.sku], r.locationId);
      AsksOnlyIf(r, w, next, variants, forecasts, ids[i], again);
      AskedIsOpen(rules, w, variants, forecasts, ids, i);
    }
  }

  lemma {:induction false} NoneAsked(rules: seq<Rule>, w: World, variants: map<string, string>, forecasts: map<string, int>, ids: seq<string>)
    requires |rules| == |ids| && forall i :: 0 <= i < |rules| ==> !Asks(rules[i], w, variants, forecasts, ids[i])
    ensures var o := Evaluate(rules, w, variants, forecasts, ids); o.transfers == map[] && o.orders == map[]
    decreases |rules|
  {
    if rules != [] {
      var n := |rules| - 1;
      NoneAsked(rules[..n], w, variants, forecasts, ids[..n]);
      assert !Asks(rules[n], w, variants, forecasts, ids[n]);
    }
  }

  /** Evaluating again at once, with the same forecasts, orders nothing. */
  lemma SecondEvaluationOrdersNothing(rules: seq<Rule>, w: World, variants: map<string, string>, forecasts: map<string, int>,
                                      ids: seq<string>, idsAgain: seq<string>)
    requires |rules| == |ids| == |idsAgain| && FreshIds(w, ids)
    ensures |Evaluate(rules, w, variants, forecasts, ids).rules| == |rules|
    ensures var first := Evaluate(rules, w, variants, forecasts, ids);
            var second := Evaluate(first.rules, Stored(w, first), variants, forecasts, idsAgain);
            second.transfers == map[] && second.orders == map[]
  {
    var first := Evaluate(rules, w, variants, forecasts, ids);
    RuleAfter(rules, w, variants, forecasts, ids);
    forall i | 0 <= i < |rules| ensures !Asks(first.rules[i], Stored(w, first), variants, forecasts, idsAgain[i]) {
      NothingMoreAsked(rules, w, variants, forecasts, ids, i, idsAgain[i]);
    }
    NoneAsked(first.rules, Stored(w, first), variants, forecasts, idsAgain);
  }

  // ---------- orders waiting for approval ----------

  predicate IsPending(w: World, d: Document) { d.OrderDocument? && d.id in w.orders && w.orders[d.id].status == PendingApproval }

  /** An order waiting for approval, which the evaluator does not look at. */
  predicate PendingFor(w: World, d: Document, variantId: string, locationId: string) {
    IsPending(w, d) && Brings(w.orders[d.id].items, w.orders[d.id].destination, variantId, locationId)
  }

  /** Open, or waiting for approval. */
  predicate Outstanding(w: World, d: Document, variantId: string, locationId: string) {
    IsOpen(w, d, variantId, locationId) || PendingFor(w, d, variantId, locationId)
  }

  ghost predicate SingleOutstanding(w: World, made: set<Document>) {
    && (forall d :: d in made ==> Known(w, d))
    && (forall a, b, v, l :: a in made && b in made && Outstanding(w, a, v, l) && Outstanding(w, b, v, l) ==> a == b)
  }

  // ---------- exactly when at most one stays outstanding ----------

  /** No rule of the evaluation asks for what an order waiting for approval already brings. */
  ghost predicate NoneAskedTwice(w: World, made: set<Document>, rules: seq<Rule>, variants: map<string, string>,
                                 forecasts: map<string, int>, ids: seq<string>)
    requires |rules| == |ids|
  {
    forall i, d :: 0 <= i < |rules| && d in made && Asks(rules[i], w, variants, forecasts, ids[i]) ==>
      !PendingFor(w, d, variants[rules[i].sku], rules[i].locationId)
  }

  lemma LastAsked(o: Replenishment.Outcome, rule: Rule, w: World, variants: map<string, string>, forecasts: map<string, int>, id: string, d: Document)
    requires Has(EvaluateRule(o, rule, w, variants, forecasts, id), d) && !Has(o, d)
    ensures d.id == id && Asks(rule, w, variants, forecasts, id)
  {}

  /** A new document was asked for by the rule at its id. */
  lemma {:induction false} NewWasAsked(rules: seq<Rule>, w: World, variants: map<string, string>, forecasts: map<string, int>,
                                       ids: seq<string>, d: Document, i: nat)
    requires |rules| == |ids| && FreshIds(w, ids) && Has(Evaluate(rules, w, variants, forecasts, ids), d)
    requires i < |ids| && d.id == ids[i]
    ensures Asks(rules[i], w, variants, forecasts, ids[i])
    decreases |rules|
  {
    var n := |rules| - 1;
    var before := Evaluate(rules[..n], w, variants, forecasts, ids[..n]);
    if Has(before, d) {
      NewIds(rules[..n], w, variants, forecasts, ids[..n], d);
      NewWasAsked(rules[..n], w, variants, forecasts, ids[..n], d, i);
    } else {
      LastAsked(before, rules[n], w, variants, forecasts, ids[n], d);
    }
  }

  /** Evaluating leaves pending orders as they are and makes none. */
  lemma StoredPending(rules: seq<Rule>, w: World, variants: map<string, string>, forecasts: map<string, int>, ids: seq<string>,
                      d: Document, v: string, l: string)
    requires |rules| == |ids| && FreshIds(w, ids)
    ensures PendingFor(Stored(w, Evaluate(rules, w, variants, forecasts, ids)), d, v, l) <==> PendingFor(w, d, v, l)
  {
    var o := Evaluate(rules, w, variants, forecasts, ids);
    if d.OrderDocument? && d.id in o.orders {
      NewNotPending(rules, w, variants, forecasts, ids, d.id);
      StoredOpen(rules, w, variants, forecasts, ids, d, v, l);
    }
  }

  /** Where a new document is outstanding, nothing made before is, unless the same was asked for twice. */
  lemma NewIsAlone(rules: seq<Rule>, w: World, variants: map<string, string>, forecasts: map<string, int>, ids: seq<string>,
                   made: set<Document>, second: Document, first: Document, v: string, l: string)
    requires |rules| == |ids| && FreshIds(w, ids) && NoneAskedTwice(w, made, rules, variants, forecasts, ids)
    requires OpenIn(Evaluate(rules, w, variants, forecasts, ids), second, v, l) && first in made
    ensures !Outstanding(w, first, v, l)
  {
    var i := NewDocument(rules, w, variants, forecasts, ids, second, v, l);
    NewWasAsked(rules, w, variants, forecasts, ids, second, i);
  }

  lemma OneOutstandingAfter(rules: seq<Rule>, w: World, variants: map<string, string>, forecasts: map<string, int>, ids: seq<string>,
                            made: set<Document>, a: Document, b: Document, v: string, l: string)
    requires |rules| == |ids| && FreshIds(w, ids) && UniqueRules(rules) && OneVariantPerSku(variants)
    requires SingleOutstanding(w, made) && NoneAskedTwice(w, made, rules, variants, forecasts, ids)
    requires var o := Evaluate(rules, w, variants, forecasts, ids);
             a in made + MadeBy(o) && b in made + MadeBy(o) && Outstanding(Stored(w, o), a, v, l) && Outstanding(Stored(w, o), b, v, l)
    ensures a == b
  {
    forall d | d == a || d == b
      ensures if Known(w, d) then Outstanding(w, d, v, l) else OpenIn(Evaluate(rules, w, variants, forecasts, ids), d, v, l)
      ensures d in made || (Has(Evaluate(rules, w, variants, forecasts, ids), d) && !Known(w, d))
    {
      StoredOpen(rules, w, variants, forecasts, ids, d, v, l);
      StoredPending(rules, w, variants, forecasts, ids, d, v, l);
    }
    if !Known(w, a) && !Known(w, b) {
      SameNew(rules, w, variants, forecasts, ids, a, b, v, l);
    } else if !Known(w, a) {
      NewIsAlone(rules, w, variants, forecasts, ids, made, a, b, v, l);
    } else if !Known(w, b) {
      NewIsAlone(rules, w, variants, forecasts, ids, made, b, a, v, l);
    }
  }

  /** A rule that asks for what an order waiting for approval brings gets a second document, whatever the state. */
  lemma AskedTwiceIsMade(rules: seq<Rule>, w: World, variants: map<string, string>, forecasts: map<string, int>, ids: seq<string>,
                         i: nat, d: Document) returns (second: Document)
    requires |rules| == |ids| && FreshIds(w, ids) && i < |rules| && Asks(rules[i], w, variants, forecasts, ids[i])
    requires PendingFor(w, d, variants[rules[i].sku], rules[i].locationId)
    ensures var o, v, l := Evaluate(rules, w, variants, forecasts, ids), variants[rules[i].sku], rules[i].locationId;
            && second in MadeBy(o) && second != d && second.id == ids[i]
            && Outstanding(Stored(w, o), second, v, l) && Outstanding(Stored(w, o), d, v, l)
  {
    var v, l := variants[rules[i].sku], rules[i].locationId;
    second := AskedIsMade(rules, w, variants, forecasts, ids, i);
    StoredOpen(rules, w, variants, forecasts, ids, second, v, l);
    StoredPending(rules, w, variants, forecasts, ids, d, v, l);
  }

  lemma {:induction false} NoneAskedTwiceKeeps(rules: seq<Rule>, w: World, variants: map<string, string>, forecasts: map<string, int>,
                                               ids: seq<string>, made: set<Document>)
    requires |rules| == |ids| && FreshIds(w, ids) && UniqueRules(rules) && OneVariantPerSku(variants)
    requires SingleOutstanding(w, made) && NoneAskedTwice(w, made, rules, variants, forecasts, ids)
    ensures var o := Evaluate(rules, w, variants, forecasts, ids); SingleOutstanding(Stored(w, o), made + MadeBy(o))
  {
    var o := Evaluate(rules, w, variants, forecasts, ids);
    var next := Stored(w, o);
    forall d | d in made + MadeBy(o) ensures Known(next, d) { StoredOpen(rules, w, variants, forecasts, ids, d, "", ""); }
    forall a, b, v, l | a in made + MadeBy(o) && b in made + MadeBy(o) && Outstanding(next, a, v, l) && Outstanding(next, b, v, l)
      ensures a == b
    {
      OneOutstandingAfter(rules, w, variants, forecasts, ids, made, a, b, v, l);
    }
  }

  lemma {:induction false} AskedTwiceBreaks(rules: seq<Rule>, w: World, variants: map<string, string>, forecasts: map<string, int>,
                                            ids: seq<string>, made: set<Document>)
    requires |rules| == |ids| && FreshIds(w, ids) && !NoneAskedTwice(w, made, rules, variants, forecasts, ids)
    ensures var o := Evaluate(rules, w, variants, forecasts, ids); !SingleOutstanding(Stored(w, o), made + MadeBy(o))
  {
    var i, d :| 0 <= i < |rules| && d in made && Asks(rules[i], w, variants, forecasts, ids[i])
                && PendingFor(w, d, variants[rules[i].sku], rules[i].locationId);
    var second := AskedTwiceIsMade(rules, w, variants, forecasts, ids, i, d);
  }

  /** An evaluation leaves at most one document outstanding for a variant at a location if and only if no rule asks
      for what an order waiting for approval already brings. */
  lemma {:induction false} EvaluationKeepsOutstandingIff(rules: seq<Rule>, w: World, variants: map<string, string>,
                                                         forecasts: map<string, int>, ids: seq<string>, made: set<Document>)
    requires |rules| == |ids| && FreshIds(w, ids) && UniqueRules(rules) && OneVariantPerSku(variants) && SingleOutstanding(w, made)
    ensures var o := Evaluate(rules, w, variants, forecasts, ids);
            SingleOutstanding(Stored(w, o), made + MadeBy(o)) <==> NoneAskedTwice(w, made, rules, variants, forecasts, ids)
  {
    if NoneAskedTwice(w, made, rules, variants, forecasts, ids) {
      NoneAskedTwiceKeeps(rules, w, variants, forecasts, ids, made);
    } else {
      AskedTwiceBreaks(rules, w, variants, forecasts, ids, made);
    }
  }

  lemma {:induction false} StockStepKeepsOutstanding(catalog: Catalog, w: World, e: Event, made: set<Document>)
    requires SingleOutstanding(w, made)
    ensures SingleOutstanding(Next(catalog, w, e), made)
  {
    var next := Next(catalog, w, e);
    forall d | d in made ensures Known(next, d) { StepOpensNothing(catalog, w, e, d, "", ""); }
    forall a, b, v, l | a in made && b in made && Outstanding(next, a, v, l) && Outstanding(next, b, v, l) ensures a == b {
      StepMakesNoneOutstanding(catalog, w, e, a, v, l);
      StepMakesNoneOutstanding(catalog, w, e, b, v, l);
    }
  }

  /** A document step makes nothing outstanding that was not. */
  lemma {:induction false} StepMakesNoneOutstanding(catalog: Catalog, w: World, e: Event, d: Document, v: string, l: string)
    requires Known(w, d) && Outstanding(Next(catalog, w, e), d, v, l)
    ensures Outstanding(w, d, v, l)
  {
    StepOpensNothing(catalog, w, e, d, v, l);
  }

  /** What the step asks of the state before it: nothing, unless it is an evaluation. */
  ghost predicate AsksOnce(w: World, made: set<Document>, step: Step)
    requires LegalStep(w, step)
  {
    step.EvaluationStep? ==> NoneAskedTwice(w, made, step.rules, step.variants, step.forecasts, step.ids)
  }

  lemma {:induction false} StepKeepsOutstandingIff(catalog: Catalog, w: World, made: set<Document>, step: Step, next: World, madeNext: set<Document>)
    requires SingleOutstanding(w, made) && LegalStep(w, step) && Took(catalog, w, made, step, next, madeNext)
    ensures SingleOutstanding(next, madeNext) <==> AsksOnce(w, made, step)
  {
    match step
    case StockStep(event) => StockStepKeepsOutstanding(catalog, w, event, made);
    case EvaluationStep(rules, variants, forecasts, ids) => EvaluationKeepsOutstandingIff(rules, w, variants, forecasts, ids, made);
  }

  ghost predicate AllSingle(states: seq<World>, made: seq<set<Document>>, n: nat)
    requires n < |states| == |made|
  {
    forall i :: 0 <= i <= n ==> SingleOutstanding(states[i], made[i])
  }

  ghost predicate AllAskOnce(states: seq<World>, made: seq<set<Document>>, steps: seq<Step>, n: nat)
    requires n <= |steps| && |steps| < |states| == |made|
    requires forall i :: 0 <= i < |steps| ==> LegalStep(states[i], steps[i])
  {
    forall i :: 0 <= i < n ==> AsksOnce(states[i], made[i], steps[i])
  }

  lemma LastOfAll(states: seq<World>, made: seq<set<Document>>, steps: seq<Step>, n: nat)
    requires 0 < n <= |steps| && |steps| < |states| == |made|
    requires forall i :: 0 <= i < |steps| ==> LegalStep(states[i], steps[i])
    ensures AllSingle(states, made, n) <==> AllSingle(states, made, n - 1) && SingleOutstanding(states[n], made[n])
    ensures AllAskOnce(states, made, steps, n) <==>
              AllAskOnce(states, made, steps, n - 1) && AsksOnce(states[n - 1], made[n - 1], steps[n - 1])
  {}

  /** The first n + 1 states have at most one document of the evaluations outstanding for each variant at each
      location if and only if no evaluation among the first n steps asks for what an order of theirs that waits for
      approval already brings. */
  lemma {:induction false} OneOutstandingIff(catalog: Catalog, states: seq<World>, made: seq<set<Document>>, steps: seq<Step>, n: nat)
    requires Run(catalog, states, made, steps) && n < |states|
    ensures AllSingle(states, made, n) <==> AllAskOnce(states, made, steps, n)
  {
    if n == 0 {
      assert made[0] == {};
    } else {
      OneOutstandingIff(catalog, states, made, steps, n - 1);
      LastOfAll(states, made, steps, n);
      if AllSingle(states, made, n - 1) {
        StepKeepsOutstandingIff(catalog, states[n - 1], made[n - 1], steps[n - 1], states[n], made[n]);
      }
    }
  }

  // ---------- orders that are never sent for approval, and one that is ----------

  ghost predicate NonePending(w: World, made: set<Document>) {
    forall d :: d in made ==> Known(w, d) && !IsPending(w, d)
  }

  /** The step sends an order for approval that an evaluation made. */
  predicate Intercepts(step: Step, made: set<Document>) {
    step.StockStep? && step.event.PlacePurchase? && step.event.intercepted && OrderDocument(step.event.id) in made
  }

  lemma StockStepPends(catalog: Catalog, w: World, e: Event, d: Document)
    requires Known(w, d) && !IsPending(w, d) && IsPending(Next(catalog, w, e), d)
    ensures e == PlacePurchase(d.id, true)
  {}

  lemma {:induction false} NewNotPending(rules: seq<Rule>, w: World, variants: map<string, string>, forecasts: map<string, int>,
                                         ids: seq<string>, id: string)
    requires |rules| == |ids| && id in Evaluate(rules, w, variants, forecasts, ids).orders
    ensures Evaluate(rules, w, variants, forecasts, ids).orders[id].status == DraftOrder
    decreases |rules|
  {
    var n := |rules| - 1;
    var before := Evaluate(rules[..n], w, variants, forecasts, ids[..n]);
    if id in before.orders { NewNotPending(rules[..n], w, variants, forecasts, ids[..n], id); }
  }

  lemma StepKeepsNonePending(catalog: Catalog, w: World, made: set<Document>, step: Step, next: World, madeNext: set<Document>)
    requires NonePending(w, made) && LegalStep(w, step) && Took(catalog, w, made, step, next, madeNext) && !Intercepts(step, made)
    ensures NonePending(next, madeNext)
  {
    forall d | d in madeNext ensures Known(next, d) && !IsPending(next, d) {
      match step
      case StockStep(event) =>
        StepOpensNothing(catalog, w, event, d, "", "");
        if IsPending(next, d) { StockStepPends(catalog, w, event, d); }
      case EvaluationStep(rules, variants, forecasts, ids) =>
        StoredOpen(rules, w, variants, forecasts, ids, d, "", "");
        var o := Evaluate(rules, w, variants, forecasts, ids);
        if d.OrderDocument? && d.id in o.orders { NewNotPending(rules, w, variants, forecasts, ids, d.id); }
    }
  }

  lemma {:induction false} NonePendingUnless(catalog: Catalog, states: seq<World>, made: seq<set<Document>>, steps: seq<Step>, i: nat)
    requires Run(catalog, states, made, steps) && i < |states|
    requires forall k :: 0 <= k < i ==> !Intercepts(steps[k], made[k])
    ensures NonePending(states[i], made[i])
  {
    if i == 0 {
      assert made[0] == {};
    } else {
      NonePendingUnless(catalog, states, made, steps, i - 1);
      StepKeepsNonePending(catalog, states[i - 1], made[i - 1], steps[i - 1], states[i], made[i]);
    }
  }

  /** As long as no order that an evaluation made is sent for approval, at most one of its documents is
      outstanding for a variant at a location. */
  lemma NoDoubleOutstanding(catalog: Catalog, states: seq<World>, made: seq<set<Document>>, steps: seq<Step>, i: nat,
                            a: Document, b: Document, v: string, l: string)
    requires Run(catalog, states, made, steps) && i < |states|
    requires forall k :: 0 <= k < i ==> !Intercepts(steps[k], made[k])
    requires a in made[i] && b in made[i] && Outstanding(states[i], a, v, l) && Outstanding(states[i], b, v, l)
    ensures a == b
  {
    NoDoubleOrdering(catalog, states, made, steps, i);
    NonePendingUnless(catalog, states, made, steps, i);
    assert !IsPending(states[i], a) && !IsPending(states[i], b);
  }

  lemma OneOrderMade(rule: Rule, v: string, w: World, id: string)
    requires rule.active && !rule.dynamicRop && rule.supply.FromSupplier? && !Blank(rule.supply.supplierId)
    requires !HasOpenOrder(w.orders, v, rule.locationId) && !HasOpenTransfer(w.transfers, v, rule.locationId)
    requires Position(w.inventory, Place(rule.sku, rule.locationId)) < rule.reorderPoint
    ensures var o := Evaluate([rule], w, map[rule.sku := v], map[], [id]);
            o.transfers == map[] && o.orders == map[id := Order(rule.locationId, [Item(v, rule.reorderQuantity)], DraftOrder)]
  {
    assert [rule][..0] == [] && [id][..0] == [];
    assert Evaluate([rule][..0], w, map[rule.sku := v], map[], [id][..0]) == Replenishment.Outcome([], [], map[], map[]);
  }

  lemma {:induction false} OneOrderStep(catalog: Catalog, rule: Rule, v: string, w: World, id: string, made: set<Document>, step: Step, draft: Order)
    requires rule.active && !rule.dynamicRop && rule.supply.FromSupplier? && !Blank(rule.supply.supplierId)
    requires !HasOpenOrder(w.orders, v, rule.locationId) && !HasOpenTransfer(w.transfers, v, rule.locationId)
    requires Position(w.inventory, Place(rule.sku, rule.locationId)) < rule.reorderPoint
    requires id !in w.transfers && id !in w.orders && step == EvaluationStep([rule], map[rule.sku := v], map[], [id])
    requires draft == Order(rule.locationId, [Item(v, rule.reorderQuantity)], DraftOrder)
    ensures LegalStep(w, step)
    ensures Took(catalog, w, made, step, w.(orders := w.orders[id := draft]), made + {OrderDocument(id)})
  {
    OneOrderMade(rule, v, w, id);
    var o := Evaluate([rule], w, map[rule.sku := v], map[], [id]);
    assert MadeBy(o) == {OrderDocument(id)};
    assert Stored(w, o) == w.(orders := w.orders[id := draft]);
  }

  lemma ApprovalStep(catalog: Catalog, w: World, id: string, made: set<Document>, draft: Order)
    requires w.orders == map[id := draft] && draft.status == DraftOrder
    ensures Took(catalog, w, made, StockStep(PlacePurchase(id, true)), w.(orders := map[id := draft.(status := PendingApproval)]), made)
  {
    assert w.orders[id := draft.(status := PendingApproval)] == map[id := draft.(status := PendingApproval)];
  }

  lemma {:induction false} OneStep(catalog: Catalog, w: World, step: Step, next: World, made: set<Document>)
    requires LegalStep(w, step) && Took(catalog, w, {}, step, next, made)
    ensures Run(catalog, [w, next], [{}, made], [step])
  {}

  lemma {:induction false} AnotherStep(catalog: Catalog, states: seq<World>, made: seq<set<Document>>, steps: seq<Step>, w: World, m: set<Document>,
                    step: Step, next: World, madeNext: set<Document>)
    requires Run(catalog, states, made, steps) && w == states[|steps|] && m == made[|steps|]
    requires LegalStep(w, step) && Took(catalog, w, m, step, next, madeNext)
    ensures Run(catalog, states + [next], made + [madeNext], steps + [step])
  {}

  lemma TwoOutstanding(w: World, a: string, b: string, o: Order, v: string)
    requires a in w.orders && b in w.orders && w.orders[a] == o.(status := PendingApproval) && w.orders[b] == o
    requires o.status == DraftOrder && |o.items| == 1 && o.items[0].variantId == v
    ensures Outstanding(w, OrderDocument(a), v, o.destination) && Outstanding(w, OrderDocument(b), v, o.destination)
  {
    assert o.items[0] in o.items;
  }

  /** An evaluation of one rule orders from an empty store, and the order is sent for approval. */
  lemma {:induction false} OrderSentForApproval(catalog: Catalog, rule: Rule, v: string, id: string, draft: Order)
      returns (states: seq<World>, made: seq<set<Document>>, steps: seq<Step>)
    requires rule.active && !rule.dynamicRop && rule.supply.FromSupplier? && !Blank(rule.supply.supplierId)
    requires rule.reorderPoint > 0 && draft == Order(rule.locationId, [Item(v, rule.reorderQuantity)], DraftOrder)
    ensures Run(catalog, states, made, steps) && |steps| == 2 && states[0] == EMPTY && steps[1] == StockStep(PlacePurchase(id, true))
    ensures states[2] == EMPTY.(orders := map[id := draft.(status := PendingApproval)]) && made[2] == {OrderDocument(id)}
  {
    var drafted, waiting := EMPTY.(orders := map[id := draft]), EMPTY.(orders := map[id := draft.(status := PendingApproval)]);
    var first, second := EvaluationStep([rule], map[rule.sku := v], map[], [id]), StockStep(PlacePurchase(id, true));
    var m := {OrderDocument(id)};
    assert EMPTY.orders[id := draft] == map[id := draft] && {} + m == m;
    OneOrderStep(catalog, rule, v, EMPTY, id, {}, first, draft);
    OneStep(catalog, EMPTY, first, drafted, m);
    ApprovalStep(catalog, drafted, id, m, draft);
    AnotherStep(catalog, [EMPTY, drafted], [{}, m], [first], drafted, m, second, waiting, m);
    states, made, steps := [EMPTY, drafted] + [waiting], [{}, m] + [m], [first] + [second];
  }

  /** Sending it for approval lets a second one through: any rule for a supplier, evaluated from an empty store
      and again after its order went to approval, has two orders outstanding. */
  lemma {:induction false} SecondOrderWhilePending(catalog: Catalog, rule: Rule, v: string, a: string, b: string)
      returns (states: seq<World>, made: seq<set<Document>>, steps: seq<Step>)
    requires rule.active && !rule.dynamicRop && rule.supply.FromSupplier? && !Blank(rule.supply.supplierId)
    requires rule.reorderPoint > 0 && a != b
    ensures Run(catalog, states, made, steps) && |steps| == 3 && states[0] == EMPTY && steps[1] == StockStep(PlacePurchase(a, true))
    ensures made[3] == {OrderDocument(a), OrderDocument(b)}
    ensures Outstanding(states[3], OrderDocument(a), v, rule.locationId) && Outstanding(states[3], OrderDocument(b), v, rule.locationId)
  {
    var draft := Order(rule.locationId, [Item(v, rule.reorderQuantity)], DraftOrder);
    var third := EvaluationStep([rule], map[rule.sku := v], map[], [b]);
    var states2, made2, steps2 := OrderSentForApproval(catalog, rule, v, a, draft);
    var waiting, m := states2[2], made2[2];
    var last := waiting.(orders := waiting.orders[b := draft]);
    OneOrderStep(catalog, rule, v, waiting, b, m, third, draft);
    AnotherStep(catalog, states2, made2, steps2, waiting, m, third, last, m + {OrderDocument(b)});
    TwoOutstanding(last, a, b, draft, v);
    states, made, steps := states2 + [last], made2 + [m + {OrderDocument(b)}], steps2 + [third];
  }
}
