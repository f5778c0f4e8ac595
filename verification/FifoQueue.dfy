/** Whole runs of receipts and FIFO consumptions: the stored layers refine a queue of unit costs. */
module FifoQueue {
  import opened Sorting
  import opened CostLayers
  import opened CostLayerStore

  datatype Operation = Receive(layer: Layer) | Consume(variantId: string, quantity: int)

  function Step(rows: seq<Layer>, op: Operation): (Outcome, seq<Layer>) {
    match op
    case Receive(layer) => (Charged(0), Upsert(rows, layer))
    case Consume(variantId, quantity) => ConsumeLayers(rows, variantId, quantity, FIFO)
  }

  /** A receipt saves a new, valid, untouched layer, received no earlier than its variant's others. */
  ghost predicate Legal(rows: seq<Layer>, op: Operation) {
    op.Receive? ==>
      op.layer.Valid() && op.layer.consumed == 0 && !HasId(rows, op.layer.id) &&
      forall i :: 0 <= i < |rows| && rows[i].variantId == op.layer.variantId ==> rows[i].receivedAt <= op.layer.receivedAt
  }

  /** The specification: a FIFO queue of individual unit costs, for the variant being watched. */
  ghost function QueueStep(queue: seq<int>, op: Operation, watched: string): (Outcome, seq<int>) {
    match op
    case Receive(layer) =>
      (Charged(0), if layer.variantId == watched && layer.initial >= 0 then queue + Repeat(layer.unitCost, layer.initial) else queue)
    case Consume(variantId, quantity) =>
      if variantId != watched then (Charged(0), queue)
      else if quantity > |queue| then (Failed, queue)
      else var n := Clamp(quantity, |queue|); (Charged(Sum(queue[..n])), queue[n..])
  }

  /** Final table and, per operation on the watched variant, its outcome. */
  function Run(rows: seq<Layer>, ops: seq<Operation>, watched: string): (seq<Outcome>, seq<Layer>)
    decreases |ops|
  {
    if ops == [] then ([], rows)
    else
      var (outcome, next) := Step(rows, ops[0]);
      var (outcomes, last) := Run(next, ops[1..], watched);
      ((if ops[0].Consume? && ops[0].variantId == watched then [outcome] else []) + outcomes, last)
  }

  ghost function QueueRun(queue: seq<int>, ops: seq<Operation>, watched: string): (seq<Outcome>, seq<int>)
    decreases |ops|
  {
    if ops == [] then ([], queue)
    else
      var (outcome, next) := QueueStep(queue, ops[0], watched);
      var (outcomes, last) := QueueRun(next, ops[1..], watched);
      ((if ops[0].Consume? && ops[0].variantId == watched then [outcome] else []) + outcomes, last)
  }

  ghost predicate LegalRun(rows: seq<Layer>, ops: seq<Operation>)
    decreases |ops|
  {
    ops == [] || (Legal(rows, ops[0]) && LegalRun(Step(rows, ops[0]).1, ops[1..]))
  }

  /** The queue a table stands for. */
  ghost function Queue(rows: seq<Layer>, watched: string): seq<int>
    requires AllValid(rows)
  {
    LineValid(rows, watched, FIFO);
    Units(Line(rows, watched, FIFO))
  }

  ghost predicate Inv(rows: seq<Layer>, watched: string) {
    Table(rows) && ConsumedInOrder(Line(rows, watched, FIFO))
  }

  lemma {:induction false} FilterAppend(rows: seq<Layer>, l: Layer, p: Layer -> bool)
    ensures Filter(rows + [l], p) == Filter(rows, p) + if p(l) then [l] else []
  {
    if rows == [] {
      assert rows + [l] == [l];
    } else {
      assert (rows + [l])[1..] == rows[1..] + [l];
      FilterAppend(rows[1..], l, p);
    }
  }

  lemma {:induction false} InsertAppend(x: Layer, s: seq<Layer>, l: Layer)
    requires x.receivedAt <= l.receivedAt
    ensures Insert(x, s + [l], ByReceipt) == Insert(x, s, ByReceipt) + [l]
  {
    if s == [] {
      assert s + [l] == [l];
    } else {
      assert (s + [l])[1..] == s[1..] + [l];
      InsertAppend(x, s[1..], l);
    }
  }

  lemma {:induction false} SortAppend(s: seq<Layer>, l: Layer)
    requires forall i :: 0 <= i < |s| ==> s[i].receivedAt <= l.receivedAt
    ensures StableSort(s + [l], ByReceipt) == StableSort(s, ByReceipt) + [l]
  {
    if s == [] {
      assert s + [l] == [l];
    } else {
      assert (s + [l])[1..] == s[1..] + [l];
      SortAppend(s[1..], l);
      InsertAppend(s[0], StableSort(s[1..], ByReceipt), l);
    }
  }

  lemma {:induction false} UnitsAppend(s: seq<Layer>, l: Layer)
    requires AllValid(s) && l.Valid()
    ensures Units(s + [l]) == Units(s) + Repeat(l.unitCost, l.Remaining())
  {
    if s == [] {
      assert s + [l] == [l];
    } else {
      assert (s + [l])[1..] == s[1..] + [l];
      UnitsAppend(s[1..], l);
    }
  }

  /** A receipt appends its units to its variant's queue and leaves other queues alone. */
  lemma ReceiveEffect(rows: seq<Layer>, l: Layer, watched: string)
    requires Inv(rows, watched) && Legal(rows, Receive(l))
    ensures var rows' := Upsert(rows, l);
            Inv(rows', watched) &&
            Queue(rows', watched) == Queue(rows, watched) + if l.variantId == watched then Repeat(l.unitCost, l.initial) else []
  {
    var rows' := rows + [l];
    assert Differ(rows', Id);
    FilterAppend(rows, l, IsVariant(watched));
    if l.variantId == watched {
      var own := Filter(rows, IsVariant(watched));
      forall i | 0 <= i < |own| ensures own[i].receivedAt <= l.receivedAt {
        var j := FilterFrom(rows, IsVariant(watched), i);
      }
      SortAppend(own, l);
      LineValid(rows, watched, FIFO);
      UnitsAppend(Line(rows, watched, FIFO), l);
    } else {
      assert Filter(rows', IsVariant(watched)) == Filter(rows, IsVariant(watched));
    }
  }

  /** One step of the table is one step of the queue. */
  lemma StepRefines(rows: seq<Layer>, op: Operation, watched: string)
    requires Inv(rows, watched) && Legal(rows, op)
    ensures var (outcome, rows') := Step(rows, op);
            var (outcome', queue') := QueueStep(Queue(rows, watched), op, watched);
            Inv(rows', watched) && Queue(rows', watched) == queue' &&
            (op.Consume? && op.variantId == watched ==> outcome == outcome')
  {
    match op
    case Receive(l) => ReceiveEffect(rows, l, watched);
    case Consume(variantId, quantity) =>
      ConsumeLayersEffect(rows, variantId, quantity, FIFO);
      if variantId == watched {
        LineValid(rows, watched, FIFO);
        DrawTakesPrefix(Line(rows, watched, FIFO), quantity);
        DrawKeepsOrder(Line(rows, watched, FIFO), quantity);
      }
  }

  /** Over every legal run: each consumption of q units succeeds iff the queue holds q, charges the
      first q unit costs and drops exactly them, and at most one layer is ever partly consumed. */
  lemma {:induction false} RunRefinesQueue(rows: seq<Layer>, ops: seq<Operation>, watched: string)
    requires Inv(rows, watched) && LegalRun(rows, ops)
    ensures Inv(Run(rows, ops, watched).1, watched)
    ensures Run(rows, ops, watched).0 == QueueRun(Queue(rows, watched), ops, watched).0
    ensures Queue(Run(rows, ops, watched).1, watched) == QueueRun(Queue(rows, watched), ops, watched).1
    decreases |ops|
  {
    if ops != [] {
      StepRefines(rows, ops[0], watched);
      RunRefinesQueue(Step(rows, ops[0]).1, ops[1..], watched);
    }
  }
}
