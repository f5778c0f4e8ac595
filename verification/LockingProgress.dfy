/** Whether concurrent clients all get their update in, and what the stored item then adds up to. */
module LockingProgress {
  import opened Options
  import opened InventoryItems
  import opened OptimisticLocking
  import MapSums

  // ---------- one mutator, on the item's own numbers ----------

  /** What a mutator adds on hand, to the allocation and in transit; reconciling sets what is on hand instead. */
  function Hand(m: Mutator): int {
    match m
    case ReceiveStock(n) => n
    case ReceiveInTransit(n) => n
    case DispatchStock(n) => 0 - n
    case FulfillAllocation(n) => 0 - n
    case _ => 0
  }

  function Allocated(m: Mutator): int {
    match m
    case AllocateStock(n) => n
    case ReleaseAllocation(n) => 0 - n
    case FulfillAllocation(n) => 0 - n
    case _ => 0
  }

  function Coming(m: Mutator): int {
    match m
    case CreateInTransit(n) => n
    case ReceiveInTransit(n) => 0 - n
    case CancelInTransit(n) => 0 - n
    case _ => 0
  }

  /** A mutator throws exactly when it would take one of the three below zero, or allocate more than is on hand and in
      transit beyond the allocation; otherwise it adds its amounts and a version. */
  lemma MutatorMeans(s: ItemState, m: Mutator)
    ensures var quantity, allocation, inTransit := if m.ReconcileStock? then m.amount else s.quantity + Hand(m), s.allocation + Allocated(m), s.inTransit + Coming(m);
            var possible := quantity >= 0 && allocation >= 0 && inTransit >= 0
                            && (m.AllocateStock? ==> m.amount == 0 || allocation <= s.quantity + s.inTransit);
            Apply(s, m) == if possible then Some(ItemState(quantity, allocation, inTransit, s.version + 1)) else None
  {}

  /** A batch is saved exactly when each item that is stored already is one version behind it; then the items of the batch
      are as saved, and the others as before. */
  lemma BatchMeans(rows: map<string, ItemState>, batch: map<string, ItemState>, id: string)
    ensures var saved := CommitBatch(rows, batch);
            && (saved.Some? <==> forall k :: k in batch && k in rows ==> rows[k].version + 1 == batch[k].version)
            && (saved.Some? ==> (id in saved.value <==> id in rows || id in batch))
            && (saved.Some? && id in saved.value ==> saved.value[id] == if id in batch then batch[id] else rows[id])
  {}

  /** An item that is passed several times is saved as it was passed last, and an item that is not passed is not saved. */
  lemma {:induction false} LastPassedCounts(batch: seq<InventoryItem>, i: nat)
    requires i < |batch| && forall j :: i < j < |batch| ==> batch[j].id != batch[i].id
    ensures batch[i].id in LastStates(batch) && LastStates(batch)[batch[i].id] == batch[i].State()
  {
    var n := |batch| - 1;
    if i < n {
      assert batch[n].id != batch[i].id;
      LastPassedCounts(batch[..n], i);
    }
  }

  lemma {:induction false} OnlyPassed(batch: seq<InventoryItem>, id: string) returns (i: nat)
    requires id in LastStates(batch)
    ensures i < |batch| && batch[i].id == id
  {
    i := |batch| - 1;
    if batch[i].id != id { i := OnlyPassed(batch[..i], id); }
  }

  // ---------- who is done ----------

  ghost function DoneClients(w: World): set<string> { set c | c in w.clients && w.clients[c].phase.Done? }

  /** Each commit is a client's that is done, and a client has been turned away at most once for each commit that its
      copy can have missed. */
  ghost predicate Counted(start: ItemState, w: World) {
    && |w.commits| == |DoneClients(w)|
    && forall id :: id in w.clients ==>
         && w.clients[id].attempts <= |w.commits|
         && (w.clients[id].phase.Loaded? ==> w.clients[id].attempts <= w.clients[id].phase.copy.version - start.version)
  }

  /** A save of one mutator passes exactly when nothing was committed since the load. */
  lemma OneMutatorSave(start: ItemState, w: World, id: string, item: ItemState)
    requires Inv(start, w) && id in w.clients && w.clients[id].phase.Loaded? && |w.clients[id].ops| == 1
    requires ApplyAll(w.clients[id].phase.copy, w.clients[id].ops) == Some(item)
    ensures var copy := w.clients[id].phase.copy;
            && Apply(copy, w.clients[id].ops[0]) == Some(item) && item.version == copy.version + 1
            && start.version <= copy.version <= w.stored.version == start.version + |w.commits|
            && (copy.version == w.stored.version ==> copy == w.stored)
  {
    assert ClientInv(start, w, id);
    assert w.clients[id].ops[1..] == [];
  }

  lemma OthersDone(w: World, id: string)
    requires id in w.clients && !w.clients[id].phase.Done?
    ensures id !in DoneClients(w) && |DoneClients(w)| < |w.clients|
  {
    var others := w.clients.Keys - {id};
    assert DoneClients(w) <= others && w.clients.Keys == others + {id};
    Fewer(DoneClients(w), others);
  }

  lemma {:induction false} Fewer<T>(a: set<T>, b: set<T>)
    requires a <= b
    ensures |a| <= |b|
    decreases a
  {
    if a != {} {
      var x :| x in a;
      Fewer(a - {x}, b - {x});
    }
  }

  lemma OneMoreDone(w: World, id: string, t: World)
    requires id in w.clients && !w.clients[id].phase.Done? && t.clients.Keys == w.clients.Keys && t.clients[id].phase.Done?
    requires forall c :: c in w.clients && c != id ==> t.clients[c] == w.clients[c]
    ensures DoneClients(t) == DoneClients(w) + {id} && |DoneClients(t)| == |DoneClients(w)| + 1
  {}

  lemma SameDone(w: World, id: string, t: World)
    requires id in w.clients && !w.clients[id].phase.Done? && t.clients.Keys == w.clients.Keys && !t.clients[id].phase.Done?
    requires forall c :: c in w.clients && c != id ==> t.clients[c] == w.clients[c]
    ensures DoneClients(t) == DoneClients(w)
  {}

  lemma StepCounts(start: ItemState, w: World, e: Event)
    requires Inv(start, w) && OneMutator(w) && Counted(start, w) && Enabled(w, e)
    ensures Counted(start, Next(w, e))
  {
    var c, t := w.clients[e.client], Next(w, e);
    if t.clients[e.client].phase.Done? { OneMoreDone(w, e.client, t); } else { SameDone(w, e.client, t); }
    if e.Save? && ApplyAll(c.phase.copy, c.ops).Some? {
      OneMutatorSave(start, w, e.client, ApplyAll(c.phase.copy, c.ops).value);
    }
  }

  // ---------- who gives up ----------

  /** A mutator that no item refuses. */
  predicate NeverThrows(m: Mutator) { m.ReceiveStock? || m.CreateInTransit? || m.ReconcileStock? }

  ghost predicate NobodyThrows(w: World) { forall id :: id in w.clients ==> w.clients[id].ops != [] && NeverThrows(w.clients[id].ops[0]) }

  lemma StepFailsOnly(start: ItemState, w: World, e: Event, id: string)
    requires Inv(start, w) && OneMutator(w) && Counted(start, w) && NobodyThrows(w) && Enabled(w, e)
    requires id in w.clients && !w.clients[id].phase.Failed? && Bound(w.clients[id].maxRetries) >= |w.clients| - 1
    ensures !Next(w, e).clients[id].phase.Failed?
  {
    if e.Save? && e.client == id {
      var c := w.clients[id];
      assert c.ops[1..] == [];
      OneMutatorSave(start, w, id, Apply(c.phase.copy, c.ops[0]).value);
      OthersDone(w, id);
    }
  }

  lemma StepKeepsClients(w: World, e: Event)
    requires OneMutator(w) && Enabled(w, e)
    ensures var t := Next(w, e);
            && OneMutator(t) && t.clients.Keys == w.clients.Keys && |t.clients| == |w.clients|
            && forall id :: id in w.clients ==> t.clients[id].ops == w.clients[id].ops && t.clients[id].maxRetries == w.clients[id].maxRetries
  {
    assert |w.clients| == |w.clients.Keys|;
    assert Next(w, e).clients.Keys == w.clients.Keys;
    assert |Next(w, e).clients| == |Next(w, e).clients.Keys|;
  }

  lemma {:induction false} RunFailsOnly(start: ItemState, w: World, events: seq<Event>, id: string)
    requires Inv(start, w) && OneMutator(w) && Counted(start, w) && NobodyThrows(w) && Legal(w, events)
    requires id in w.clients && !w.clients[id].phase.Failed? && Bound(w.clients[id].maxRetries) >= |w.clients| - 1
    ensures id in Run(w, events).clients && !Run(w, events).clients[id].phase.Failed?
    decreases |events|
  {
    if events != [] {
      StepKeepsInv(start, w, events[0]);
      StepCounts(start, w, events[0]);
      StepFailsOnly(start, w, events[0], id);
      StepKeepsClients(w, events[0]);
      RunFailsOnly(start, Next(w, events[0]), events[1..], id);
    }
  }

  lemma StartCounts(w: World)
    requires Initial(w)
    ensures Inv(w.stored, w) && Counted(w.stored, w) && DoneClients(w) == {}
  {}

  ghost predicate Waiting(w: World, id: string) { id in w.clients && w.clients[id].phase.Idle? }

  /** Another client loads and saves between a client's load and its save. */
  function Round(id: string, other: string, rest: seq<Event>): seq<Event> {
    [Load(id)] + ([Load(other)] + ([Save(other)] + ([Save(id)] + rest)))
  }

  lemma OneOp(s: ItemState, ops: seq<Mutator>)
    requires |ops| == 1 && NeverThrows(ops[0])
    ensures ApplyAll(s, ops).Some? && ApplyAll(s, ops).value.version == s.version + 1
  {
    assert ops[1..] == [];
    assert ApplyAll(Apply(s, ops[0]).value, ops[1..]) == Some(Apply(s, ops[0]).value);
  }

  /** The other client's save passes. */
  lemma OtherSaves(w: World, other: string) returns (t: World)
    requires OneMutator(w) && NobodyThrows(w) && Waiting(w, other)
    ensures Enabled(w, Load(other)) && Enabled(Next(w, Load(other)), Save(other)) && t == Next(Next(w, Load(other)), Save(other))
    ensures t.clients == w.clients[other := w.clients[other].(phase := Done)] && t.stored.version == w.stored.version + 1
  {
    var w1 := Next(w, Load(other));
    OneOp(w.stored, w.clients[other].ops);
    t := Next(w1, Save(other));
    assert w.clients[other := w.clients[other].(phase := Loaded(w.stored))][other := w.clients[other].(phase := Done)]
        == w.clients[other := w.clients[other].(phase := Done)];
  }

  /** A save whose copy is one version old is turned away. */
  lemma TurnedAway(w: World, id: string) returns (t: World)
    requires OneMutator(w) && NobodyThrows(w) && id in w.clients
    requires w.clients[id].phase.Loaded? && w.clients[id].phase.copy.version + 1 == w.stored.version
    ensures Enabled(w, Save(id)) && t == Next(w, Save(id))
    ensures var c := w.clients[id];
            t.clients == w.clients[id := if c.attempts < c.maxRetries then c.(attempts := c.attempts + 1, phase := Idle) else c.(phase := Failed)]
  {
    OneOp(w.clients[id].phase.copy, w.clients[id].ops);
    t := Next(w, Save(id));
  }

  ghost predicate Leads(w: World, e: Event, t: World) { Enabled(w, e) && t == Next(w, e) }

  lemma OvertakenOnce(w: World, id: string, other: string) returns (w1: World, w2: World, w3: World, t: World)
    requires OneMutator(w) && NobodyThrows(w) && Waiting(w, id) && Waiting(w, other) && other != id
    ensures Leads(w, Load(id), w1) && Leads(w1, Load(other), w2) && Leads(w2, Save(other), w3) && Leads(w3, Save(id), t)
    ensures var c := w.clients[id];
            t.clients == w.clients[id := if c.attempts < c.maxRetries then c.(attempts := c.attempts + 1) else c.(phase := Failed)]
                                  [other := w.clients[other].(phase := Done)]
  {
    w1 := Next(w, Load(id));
    w2 := Next(w1, Load(other));
    w3 := OtherSaves(w1, other);
    t := TurnedAway(w3, id);
  }

  lemma RoundRuns(w: World, w1: World, w2: World, w3: World, t: World, id: string, other: string, rest: seq<Event>)
    requires Leads(w, Load(id), w1) && Leads(w1, Load(other), w2) && Leads(w2, Save(other), w3) && Leads(w3, Save(id), t) && Legal(t, rest)
    ensures Legal(w, Round(id, other, rest)) && Run(w, Round(id, other, rest)) == Run(t, rest)
  {
    RunStep(w3, Save(id), rest);
    RunStep(w2, Save(other), [Save(id)] + rest);
    RunStep(w1, Load(other), [Save(other)] + ([Save(id)] + rest));
    RunStep(w, Load(id), [Load(other)] + ([Save(other)] + ([Save(id)] + rest)));
  }

  /** The others one after the other, until the client gives up. */
  lemma {:induction false} Overtaken(w: World, id: string, others: seq<string>) returns (events: seq<Event>)
    requires OneMutator(w) && NobodyThrows(w) && Waiting(w, id)
    requires forall i :: 0 <= i < |others| ==> Waiting(w, others[i]) && others[i] != id
    requires forall i, j :: 0 <= i < j < |others| ==> others[i] != others[j]
    requires w.clients[id].attempts <= Bound(w.clients[id].maxRetries) < w.clients[id].attempts + |others|
    ensures Legal(w, events) && id in Run(w, events).clients && Run(w, events).clients[id].phase.Failed?
    decreases |others|
  {
    var w1, w2, w3, t := OvertakenOnce(w, id, others[0]);
    events := [];
    if w.clients[id].attempts < w.clients[id].maxRetries { events := Overtaken(t, id, others[1..]); }
    RoundRuns(w, w1, w2, w3, t, id, others[0], events);
    events := Round(id, others[0], events);
  }

  lemma {:induction false} InSomeOrder(s: set<string>) returns (r: seq<string>)
    ensures |r| == |s| && (forall i :: 0 <= i < |r| ==> r[i] in s) && forall i, j :: 0 <= i < j < |r| ==> r[i] != r[j]
    decreases s
  {
    r := [];
    if s != {} {
      var x :| x in s;
      r := InSomeOrder(s - {x});
      r := r + [x];
    }
  }

  /** When each client applies one mutator that no item refuses, a client can give up, in some order of loads and saves, if
      and only if there are more other clients than it has retries. */
  lemma GivesUpIffOutnumbered(w: World, id: string)
    requires Initial(w) && OneMutator(w) && NobodyThrows(w) && id in w.clients
    ensures (exists events :: Legal(w, events) && id in Run(w, events).clients && Run(w, events).clients[id].phase.Failed?)
            <==> |w.clients| - 1 > Bound(w.clients[id].maxRetries)
  {
    if |w.clients| - 1 > Bound(w.clients[id].maxRetries) {
      assert w.clients.Keys == (w.clients.Keys - {id}) + {id};
      var others := InSomeOrder(w.clients.Keys - {id});
      var events := Overtaken(w, id, others);
    } else {
      StartCounts(w);
      forall events | Legal(w, events) ensures id in Run(w, events).clients && !Run(w, events).clients[id].phase.Failed? {
        RunFailsOnly(w.stored, w, events, id);
      }
    }
  }

  // ---------- what the updates add up to ----------

  ghost function DoneAmounts(w: World, amount: Mutator -> int): map<string, int>
    requires OneMutator(w)
  {
    map c | c in w.clients && w.clients[c].phase.Done? :: amount(w.clients[c].ops[0])
  }

  /** The sum of an amount over the clients that are done. */
  ghost function SumDone(w: World, amount: Mutator -> int): int
    requires OneMutator(w)
  {
    MapSums.Sum(DoneAmounts(w, amount))
  }

  ghost predicate AddsUp(start: ItemState, w: World)
    requires OneMutator(w)
  {
    && w.stored.quantity == start.quantity + SumDone(w, Hand)
    && w.stored.allocation == start.allocation + SumDone(w, Allocated)
    && w.stored.inTransit == start.inTransit + SumDone(w, Coming)
  }

  lemma AmountsOneMore(w: World, id: string, t: World, amount: Mutator -> int)
    requires OneMutator(w) && OneMutator(t) && id in w.clients && !w.clients[id].phase.Done? && t.clients.Keys == w.clients.Keys
    requires t.clients[id].ops == w.clients[id].ops && forall c :: c in w.clients && c != id ==> t.clients[c] == w.clients[c]
    ensures id !in DoneAmounts(w, amount)
    ensures DoneAmounts(t, amount) == if t.clients[id].phase.Done? then DoneAmounts(w, amount)[id := amount(w.clients[id].ops[0])]
                                                                   else DoneAmounts(w, amount)
  {}

  lemma SumOneMore(w: World, id: string, t: World, amount: Mutator -> int)
    requires OneMutator(w) && OneMutator(t) && id in w.clients && !w.clients[id].phase.Done? && t.clients.Keys == w.clients.Keys
    requires t.clients[id].ops == w.clients[id].ops && forall c :: c in w.clients && c != id ==> t.clients[c] == w.clients[c]
    ensures SumDone(t, amount) == SumDone(w, amount) + if t.clients[id].phase.Done? then amount(w.clients[id].ops[0]) else 0
  {
    AmountsOneMore(w, id, t, amount);
    MapSums.SumUpdate(DoneAmounts(w, amount), id, amount(w.clients[id].ops[0]));
  }

  lemma StepAddsUp(start: ItemState, w: World, e: Event)
    requires Inv(start, w) && OneMutator(w) && AddsUp(start, w) && Enabled(w, e) && !w.clients[e.client].ops[0].ReconcileStock?
    ensures OneMutator(Next(w, e)) && AddsUp(start, Next(w, e))
  {
    var c, t := w.clients[e.client], Next(w, e);
    StepKeepsClients(w, e);
    SumOneMore(w, e.client, t, Hand);
    SumOneMore(w, e.client, t, Allocated);
    SumOneMore(w, e.client, t, Coming);
    if t.clients[e.client].phase.Done? {
      OneMutatorSave(start, w, e.client, ApplyAll(c.phase.copy, c.ops).value);
      MutatorMeans(c.phase.copy, c.ops[0]);
    }
  }

  ghost predicate NobodyReconciles(w: World) { forall id :: id in w.clients ==> w.clients[id].ops != [] && !w.clients[id].ops[0].ReconcileStock? }

  lemma {:induction false} RunAddsUp(start: ItemState, w: World, events: seq<Event>)
    requires Inv(start, w) && OneMutator(w) && AddsUp(start, w) && NobodyReconciles(w) && Legal(w, events)
    ensures OneMutator(Run(w, events)) && AddsUp(start, Run(w, events))
    decreases |events|
  {
    if events != [] {
      StepKeepsInv(start, w, events[0]);
      StepAddsUp(start, w, events[0]);
      StepKeepsClients(w, events[0]);
      RunAddsUp(start, Next(w, events[0]), events[1..]);
    }
  }

  /** In every interleaving of clients with one mutator each, the stored item is the first one plus what the clients that
      are done received, dispatched, allocated and so on. */
  lemma UpdatesAddUp(w: World, events: seq<Event>)
    requires Initial(w) && Legal(w, events) && OneMutator(w) && NobodyReconciles(w)
    ensures OneMutator(Run(w, events)) && AddsUp(w.stored, Run(w, events))
  {
    StartCounts(w);
    NobodyDone(w, Hand);
    NobodyDone(w, Allocated);
    NobodyDone(w, Coming);
    RunAddsUp(w.stored, w, events);
  }

  lemma NobodyDone(w: World, amount: Mutator -> int)
    requires Initial(w) && OneMutator(w)
    ensures SumDone(w, amount) == 0
  {
    assert DoneAmounts(w, amount) == map[];
  }
}
