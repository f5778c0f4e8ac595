/** The inventory item aggregate, and the two repositories that guard it with a version number.
    A Quantity is non-negative by construction, so amounts are natural numbers. */
module InventoryItems {
  import opened Options

  datatype ItemState = ItemState(quantity: nat, allocation: nat, inTransit: nat, version: int)
  {
    function Available(): nat {
      if quantity - allocation + inTransit < 0 then 0 else quantity - allocation + inTransit
    }
  }

  const NEW_ITEM := ItemState(0, 0, 0, 1)

  datatype Mutator =
    | ReceiveStock(amount: nat) | DispatchStock(amount: nat)
    | AllocateStock(amount: nat) | ReleaseAllocation(amount: nat) | FulfillAllocation(amount: nat)
    | CreateInTransit(amount: nat) | ReceiveInTransit(amount: nat) | CancelInTransit(amount: nat)
    | ReconcileStock(amount: nat)

  /** What a mutator does to an item; None when it throws, in which case it has changed nothing. */
  function Apply(s: ItemState, m: Mutator): (r: Option<ItemState>)
    ensures r.Some? ==> r.value.version == s.version + 1
  {
    var next := s.version + 1;
    match m
    case ReceiveStock(n) => Some(s.(quantity := s.quantity + n, version := next))
    case DispatchStock(n) => if s.quantity < n then None else Some(s.(quantity := s.quantity - n, version := next))
    case AllocateStock(n) => if s.Available() < n then None else Some(s.(allocation := s.allocation + n, version := next))
    case ReleaseAllocation(n) => if s.allocation < n then None else Some(s.(allocation := s.allocation - n, version := next))
    case FulfillAllocation(n) =>
      if s.allocation < n || s.quantity < n then None
      else Some(s.(allocation := s.allocation - n, quantity := s.quantity - n, version := next))
    case CreateInTransit(n) => Some(s.(inTransit := s.inTransit + n, version := next))
    case ReceiveInTransit(n) =>
      if s.inTransit < n then None
      else Some(s.(inTransit := s.inTransit - n, quantity := s.quantity + n, version := next))
    case CancelInTransit(n) => if s.inTransit < n then None else Some(s.(inTransit := s.inTransit - n, version := next))
    case ReconcileStock(n) => Some(s.(quantity := n, version := next))
  }

  /** Several mutators on one loaded copy, before a single save. */
  function ApplyAll(s: ItemState, ms: seq<Mutator>): (r: Option<ItemState>)
    ensures r.Some? ==> r.value.version == s.version + |ms|
    decreases |ms|
  {
    if ms == [] then Some(s)
    else match Apply(s, ms[0])
      case None => None
      case Some(t) => ApplyAll(t, ms[1..])
  }

  class InventoryItem {
    const id: string
    var quantity: nat
    var allocation: nat
    var inTransit: nat
    var version: int

    constructor (id: string, s: ItemState)
      ensures this.id == id && State() == s
    {
      this.id, quantity, allocation, inTransit, version := id, s.quantity, s.allocation, s.inTransit, s.version;
    }

    function State(): ItemState
      reads this
    {
      ItemState(quantity, allocation, inTransit, version)
    }

    ghost predicate Becomes(before: ItemState, m: Mutator, ok: bool)
      reads this
    {
      ok == Apply(before, m).Some? && State() == if ok then Apply(before, m).value else before
    }

    method IncrementVersion()
      modifies this`version
      ensures version == old(version) + 1
    {
      version := version + 1;
    }

    method Receive(amount: nat) returns (ok: bool)
      modifies this
      ensures Becomes(old(State()), ReceiveStock(amount), ok)
    {
      quantity := quantity + amount;
      IncrementVersion();
      ok := true;
    }

    method Dispatch(amount: nat) returns (ok: bool)
      modifies this
      ensures Becomes(old(State()), DispatchStock(amount), ok)
    {
      if quantity < amount { return false; }
      quantity := quantity - amount;
      IncrementVersion();
      ok := true;
    }

    method Allocate(amount: nat) returns (ok: bool)
      modifies this
      ensures Becomes(old(State()), AllocateStock(amount), ok)
    {
      if State().Available() < amount { return false; }
      allocation := allocation + amount;
      IncrementVersion();
      ok := true;
    }

    method Release(amount: nat) returns (ok: bool)
      modifies this
      ensures Becomes(old(State()), ReleaseAllocation(amount), ok)
    {
      if allocation < amount { return false; }
      allocation := allocation - amount;
      IncrementVersion();
      ok := true;
    }

    method Fulfill(amount: nat) returns (ok: bool)
      modifies this
      ensures Becomes(old(State()), FulfillAllocation(amount), ok)
    {
      if allocation < amount { return false; }
      if quantity < amount { return false; }
      allocation := allocation - amount;
      quantity := quantity - amount;
      IncrementVersion();
      ok := true;
    }

    method AddInTransit(amount: nat) returns (ok: bool)
      modifies this
      ensures Becomes(old(State()), CreateInTransit(amount), ok) && ok
    {
      inTransit := inTransit + amount;
      IncrementVersion();
      ok := true;
    }

    method ArriveInTransit(amount: nat) returns (ok: bool)
      modifies this
      ensures Becomes(old(State()), ReceiveInTransit(amount), ok)
    {
      if inTransit < amount { return false; }
      inTransit := inTransit - amount;
      quantity := quantity + amount;
      IncrementVersion();
      ok := true;
    }

    method DropInTransit(amount: nat) returns (ok: bool)
      modifies this
      ensures Becomes(old(State()), CancelInTransit(amount), ok)
    {
      if inTransit < amount { return false; }
      inTransit := inTransit - amount;
      IncrementVersion();
      ok := true;
    }

    method Reconcile(actual: nat) returns (ok: bool)
      modifies this
      ensures Becomes(old(State()), ReconcileStock(actual), ok)
    {
      quantity := actual;
      IncrementVersion();
      ok := true;
    }
  }

  // ---------- repositories ----------

  /** The optimistic check: an existing row must be one version behind what is saved. */
  predicate Accepts<K>(store: map<K, ItemState>, k: K, item: ItemState) {
    k in store ==> store[k].version == item.version - 1
  }

  /** `saveBatch` on Postgres: every row passes the check and all are written, or nothing is. */
  function CommitBatch<K>(store: map<K, ItemState>, batch: map<K, ItemState>): Option<map<K, ItemState>> {
    if forall k :: k in batch ==> Accepts(store, k, batch[k]) then Some(store + batch) else None
  }

  class InMemoryInventoryRepository {
    var items: map<string, ItemState>

    constructor ()
      ensures items == map[]
    {
      items := map[];
    }

    /** Reads hand out a copy: later changes to it do not reach the repository. */
    method FindById(id: string) returns (item: InventoryItem?)
      ensures item == null <==> id !in items
      ensures item != null ==> fresh(item) && item.id == id && item.State() == items[id]
    {
      if id !in items { return null; }
      item := new InventoryItem(id, items[id]);
    }

    method Save(item: InventoryItem) returns (ok: bool)
      modifies this
      ensures ok == Accepts(old(items), item.id, item.State())
      ensures items == if ok then old(items)[item.id := item.State()] else old(items)
    {
      if item.id in items && items[item.id].version != item.version - 1 { return false; }
      items := items[item.id := item.State()];
      ok := true;
    }
  }

  class PostgresInventoryRepository {
    var rows: map<string, ItemState>

    constructor ()
      ensures rows == map[]
    {
      rows := map[];
    }

    /** Repeated items are saved once, as last passed; one stale row rolls the whole batch back. */
    method SaveBatch(batch: seq<InventoryItem>) returns (ok: bool)
      modifies this
      ensures var c := CommitBatch(old(rows), old(LastStates(batch)));
              ok == c.Some? && rows == if ok then c.value else old(rows)
    {
      var uniqueItems := UniqueItems(batch);
      ok := UpdateRows(uniqueItems);
    }

    /** The guarded update, row by row inside the transaction. */
    method UpdateRows(uniqueItems: map<string, ItemState>) returns (ok: bool)
      modifies this
      ensures var c := CommitBatch(old(rows), uniqueItems);
              ok == c.Some? && rows == if ok then c.value else old(rows)
    {
      var pending := uniqueItems.Keys;
      while pending != {}
        invariant rows == old(rows) && pending <= uniqueItems.Keys
        invariant forall k :: k in uniqueItems && k !in pending ==> Accepts(rows, k, uniqueItems[k])
        decreases |pending|
      {
        var id :| id in pending;
        if id in rows && rows[id].version != uniqueItems[id].version - 1 { return false; }
        pending := pending - {id};
      }
      rows := rows + uniqueItems;
      ok := true;
    }
  }

  method UniqueItems(batch: seq<InventoryItem>) returns (uniqueItems: map<string, ItemState>)
    ensures uniqueItems == LastStates(batch)
  {
    uniqueItems := map[];
    for i := 0 to |batch|
      invariant uniqueItems == LastStates(batch[..i])
    {
      assert batch[..i + 1][..i] == batch[..i];
      uniqueItems := uniqueItems[batch[i].id := batch[i].State()];
    }
    assert batch[..|batch|] == batch;
  }

  function LastStates(batch: seq<InventoryItem>): map<string, ItemState>
    reads batch
  {
    if batch == [] then map[]
    else LastStates(batch[..|batch| - 1])[batch[|batch| - 1].id := batch[|batch| - 1].State()]
  }
}
