/** Stock transfers and purchase orders over inventory items. A use case loads the items it needs, changes
    the loaded copies, saves them as one versioned batch, appends ledger entries and saves the document; it
    is one atomic step here. Line quantities are positive integers. */
module StockOrders {
  import opened Options
  import opened InventoryItems

  datatype Place = Place(sku: string, location: string)

  type Rows = map<Place, ItemState>

  datatype Item = Item(variantId: string, quantity: nat)

  datatype Line = Line(sku: string, quantity: nat)

  datatype TransferStatus = Draft | Dispatched | Received | Cancelled

  datatype Transfer = Transfer(source: string, destination: string, items: seq<Item>, status: TransferStatus)

  datatype OrderStatus = DraftOrder | PendingApproval | Ordered | ReceivedOrder | CancelledOrder

  datatype Order = Order(destination: string, items: seq<Item>, status: OrderStatus)

  datatype Entry = Entry(place: Place, quantity: int)

  /** Variant ids to SKUs. */
  type Catalog = map<string, string>

  // ---------- documents ----------

  class StockTransfer {
    const source: string
    const destination: string
    const items: seq<Item>
    var status: TransferStatus

    constructor (t: Transfer)
      ensures Value() == t
    {
      source, destination, items, status := t.source, t.destination, t.items, t.status;
    }

    function Value(): Transfer
      reads this
    {
      Transfer(source, destination, items, status)
    }

    method Dispatch() returns (ok: bool)
      modifies this
      ensures ok == (old(status) == Draft) && Value() == old(Value()).(status := if ok then Dispatched else old(status))
    {
      ok := status == Draft;
      if ok { status := Dispatched; }
    }

    method Receive() returns (ok: bool)
      modifies this
      ensures ok == (old(status) == Dispatched) && Value() == old(Value()).(status := if ok then Received else old(status))
    {
      ok := status == Dispatched;
      if ok { status := Received; }
    }

    method Cancel() returns (ok: bool)
      modifies this
      ensures ok == (old(status) == Draft || old(status) == Dispatched)
      ensures Value() == old(Value()).(status := if ok then Cancelled else old(status))
    {
      if status == Received || status == Cancelled { return false; }
      status := Cancelled;
      ok := true;
    }
  }

  class PurchaseOrder {
    const destination: string
    const items: seq<Item>
    var status: OrderStatus

    constructor (o: Order)
      ensures Value() == o
    {
      destination, items, status := o.destination, o.items, o.status;
    }

    function Value(): Order
      reads this
    {
      Order(destination, items, status)
    }

    method Place() returns (ok: bool)
      modifies this
      ensures ok == (old(status) == DraftOrder) && Value() == old(Value()).(status := if ok then Ordered else old(status))
    {
      ok := status == DraftOrder;
      if ok { status := Ordered; }
    }

    method MarkPendingApproval() returns (ok: bool)
      modifies this
      ensures ok == (old(status) == DraftOrder) && Value() == old(Value()).(status := if ok then PendingApproval else old(status))
    {
      ok := status == DraftOrder;
      if ok { status := PendingApproval; }
    }

    method Receive() returns (ok: bool)
      modifies this
      ensures ok == (old(status) == Ordered) && Value() == old(Value()).(status := if ok then ReceivedOrder else old(status))
    {
      ok := status == Ordered;
      if ok { status := ReceivedOrder; }
    }

    method Cancel() returns (ok: bool)
      modifies this
      ensures ok == (old(status) != ReceivedOrder && old(status) != CancelledOrder)
      ensures Value() == old(Value()).(status := if ok then CancelledOrder else old(status))
    {
      if status == ReceivedOrder || status == CancelledOrder { return false; }
      status := CancelledOrder;
      ok := true;
    }
  }

  // ---------- editing loaded items ----------

  /** What a use case does when it finds no item at a place. */
  datatype Policy = CreateMissing | RequireExisting | SkipMissing

  datatype Kind = DispatchKind | ReturnKind | CreateKind | ArriveKind | DropKind

  /** One of the things a use case does for every line, at one location. */
  datatype Leg = Leg(location: string, kind: Kind, policy: Policy)

  function MutatorOf(kind: Kind, quantity: nat): Mutator {
    match kind
    case DispatchKind => DispatchStock(quantity)
    case ReturnKind => ReceiveStock(quantity)
    case CreateKind => CreateInTransit(quantity)
    case ArriveKind => ReceiveInTransit(quantity)
    case DropKind => CancelInTransit(quantity)
  }

  /** The item a use case works on at a place: the copy it already has, else the stored one. */
  function Current(rows: Rows, batch: Rows, p: Place): Option<ItemState> {
    if p in batch then Some(batch[p]) else if p in rows then Some(rows[p]) else None
  }

  /** One mutator on one loaded item; the batch is what will be saved. */
  function Edit(rows: Rows, batch: Rows, line: Line, leg: Leg): Option<Rows> {
    var p, m := Place(line.sku, leg.location), MutatorOf(leg.kind, line.quantity);
    match Current(rows, batch, p)
    case None =>
      (match leg.policy
       case RequireExisting => None
       case SkipMissing => Some(batch)
       case CreateMissing => var t := Apply(NEW_ITEM, m); if t.None? then None else Some(batch[p := t.value]))
    case Some(s) => var t := Apply(s, m); if t.None? then None else Some(batch[p := t.value])
  }

  function EditLine(rows: Rows, batch: Rows, line: Line, legs: seq<Leg>): Option<Rows> {
    if legs == [] then Some(batch)
    else match EditLine(rows, batch, line, legs[..|legs| - 1])
      case None => None
      case Some(b) => Edit(rows, b, line, legs[|legs| - 1])
  }

  /** The batch after all lines. */
  function EditLines(rows: Rows, lines: seq<Line>, legs: seq<Leg>): Option<Rows> {
    if lines == [] then Some(map[])
    else match EditLines(rows, lines[..|lines| - 1], legs)
      case None => None
      case Some(b) => EditLine(rows, b, lines[|lines| - 1], legs)
  }

  /** The edits followed by the versioned save. */
  function Saved(rows: Rows, lines: seq<Line>, legs: seq<Leg>): Option<Rows> {
    match EditLines(rows, lines, legs)
    case None => None
    case Some(batch) => CommitBatch(rows, batch)
  }

  function Resolve(catalog: Catalog, items: seq<Item>): Option<seq<Line>> {
    if items == [] then Some([])
    else
      var item := items[|items| - 1];
      match Resolve(catalog, items[..|items| - 1])
      case None => None
      case Some(lines) =>
        if item.variantId !in catalog || catalog[item.variantId] == "" then None
        else Some(lines + [Line(catalog[item.variantId], item.quantity)])
  }

  function Entries(lines: seq<Line>, location: string, sign: int): seq<Entry> {
    seq(|lines|, i requires 0 <= i < |lines| => Entry(Place(lines[i].sku, location), sign * lines[i].quantity))
  }

  // ---------- the use cases as functions; None when they throw, with nothing stored ----------

  datatype World = World(inventory: Rows, ledger: seq<Entry>, transfers: map<string, Transfer>, orders: map<string, Order>)

  function DispatchLegs(t: Transfer): seq<Leg> {
    [Leg(t.source, DispatchKind, RequireExisting), Leg(t.destination, CreateKind, CreateMissing)]
  }

  function UndoLegs(t: Transfer): seq<Leg> {
    [Leg(t.source, ReturnKind, CreateMissing), Leg(t.destination, DropKind, SkipMissing)]
  }

  /** Apply the legs to a document's lines, save, and append the entries. */
  function Carry(w: World, catalog: Catalog, items: seq<Item>, legs: seq<Leg>, location: string, sign: int): Option<World> {
    match Resolve(catalog, items)
    case None => None
    case Some(lines) =>
      match Saved(w.inventory, lines, legs)
      case None => None
      case Some(rows) =>
        Some(w.(inventory := rows, ledger := if sign == 0 then w.ledger else w.ledger + Entries(lines, location, sign)))
  }

  function Dispatch(w: World, catalog: Catalog, id: string): Option<World> {
    if id !in w.transfers || w.transfers[id].status != Draft then None
    else
      var t := w.transfers[id];
      match Carry(w, catalog, t.items, DispatchLegs(t), t.source, -1)
      case None => None
      case Some(next) => Some(next.(transfers := w.transfers[id := t.(status := Dispatched)]))
  }

  function Receive(w: World, catalog: Catalog, id: string): Option<World> {
    if id !in w.transfers || w.transfers[id].status != Dispatched then None
    else
      var t := w.transfers[id];
      match Carry(w, catalog, t.items, [Leg(t.destination, ArriveKind, RequireExisting)], t.destination, 1)
      case None => None
      case Some(next) => Some(next.(transfers := w.transfers[id := t.(status := Received)]))
  }

  function Cancel(w: World, catalog: Catalog, id: string): Option<World> {
    if id !in w.transfers || w.transfers[id].status == Received || w.transfers[id].status == Cancelled then None
    else
      var t := w.transfers[id];
      var done := w.transfers[id := t.(status := Cancelled)];
      if t.status == Draft then Some(w.(transfers := done))
      else match Carry(w, catalog, t.items, UndoLegs(t), t.source, 1)
        case None => None
        case Some(next) => Some(next.(transfers := done))
  }

  function PlaceOrder(w: World, catalog: Catalog, id: string, intercepted: bool): Option<World> {
    if id !in w.orders || w.orders[id].status != DraftOrder then None
    else
      var o := w.orders[id];
      if intercepted then Some(w.(orders := w.orders[id := o.(status := PendingApproval)]))
      else match Carry(w, catalog, o.items, [Leg(o.destination, CreateKind, CreateMissing)], o.destination, 0)
        case None => None
        case Some(next) => Some(next.(orders := w.orders[id := o.(status := Ordered)]))
  }

  function ReceiveOrder(w: World, catalog: Catalog, id: string): Option<World> {
    if id !in w.orders || w.orders[id].status != Ordered then None
    else
      var o := w.orders[id];
      match Carry(w, catalog, o.items, [Leg(o.destination, ArriveKind, RequireExisting)], o.destination, 1)
      case None => None
      case Some(next) => Some(next.(orders := w.orders[id := o.(status := ReceivedOrder)]))
  }

  function CancelOrder(w: World, catalog: Catalog, id: string): Option<World> {
    if id !in w.orders || w.orders[id].status == ReceivedOrder || w.orders[id].status == CancelledOrder then None
    else
      var o := w.orders[id];
      var done := w.orders[id := o.(status := CancelledOrder)];
      if o.status != Ordered then Some(w.(orders := done))
      else match Carry(w, catalog, o.items, [Leg(o.destination, DropKind, SkipMissing)], o.destination, 0)
        case None => None
        case Some(next) => Some(next.(orders := done))
  }

  lemma ResolveMore(catalog: Catalog, items: seq<Item>, item: Item)
    ensures Resolve(catalog, items + [item])
         == match Resolve(catalog, items)
            case None => None
            case Some(lines) =>
              if item.variantId !in catalog || catalog[item.variantId] == "" then None
              else Some(lines + [Line(catalog[item.variantId], item.quantity)])
  {
    assert (items + [item])[..|items|] == items;
  }

  lemma EditMore(rows: Rows, lines: seq<Line>, line: Line, legs: seq<Leg>)
    ensures EditLines(rows, lines + [line], legs)
         == match EditLines(rows, lines, legs) case None => None case Some(batch) => EditLine(rows, batch, line, legs)
  {
    assert (lines + [line])[..|lines|] == lines;
  }

  lemma EditLineMore(rows: Rows, batch: Rows, line: Line, legs: seq<Leg>, leg: Leg)
    ensures EditLine(rows, batch, line, legs + [leg])
         == match EditLine(rows, batch, line, legs) case None => None case Some(next) => Edit(rows, next, line, leg)
  {
    assert (legs + [leg])[..|legs|] == legs;
  }

  // ---------- the use cases as code ----------

  class StockControl {
    const catalog: Catalog
    var inventory: Rows
    var ledger: seq<Entry>
    var transfers: map<string, Transfer>
    var orders: map<string, Order>

    constructor (catalog: Catalog)
      ensures this.catalog == catalog && State() == World(map[], [], map[], map[])
    {
      this.catalog, inventory, ledger, transfers, orders := catalog, map[], [], map[], map[];
    }

    function State(): World
      reads this
    {
      World(inventory, ledger, transfers, orders)
    }

    ghost predicate Becomes(before: World, next: Option<World>, ok: bool)
      reads this
    {
      ok == next.Some? && State() == if ok then next.value else before
    }

    method ResolveLines(items: seq<Item>) returns (lines: Option<seq<Line>>)
      ensures lines == Resolve(catalog, items)
    {
      var found := [];
      ghost var done := [];
      for i := 0 to |items|
        invariant done == items[..i] && Resolve(catalog, done) == Some(found)
      {
        ResolveMore(catalog, done, items[i]);
        done := done + [items[i]];
        if items[i].variantId !in catalog || catalog[items[i].variantId] == "" {
          assert items[..i + 1] == done;
          Unresolved(catalog, items, i + 1);
          return None;
        }
        found := found + [Line(catalog[items[i].variantId], items[i].quantity)];
      }
      assert done == items;
      lines := Some(found);
    }

    /** The loop over the lines: load or create, mutate, remember to save. */
    method EditItems(lines: seq<Line>, legs: seq<Leg>) returns (itemsToSave: Option<Rows>)
      ensures itemsToSave == EditLines(inventory, lines, legs)
    {
      var batch: Rows := map[];
      ghost var done := [];
      for i := 0 to |lines|
        invariant done == lines[..i] && EditLines(inventory, done, legs) == Some(batch)
      {
        EditMore(inventory, done, lines[i], legs);
        done := done + [lines[i]];
        var next := EditLegs(batch, lines[i], legs);
        if next.None? {
          assert lines[..i + 1] == done;
          Unedited(inventory, lines, legs, i + 1);
          return None;
        }
        batch := next.value;
      }
      assert done == lines;
      itemsToSave := Some(batch);
    }

    method EditLegs(batch: Rows, line: Line, legs: seq<Leg>) returns (r: Option<Rows>)
      ensures r == EditLine(inventory, batch, line, legs)
    {
      var current := batch;
      ghost var done := [];
      for i := 0 to |legs|
        invariant done == legs[..i] && EditLine(inventory, batch, line, done) == Some(current)
      {
        EditLineMore(inventory, batch, line, done, legs[i]);
        done := done + [legs[i]];
        var next := EditItem(current, line, legs[i]);
        if next.None? {
          assert legs[..i + 1] == done;
          UneditedLine(inventory, batch, line, legs, i + 1);
          return None;
        }
        current := next.value;
      }
      assert done == legs;
      r := Some(current);
    }

    /** One item: found among the loaded ones or created, mutated through its own method. */
    method EditItem(batch: Rows, line: Line, leg: Leg) returns (r: Option<Rows>)
      ensures r == Edit(inventory, batch, line, leg)
    {
      var p := Place(line.sku, leg.location);
      var loaded := Current(inventory, batch, p);
      if loaded.None? && leg.policy == RequireExisting { return None; }
      if loaded.None? && leg.policy == SkipMissing { return Some(batch); }
      var item := new InventoryItem(line.sku, if loaded.Some? then loaded.value else NEW_ITEM);
      var ok;
      match leg.kind {
        case DispatchKind => ok := item.Dispatch(line.quantity);
        case ReturnKind => ok := item.Receive(line.quantity);
        case CreateKind => ok := item.AddInTransit(line.quantity);
        case ArriveKind => ok := item.ArriveInTransit(line.quantity);
        case DropKind => ok := item.DropInTransit(line.quantity);
      }
      r := if ok then Some(batch[p := item.State()]) else None;
    }

    /** Resolve, edit, save the batch under its version check, append to the ledger. */
    method CarryOut(items: seq<Item>, legs: seq<Leg>, location: string, sign: int) returns (ok: bool)
      modifies this
      ensures Becomes(old(State()), Carry(old(State()), catalog, items, legs, location, sign), ok)
    {
      var lines := ResolveLines(items);
      if lines.None? { return false; }
      var itemsToSave := EditItems(lines.value, legs);
      if itemsToSave.None? { return false; }
      var committed := CommitBatch(inventory, itemsToSave.value);
      if committed.None? { return false; }
      inventory := committed.value;
      if sign != 0 { ledger := ledger + Entries(lines.value, location, sign); }
      ok := true;
    }

    method DispatchTransfer(id: string) returns (ok: bool)
      modifies this
      ensures Becomes(old(State()), Dispatch(old(State()), catalog, id), ok)
    {
      if id !in transfers { return false; }
      var transfer := new StockTransfer(transfers[id]);
      ok := transfer.Dispatch();
      if !ok { return; }
      ok := CarryOut(transfer.items, DispatchLegs(transfer.Value()), transfer.source, -1);
      if ok { transfers := transfers[id := transfer.Value()]; }
    }

    method ReceiveTransfer(id: string) returns (ok: bool)
      modifies this
      ensures Becomes(old(State()), Receive(old(State()), catalog, id), ok)
    {
      if id !in transfers { return false; }
      var transfer := new StockTransfer(transfers[id]);
      ok := transfer.Receive();
      if !ok { return; }
      ok := CarryOut(transfer.items, [Leg(transfer.destination, ArriveKind, RequireExisting)], transfer.destination, 1);
      if ok { transfers := transfers[id := transfer.Value()]; }
    }

    method CancelTransfer(id: string) returns (ok: bool)
      modifies this
      ensures Becomes(old(State()), Cancel(old(State()), catalog, id), ok)
    {
      if id !in transfers { return false; }
      var transfer := new StockTransfer(transfers[id]);
      var previousStatus := transfer.status;
      ok := transfer.Cancel();
      if !ok { return; }
      if previousStatus == Dispatched {
        ok := CarryOut(transfer.items, UndoLegs(transfer.Value()), transfer.source, 1);
        if !ok { return; }
      }
      transfers := transfers[id := transfer.Value()];
    }

    /** `intercepted` is the answer of the approval service. */
    method PlacePurchaseOrder(id: string, intercepted: bool) returns (ok: bool)
      modifies this
      ensures Becomes(old(State()), PlaceOrder(old(State()), catalog, id, intercepted), ok)
    {
      if id !in orders { return false; }
      var order := new PurchaseOrder(orders[id]);
      if intercepted {
        ok := order.MarkPendingApproval();
        if ok { orders := orders[id := order.Value()]; }
        return;
      }
      ok := order.Place();
      if !ok { return; }
      ok := CarryOut(order.items, [Leg(order.destination, CreateKind, CreateMissing)], order.destination, 0);
      if ok { orders := orders[id := order.Value()]; }
    }

    method ReceivePurchaseOrder(id: string) returns (ok: bool)
      modifies this
      ensures Becomes(old(State()), ReceiveOrder(old(State()), catalog, id), ok)
    {
      if id !in orders { return false; }
      var order := new PurchaseOrder(orders[id]);
      ok := order.Receive();
      if !ok { return; }
      ok := CarryOut(order.items, [Leg(order.destination, ArriveKind, RequireExisting)], order.destination, 1);
      if ok { orders := orders[id := order.Value()]; }
    }

    method CancelPurchaseOrder(id: string) returns (ok: bool)
      modifies this
      ensures Becomes(old(State()), CancelOrder(old(State()), catalog, id), ok)
    {
      if id !in orders { return false; }
      var order := new PurchaseOrder(orders[id]);
      var previousStatus := order.status;
      ok := order.Cancel();
      if !ok { return; }
      if previousStatus == Ordered {
        ok := CarryOut(order.items, [Leg(order.destination, DropKind, SkipMissing)], order.destination, 0);
        if !ok { return; }
      }
      orders := orders[id := order.Value()];
    }
  }

  // ---------- a failure in the middle is a failure of the whole ----------

  lemma {:induction false} Unresolved(catalog: Catalog, items: seq<Item>, n: nat)
    requires n <= |items| && Resolve(catalog, items[..n]).None?
    ensures Resolve(catalog, items).None?
  {
    if n < |items| {
      assert items[..|items| - 1][..n] == items[..n];
      Unresolved(catalog, items[..|items| - 1], n);
    } else {
      assert items[..n] == items;
    }
  }

  lemma {:induction false} Unedited(rows: Rows, lines: seq<Line>, legs: seq<Leg>, n: nat)
    requires n <= |lines| && EditLines(rows, lines[..n], legs).None?
    ensures EditLines(rows, lines, legs).None?
  {
    if n < |lines| {
      assert lines[..|lines| - 1][..n] == lines[..n];
      Unedited(rows, lines[..|lines| - 1], legs, n);
    } else {
      assert lines[..n] == lines;
    }
  }

  lemma {:induction false} UneditedLine(rows: Rows, batch: Rows, line: Line, legs: seq<Leg>, n: nat)
    requires n <= |legs| && EditLine(rows, batch, line, legs[..n]).None?
    ensures EditLine(rows, batch, line, legs).None?
  {
    if n < |legs| {
      assert legs[..|legs| - 1][..n] == legs[..n];
      UneditedLine(rows, batch, line, legs[..|legs| - 1], n);
    } else {
      assert legs[..n] == legs;
    }
  }
}
