/** Stock transfers and purchase orders over whole runs. */
module StockRuns {
  import opened Options
  import opened StockOrders
  import opened StockFlow
  import opened OpenDocuments

  // ---------- the invariant over steps ----------

  datatype Event =
    | CreateTransfer(id: string, transfer: Transfer)
    | DispatchTransfer(id: string)
    | ReceiveTransfer(id: string)
    | CancelTransfer(id: string)
    | CreateOrder(id: string, order: Order)
    | PlacePurchase(id: string, intercepted: bool)
    | ReceivePurchase(id: string)
    | CancelPurchase(id: string)
    | OtherStep(rows: Rows, ledger: seq<Entry>)

  function Or(next: Option<World>, w: World): World { if next.Some? then next.value else w }

  /** Other use cases may change items and write ledger entries, but leave what is in transit alone. */
  ghost predicate Harmless(before: Rows, after: Rows) {
    before.Keys <= after.Keys && forall p: Place :: Transit(after, p) == Transit(before, p)
  }

  predicate ValidTransfer(t: Transfer) {
    t.status == Draft && t.source != t.destination && PositiveItems(t.items) && t.items != []
  }

  predicate ValidOrder(o: Order) { o.status == DraftOrder && PositiveItems(o.items) && o.items != [] }

  /** A step; a use case that throws changes nothing. New documents get ids not used before. */
  ghost function Next(catalog: Catalog, w: World, e: Event): World {
    match e
    case CreateTransfer(id, t) => if id !in w.transfers && ValidTransfer(t) then w.(transfers := w.transfers[id := t]) else w
    case DispatchTransfer(id) => Or(Dispatch(w, catalog, id), w)
    case ReceiveTransfer(id) => Or(Receive(w, catalog, id), w)
    case CancelTransfer(id) => Or(Cancel(w, catalog, id), w)
    case CreateOrder(id, o) => if id !in w.orders && ValidOrder(o) then w.(orders := w.orders[id := o]) else w
    case PlacePurchase(id, intercepted) => Or(PlaceOrder(w, catalog, id, intercepted), w)
    case ReceivePurchase(id) => Or(ReceiveOrder(w, catalog, id), w)
    case CancelPurchase(id) => Or(CancelOrder(w, catalog, id), w)
    case OtherStep(rows, ledger) => if Harmless(w.inventory, rows) then w.(inventory := rows, ledger := ledger) else w
  }

  /** What carrying out a document's lines does to one place. */
  lemma CarryMoves(catalog: Catalog, w: World, items: seq<Item>, legs: seq<Leg>, location: string, sign: int, next: World,
                   lines: seq<Line>, p: Place)
    requires Resolve(catalog, items) == Some(lines) && NothingSkipped(w.inventory, lines, legs)
    requires Carry(w, catalog, items, legs, location, sign) == Some(next)
    ensures next.transfers == w.transfers && next.orders == w.orders
    ensures OnHand(next.inventory, p) == OnHand(w.inventory, p) + HandAt(legs, p.location) * ItemQty(catalog, items, p.sku)
    ensures Transit(next.inventory, p) == Transit(w.inventory, p) + TransitAt(legs, p.location) * ItemQty(catalog, items, p.sku)
  {
    ResolvedQty(catalog, items, lines, p.sku);
    SavedEffect(w.inventory, lines, legs, next.inventory, p);
  }

  function Signed(sign: int, q: int): int { if sign == 0 then 0 else if sign > 0 then q else -q }

  lemma UnitTimes(c: int, q: int)
    requires -1 <= c <= 1
    ensures c * q == Signed(c, q)
  {}

  lemma CarryMovesOne(catalog: Catalog, w: World, items: seq<Item>, a: Leg, location: string, sign: int, next: World,
                      lines: seq<Line>, p: Place, q: int)
    requires Resolve(catalog, items) == Some(lines) && NothingSkipped(w.inventory, lines, [a]) && q == ItemQty(catalog, items, p.sku)
    requires Carry(w, catalog, items, [a], location, sign) == Some(next)
    ensures next.transfers == w.transfers && next.orders == w.orders
    ensures OnHand(next.inventory, p) == OnHand(w.inventory, p) + if p.location == a.location then Signed(HandCoef(a.kind), q) else 0
    ensures Transit(next.inventory, p) == Transit(w.inventory, p) + if p.location == a.location then Signed(TransitCoef(a.kind), q) else 0
  {
    CarryMoves(catalog, w, items, [a], location, sign, next, lines, p);
    OneLeg(a, p.location);
    UnitTimes(HandAt([a], p.location), q);
    UnitTimes(TransitAt([a], p.location), q);
  }

  lemma CarryMovesTwo(catalog: Catalog, w: World, items: seq<Item>, a: Leg, b: Leg, location: string, sign: int, next: World,
                      lines: seq<Line>, p: Place, q: int)
    requires a.location != b.location && q == ItemQty(catalog, items, p.sku)
    requires Resolve(catalog, items) == Some(lines) && NothingSkipped(w.inventory, lines, [a, b])
    requires Carry(w, catalog, items, [a, b], location, sign) == Some(next)
    ensures next.transfers == w.transfers && next.orders == w.orders
    ensures OnHand(next.inventory, p) == OnHand(w.inventory, p)
              + if p.location == a.location then Signed(HandCoef(a.kind), q) else if p.location == b.location then Signed(HandCoef(b.kind), q) else 0
    ensures Transit(next.inventory, p) == Transit(w.inventory, p)
              + if p.location == a.location then Signed(TransitCoef(a.kind), q) else if p.location == b.location then Signed(TransitCoef(b.kind), q) else 0
  {
    CarryMoves(catalog, w, items, [a, b], location, sign, next, lines, p);
    TwoLegs(a, b, p.location);
    UnitTimes(HandAt([a, b], p.location), q);
    UnitTimes(TransitAt([a, b], p.location), q);
  }

  lemma NoSkips(rows: Rows, lines: seq<Line>, legs: seq<Leg>)
    requires forall j :: 0 <= j < |legs| ==> legs[j].policy != SkipMissing
    ensures NothingSkipped(rows, lines, legs)
  {}

  lemma DispatchMoves(catalog: Catalog, w: World, id: string, next: World, p: Place)
    requires id in w.transfers && SoundTransfer(catalog, w.transfers[id]) && Dispatch(w, catalog, id) == Some(next)
    ensures var t := w.transfers[id];
            var q := ItemQty(catalog, t.items, p.sku);
            && w.transfers[id].status == Draft && next.transfers == w.transfers[id := t.(status := Dispatched)] && next.orders == w.orders
            && OnHand(next.inventory, p) == OnHand(w.inventory, p) - (if p.location == t.source then q else 0)
            && Transit(next.inventory, p) == Transit(w.inventory, p) + (if p.location == t.destination then q else 0)
  {
    var t := w.transfers[id];
    var lines, legs := Resolve(catalog, t.items).value, DispatchLegs(t);
    NoSkips(w.inventory, lines, legs);
    CarryMovesTwo(catalog, w, t.items, legs[0], legs[1], t.source, -1, Carry(w, catalog, t.items, legs, t.source, -1).value,
                  lines, p, ItemQty(catalog, t.items, p.sku));
  }

  lemma ReceiveMoves(catalog: Catalog, w: World, id: string, next: World, p: Place)
    requires id in w.transfers && Receive(w, catalog, id) == Some(next)
    ensures var t := w.transfers[id];
            var q := if p.location == t.destination then ItemQty(catalog, t.items, p.sku) else 0;
            && t.status == Dispatched && next.transfers == w.transfers[id := t.(status := Received)] && next.orders == w.orders
            && OnHand(next.inventory, p) == OnHand(w.inventory, p) + q && Transit(next.inventory, p) == Transit(w.inventory, p) - q
  {
    var t := w.transfers[id];
    var leg := Leg(t.destination, ArriveKind, RequireExisting);
    var lines := Resolve(catalog, t.items).value;
    NoSkips(w.inventory, lines, [leg]);
    CarryMovesOne(catalog, w, t.items, leg, t.destination, 1, Carry(w, catalog, t.items, [leg], t.destination, 1).value,
                  lines, p, ItemQty(catalog, t.items, p.sku));
  }

  lemma {:induction false} CancelMoves(catalog: Catalog, w: World, id: string, next: World, p: Place)
    requires Inv(catalog, w) && id in w.transfers && Cancel(w, catalog, id) == Some(next)
    ensures var t := w.transfers[id];
            var q := if t.status == Dispatched then ItemQty(catalog, t.items, p.sku) else 0;
            && next.transfers == w.transfers[id := t.(status := Cancelled)] && next.orders == w.orders
            && OnHand(next.inventory, p) == OnHand(w.inventory, p) + (if p.location == t.source then q else 0)
            && Transit(next.inventory, p) == Transit(w.inventory, p) - (if p.location == t.destination then q else 0)
  {
    var t := w.transfers[id];
    assert SoundTransfer(catalog, t);
    if t.status == Dispatched {
      var lines, legs := Resolve(catalog, t.items).value, UndoLegs(t);
      UndoSkipsNothing(catalog, w, id, lines);
      CarryMovesTwo(catalog, w, t.items, legs[0], legs[1], t.source, 1, Carry(w, catalog, t.items, legs, t.source, 1).value,
                    lines, p, ItemQty(catalog, t.items, p.sku));
    }
  }

  lemma UndoSkipsNothing(catalog: Catalog, w: World, id: string, lines: seq<Line>)
    requires Inv(catalog, w) && id in w.transfers && w.transfers[id].status == Dispatched
    requires Resolve(catalog, w.transfers[id].items) == Some(lines)
    ensures NothingSkipped(w.inventory, lines, UndoLegs(w.transfers[id]))
  {
    TransferLines(catalog, w, id, lines);
  }

  /** What an order step does: the document's status, and the goods in transit that are due for it. */
  ghost predicate OrderStep(catalog: Catalog, w: World, id: string, next: World, p: Place)
    requires id in w.orders
  {
    && id in next.orders && next.orders == w.orders[id := next.orders[id]] && next.transfers == w.transfers
    && next.orders[id] == w.orders[id].(status := next.orders[id].status)
    && (next.orders[id].status == Ordered ==> Resolve(catalog, w.orders[id].items).Some?)
    && Transit(next.inventory, p) - Transit(w.inventory, p) == OrderDue(catalog, next.orders[id], p) - OrderDue(catalog, w.orders[id], p)
  }

  lemma PlaceMoves(catalog: Catalog, w: World, id: string, intercepted: bool, next: World, p: Place)
    requires Inv(catalog, w) && id in w.orders && PlaceOrder(w, catalog, id, intercepted) == Some(next)
    ensures OrderStep(catalog, w, id, next, p)
  {
    var o := w.orders[id];
    if !intercepted { OrderLegMoves(catalog, w, id, Leg(o.destination, CreateKind, CreateMissing), 0, p); }
  }

  lemma ReceiveOrderMoves(catalog: Catalog, w: World, id: string, next: World, p: Place)
    requires Inv(catalog, w) && id in w.orders && ReceiveOrder(w, catalog, id) == Some(next)
    ensures OrderStep(catalog, w, id, next, p)
  {
    OrderLegMoves(catalog, w, id, Leg(w.orders[id].destination, ArriveKind, RequireExisting), 1, p);
  }

  lemma CancelOrderMoves(catalog: Catalog, w: World, id: string, next: World, p: Place)
    requires Inv(catalog, w) && id in w.orders && CancelOrder(w, catalog, id) == Some(next)
    ensures OrderStep(catalog, w, id, next, p)
  {
    var o := w.orders[id];
    if o.status == Ordered { OrderLegMoves(catalog, w, id, Leg(o.destination, DropKind, SkipMissing), 0, p); }
  }

  lemma OrderSkipsNothing(catalog: Catalog, w: World, id: string, lines: seq<Line>, leg: Leg)
    requires Inv(catalog, w) && id in w.orders && Resolve(catalog, w.orders[id].items) == Some(lines)
    requires leg.location == w.orders[id].destination && (leg.policy == SkipMissing ==> w.orders[id].status == Ordered)
    ensures NothingSkipped(w.inventory, lines, [leg])
  {
    var o := w.orders[id];
    assert SoundOrder(catalog, o);
    if o.status == Ordered {
      forall sku: string ensures ItemQty(catalog, o.items, sku) <= Transit(w.inventory, Place(sku, o.destination)) {
        OrderInTransit(catalog, w, id, Place(sku, o.destination));
      }
      GoodsAreThere(catalog, w.inventory, o.items, lines, o.destination);
    }
  }

  lemma OrderLegMoves(catalog: Catalog, w: World, id: string, leg: Leg, sign: int, p: Place)
    requires Inv(catalog, w) && id in w.orders && leg.location == w.orders[id].destination
    requires leg.policy == SkipMissing ==> w.orders[id].status == Ordered
    requires Carry(w, catalog, w.orders[id].items, [leg], leg.location, sign).Some?
    ensures var next := Carry(w, catalog, w.orders[id].items, [leg], leg.location, sign).value;
            var q := if p.location == leg.location then ItemQty(catalog, w.orders[id].items, p.sku) else 0;
            && next.transfers == w.transfers && next.orders == w.orders
            && OnHand(next.inventory, p) == OnHand(w.inventory, p) + Signed(HandCoef(leg.kind), q)
            && Transit(next.inventory, p) == Transit(w.inventory, p) + Signed(TransitCoef(leg.kind), q)
  {
    var o := w.orders[id];
    var lines := Resolve(catalog, o.items).value;
    OrderSkipsNothing(catalog, w, id, lines, leg);
    CarryMovesOne(catalog, w, o.items, leg, leg.location, sign, Carry(w, catalog, o.items, [leg], leg.location, sign).value,
                  lines, p, ItemQty(catalog, o.items, p.sku));
  }

  // ---------- runs ----------

  lemma OrderStepKeepsInv(catalog: Catalog, w: World, id: string, next: World)
    requires Inv(catalog, w) && id in w.orders && forall p: Place :: OrderStep(catalog, w, id, next, p)
    ensures Inv(catalog, next)
  {
    assert OrderStep(catalog, w, id, next, Place("", ""));
    assert SoundOrder(catalog, w.orders[id]);
    forall p: Place ensures Transit(next.inventory, p) == Open(catalog, next, p) {
      assert OrderStep(catalog, w, id, next, p);
      OrderUpdate(catalog, w, id, next.orders[id], p);
    }
  }

  lemma TransferStepKeepsInv(catalog: Catalog, w: World, id: string, next: World, status: TransferStatus)
    requires Inv(catalog, w) && id in w.transfers && next.orders == w.orders
    requires next.transfers == w.transfers[id := w.transfers[id].(status := status)]
    requires status == Dispatched ==> SoundTransfer(catalog, next.transfers[id])
    requires forall p: Place :: Transit(next.inventory, p) - Transit(w.inventory, p)
               == TransferDue(catalog, next.transfers[id], p) - TransferDue(catalog, w.transfers[id], p)
    ensures Inv(catalog, next)
  {
    assert SoundTransfer(catalog, w.transfers[id]);
    forall p: Place ensures Transit(next.inventory, p) == Open(catalog, next, p) {
      assert Transit(w.inventory, p) == Open(catalog, w, p);
      TransferUpdate(catalog, w, id, next.transfers[id], p);
    }
  }

  lemma DispatchKeepsInv(catalog: Catalog, w: World, id: string, next: World)
    requires Inv(catalog, w) && Dispatch(w, catalog, id) == Some(next)
    ensures Inv(catalog, next)
  {
    assert SoundTransfer(catalog, w.transfers[id]);
    DispatchIff(catalog, w, id);
    forall p: Place ensures Transit(next.inventory, p) - Transit(w.inventory, p)
               == TransferDue(catalog, next.transfers[id], p) - TransferDue(catalog, w.transfers[id], p) {
      DispatchMoves(catalog, w, id, next, p);
    }
    TransferStepKeepsInv(catalog, w, id, next, Dispatched);
  }

  lemma ReceiveKeepsInv(catalog: Catalog, w: World, id: string, next: World)
    requires Inv(catalog, w) && Receive(w, catalog, id) == Some(next)
    ensures Inv(catalog, next)
  {
    forall p: Place ensures Transit(next.inventory, p) - Transit(w.inventory, p)
               == TransferDue(catalog, next.transfers[id], p) - TransferDue(catalog, w.transfers[id], p) {
      ReceiveMoves(catalog, w, id, next, p);
    }
    TransferStepKeepsInv(catalog, w, id, next, Received);
  }

  lemma CancelKeepsInv(catalog: Catalog, w: World, id: string, next: World)
    requires Inv(catalog, w) && Cancel(w, catalog, id) == Some(next)
    ensures Inv(catalog, next)
  {
    forall p: Place ensures Transit(next.inventory, p) - Transit(w.inventory, p)
               == TransferDue(catalog, next.transfers[id], p) - TransferDue(catalog, w.transfers[id], p) {
      CancelMoves(catalog, w, id, next, p);
    }
    TransferStepKeepsInv(catalog, w, id, next, Cancelled);
  }

  lemma CreationKeepsInv(catalog: Catalog, w: World, e: Event)
    requires Inv(catalog, w) && (e.CreateTransfer? || e.CreateOrder? || e.OtherStep?)
    ensures Inv(catalog, Next(catalog, w, e))
  {
    var next := Next(catalog, w, e);
    forall p: Place ensures Transit(next.inventory, p) == Open(catalog, next, p) {
      assert Transit(w.inventory, p) == Open(catalog, w, p);
      match e
      case CreateTransfer(id, t) => TransferUpdate(catalog, w, id, t, p);
      case CreateOrder(id, o) => OrderUpdate(catalog, w, id, o, p);
      case _ =>
    }
  }

  /** Every step keeps: what is in transit to a place is what open documents owe it. */
  lemma StepKeepsInv(catalog: Catalog, w: World, e: Event)
    requires Inv(catalog, w)
    ensures Inv(catalog, Next(catalog, w, e))
  {
    var next := Next(catalog, w, e);
    match e
    case DispatchTransfer(id) => if Dispatch(w, catalog, id).Some? { DispatchKeepsInv(catalog, w, id, next); }
    case ReceiveTransfer(id) => if Receive(w, catalog, id).Some? { ReceiveKeepsInv(catalog, w, id, next); }
    case CancelTransfer(id) => if Cancel(w, catalog, id).Some? { CancelKeepsInv(catalog, w, id, next); }
    case PlacePurchase(id, intercepted) =>
      if PlaceOrder(w, catalog, id, intercepted).Some? {
        forall p: Place ensures OrderStep(catalog, w, id, next, p) { PlaceMoves(catalog, w, id, intercepted, next, p); }
        OrderStepKeepsInv(catalog, w, id, next);
      }
    case ReceivePurchase(id) =>
      if ReceiveOrder(w, catalog, id).Some? {
        forall p: Place ensures OrderStep(catalog, w, id, next, p) { ReceiveOrderMoves(catalog, w, id, next, p); }
        OrderStepKeepsInv(catalog, w, id, next);
      }
    case CancelPurchase(id) =>
      if CancelOrder(w, catalog, id).Some? {
        forall p: Place ensures OrderStep(catalog, w, id, next, p) { CancelOrderMoves(catalog, w, id, next, p); }
        OrderStepKeepsInv(catalog, w, id, next);
      }
    case _ => CreationKeepsInv(catalog, w, e);
  }

  /** The state after the events. */
  ghost function After(catalog: Catalog, w: World, events: seq<Event>): World {
    if events == [] then w else Next(catalog, After(catalog, w, events[..|events| - 1]), events[|events| - 1])
  }

  const EMPTY := World(map[], [], map[], map[])

  lemma EmptyInv(catalog: Catalog)
    ensures Inv(catalog, EMPTY)
  {
    forall p: Place ensures Transit(EMPTY.inventory, p) == Open(catalog, EMPTY, p) {
      assert TransfersDue(catalog, EMPTY.transfers, p) == map[] && OrdersDue(catalog, EMPTY.orders, p) == map[];
    }
  }

  /** In every reachable state the in-transit counter of each SKU at each location is the sum of the lines of
      the dispatched transfers and ordered purchase orders bound there. */
  lemma {:induction false} InTransitIsOpenDocuments(catalog: Catalog, events: seq<Event>)
    ensures Inv(catalog, After(catalog, EMPTY, events))
  {
    if events == [] {
      EmptyInv(catalog);
    } else {
      InTransitIsOpenDocuments(catalog, events[..|events| - 1]);
      StepKeepsInv(catalog, After(catalog, EMPTY, events[..|events| - 1]), events[|events| - 1]);
    }
  }
}
