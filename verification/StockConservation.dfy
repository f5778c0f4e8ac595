/** Goods are neither made nor lost: stock on hand follows the ledger, transfers only move goods, cancelling a
    dispatched transfer undoes it. And the orders that can never be closed. */
module StockConservation {
  import opened Options
  import opened StockOrders
  import opened StockFlow
  import opened OpenDocuments
  import opened StockRuns
  import MapSums

  // ---------- the ledger ----------

  function Balance(ledger: seq<Entry>, p: Place): int {
    if ledger == [] then 0
    else Balance(ledger[..|ledger| - 1], p) + if ledger[|ledger| - 1].place == p then ledger[|ledger| - 1].quantity else 0
  }

  lemma {:induction false} BalanceJoin(a: seq<Entry>, b: seq<Entry>, p: Place)
    ensures Balance(a + b, p) == Balance(a, p) + Balance(b, p)
  {
    if b == [] {
      assert a + b == a;
    } else {
      assert (a + b)[..|a + b| - 1] == a + b[..|b| - 1];
      BalanceJoin(a, b[..|b| - 1], p);
    }
  }

  lemma {:induction false} EntriesBalance(lines: seq<Line>, location: string, sign: int, p: Place)
    requires -1 <= sign <= 1
    ensures Balance(Entries(lines, location, sign), p) == if p.location == location then Signed(sign, Qty(lines, p.sku)) else 0
  {
    if lines != [] {
      EntriesBalance(lines[..|lines| - 1], location, sign, p);
      assert Entries(lines, location, sign)[..|lines| - 1] == Entries(lines[..|lines| - 1], location, sign);
    }
  }

  /** What carrying out a document's lines adds to the ledger balance of a place. */
  lemma CarryPosts(catalog: Catalog, w: World, items: seq<Item>, legs: seq<Leg>, location: string, sign: int, next: World, p: Place)
    requires Carry(w, catalog, items, legs, location, sign) == Some(next) && -1 <= sign <= 1
    ensures Balance(next.ledger, p)
            == Balance(w.ledger, p) + if p.location == location then Signed(sign, ItemQty(catalog, items, p.sku)) else 0
  {
    var lines := Resolve(catalog, items).value;
    ResolvedQty(catalog, items, lines, p.sku);
    EntriesBalance(lines, location, sign, p);
    BalanceJoin(w.ledger, Entries(lines, location, sign), p);
  }

  /** Stock on hand that no ledger entry accounts for. */
  function Gap(w: World, p: Place): int { OnHand(w.inventory, p) - Balance(w.ledger, p) }

  lemma {:induction false} TransferKeepsGap(catalog: Catalog, w: World, id: string, e: Event, p: Place)
    requires Inv(catalog, w) && (e == DispatchTransfer(id) || e == ReceiveTransfer(id) || e == CancelTransfer(id))
    ensures Gap(Next(catalog, w, e), p) == Gap(w, p)
  {
    var next := Next(catalog, w, e);
    if id in w.transfers {
      var t := w.transfers[id];
      assert SoundTransfer(catalog, t);
      if e.DispatchTransfer? && Dispatch(w, catalog, id).Some? {
        DispatchMoves(catalog, w, id, next, p);
        CarryPosts(catalog, w, t.items, DispatchLegs(t), t.source, -1, Carry(w, catalog, t.items, DispatchLegs(t), t.source, -1).value, p);
      } else if e.ReceiveTransfer? && Receive(w, catalog, id).Some? {
        var legs := [Leg(t.destination, ArriveKind, RequireExisting)];
        ReceiveMoves(catalog, w, id, next, p);
        CarryPosts(catalog, w, t.items, legs, t.destination, 1, Carry(w, catalog, t.items, legs, t.destination, 1).value, p);
      } else if e.CancelTransfer? && Cancel(w, catalog, id).Some? {
        CancelMoves(catalog, w, id, next, p);
        if t.status == Dispatched {
          CarryPosts(catalog, w, t.items, UndoLegs(t), t.source, 1, Carry(w, catalog, t.items, UndoLegs(t), t.source, 1).value, p);
        }
      }
    }
  }

  lemma OrderCarryKeepsGap(catalog: Catalog, w: World, id: string, leg: Leg, sign: int, p: Place)
    requires Inv(catalog, w) && id in w.orders && leg.location == w.orders[id].destination && sign == HandCoef(leg.kind)
    requires leg.policy == SkipMissing ==> w.orders[id].status == Ordered
    requires Carry(w, catalog, w.orders[id].items, [leg], leg.location, sign).Some?
    ensures Gap(Carry(w, catalog, w.orders[id].items, [leg], leg.location, sign).value, p) == Gap(w, p)
  {
    OrderLegMoves(catalog, w, id, leg, sign, p);
    CarryPosts(catalog, w, w.orders[id].items, [leg], leg.location, sign,
               Carry(w, catalog, w.orders[id].items, [leg], leg.location, sign).value, p);
  }

  lemma OrderKeepsGap(catalog: Catalog, w: World, id: string, e: Event, p: Place)
    requires Inv(catalog, w) && id in w.orders && (e == ReceivePurchase(id) || e == CancelPurchase(id) || (e.PlacePurchase? && e.id == id))
    ensures Gap(Next(catalog, w, e), p) == Gap(w, p)
  {
    var o := w.orders[id];
    if e.ReceivePurchase? && ReceiveOrder(w, catalog, id).Some? {
      OrderCarryKeepsGap(catalog, w, id, Leg(o.destination, ArriveKind, RequireExisting), 1, p);
    } else if e.CancelPurchase? && CancelOrder(w, catalog, id).Some? && o.status == Ordered {
      OrderCarryKeepsGap(catalog, w, id, Leg(o.destination, DropKind, SkipMissing), 0, p);
    } else if e.PlacePurchase? && !e.intercepted && PlaceOrder(w, catalog, id, false).Some? {
      OrderCarryKeepsGap(catalog, w, id, Leg(o.destination, CreateKind, CreateMissing), 0, p);
    }
  }

  /** Over any run of transfer and order steps, stock on hand minus ledger balance stays what it was. */
  lemma {:induction false} OnHandFollowsLedger(catalog: Catalog, w: World, events: seq<Event>, p: Place)
    requires Inv(catalog, w) && forall i :: 0 <= i < |events| ==> !events[i].OtherStep?
    ensures Inv(catalog, After(catalog, w, events)) && Gap(After(catalog, w, events), p) == Gap(w, p)
  {
    if events != [] {
      var front, e := events[..|events| - 1], events[|events| - 1];
      assert forall i :: 0 <= i < |front| ==> front[i] == events[i];
      OnHandFollowsLedger(catalog, w, front, p);
      var v := After(catalog, w, front);
      StepKeepsInv(catalog, v, e);
      match e
      case DispatchTransfer(id) => TransferKeepsGap(catalog, v, id, e, p);
      case ReceiveTransfer(id) => TransferKeepsGap(catalog, v, id, e, p);
      case CancelTransfer(id) => TransferKeepsGap(catalog, v, id, e, p);
      case PlacePurchase(id, intercepted) => if id in v.orders { OrderKeepsGap(catalog, v, id, e, p); }
      case ReceivePurchase(id) => if id in v.orders { OrderKeepsGap(catalog, v, id, e, p); }
      case CancelPurchase(id) => if id in v.orders { OrderKeepsGap(catalog, v, id, e, p); }
      case _ =>
    }
  }

  // ---------- cancelling undoes dispatching ----------

  /** A step leaves a transfer's places and items as they are. */
  lemma {:induction false} TransferKept(catalog: Catalog, w: World, e: Event, id: string)
    requires id in w.transfers
    ensures id in Next(catalog, w, e).transfers
    ensures Next(catalog, w, e).transfers[id] == w.transfers[id].(status := Next(catalog, w, e).transfers[id].status)
  {}

  lemma {:induction false} TransferKeptOverRun(catalog: Catalog, w: World, events: seq<Event>, id: string)
    requires Inv(catalog, w) && id in w.transfers
    ensures var later := After(catalog, w, events);
            Inv(catalog, later) && id in later.transfers && later.transfers[id] == w.transfers[id].(status := later.transfers[id].status)
  {
    if events != [] {
      var front, e := events[..|events| - 1], events[|events| - 1];
      TransferKeptOverRun(catalog, w, front, id);
      TransferKept(catalog, After(catalog, w, front), e, id);
      StepKeepsInv(catalog, After(catalog, w, front), e);
    }
  }

  /** What the dispatch of one transfer, and its cancellation in any sound state, do to one place. */
  lemma {:induction false} CancelReverses(catalog: Catalog, w: World, id: string, sent: World, later: World, p: Place)
    requires Inv(catalog, w) && Dispatch(w, catalog, id) == Some(sent)
    requires Inv(catalog, later) && id in later.transfers && later.transfers[id] == w.transfers[id].(status := Dispatched)
    ensures Cancel(later, catalog, id).Some?
    ensures var back := Cancel(later, catalog, id).value;
            && OnHand(back.inventory, p) - OnHand(later.inventory, p) == OnHand(w.inventory, p) - OnHand(sent.inventory, p)
            && Transit(back.inventory, p) - Transit(later.inventory, p) == Transit(w.inventory, p) - Transit(sent.inventory, p)
            && Gap(back, p) == Gap(later, p) && Gap(sent, p) == Gap(w, p)
            && back.orders == later.orders && back.transfers == later.transfers[id := w.transfers[id].(status := Cancelled)]
  {
    assert SoundTransfer(catalog, w.transfers[id]);
    DispatchMoves(catalog, w, id, sent, p);
    OpenTransferCanBeClosed(catalog, later, id);
    CancelMoves(catalog, later, id, Cancel(later, catalog, id).value, p);
    TransferKeepsGap(catalog, w, id, DispatchTransfer(id), p);
    TransferKeepsGap(catalog, later, id, CancelTransfer(id), p);
  }

  /** Whatever happens after a dispatch, as long as the transfer is still dispatched it can be cancelled, and that
      moves back exactly what the dispatch moved: on hand, in transit and in the ledger. */
  lemma {:induction false} CancelUndoesDispatch(catalog: Catalog, w: World, id: string, sent: World, events: seq<Event>,
                                                later: World, p: Place)
    requires Inv(catalog, w) && Dispatch(w, catalog, id) == Some(sent) && later == After(catalog, sent, events)
    requires id in later.transfers && later.transfers[id].status == Dispatched
    ensures Cancel(later, catalog, id).Some?
    ensures var back := Cancel(later, catalog, id).value;
            && OnHand(back.inventory, p) - OnHand(later.inventory, p) == OnHand(w.inventory, p) - OnHand(sent.inventory, p)
            && Transit(back.inventory, p) - Transit(later.inventory, p) == Transit(w.inventory, p) - Transit(sent.inventory, p)
            && Balance(back.ledger, p) - Balance(later.ledger, p) == Balance(w.ledger, p) - Balance(sent.ledger, p)
            && back.orders == later.orders && back.transfers == later.transfers[id := w.transfers[id].(status := Cancelled)]
  {
    assert SoundTransfer(catalog, w.transfers[id]);
    DispatchKeepsInv(catalog, w, id, sent);
    TransferKeptOverRun(catalog, sent, events, id);
    CancelReverses(catalog, w, id, sent, later, p);
  }

  // ---------- transfers only move goods ----------

  /** Goods of a SKU at each place, on hand or on their way there. */
  ghost function Goods(rows: Rows, sku: string): map<Place, int> {
    map p | p in rows && p.sku == sku :: rows[p].quantity + rows[p].inTransit
  }

  ghost function GoodsAt(rows: Rows, p: Place): int { OnHand(rows, p) + Transit(rows, p) }

  ghost function GoodsWith(goods: map<Place, int>, rows: Rows, p: Place): map<Place, int> {
    if p in rows then goods[p := GoodsAt(rows, p)] else goods
  }

  ghost function ValueAt(goods: map<Place, int>, p: Place): int { if p in goods then goods[p] else 0 }

  lemma GoodsWithSum(goods: map<Place, int>, rows: Rows, p: Place)
    ensures MapSums.Sum(GoodsWith(goods, rows, p)) == MapSums.Sum(goods) + if p in rows then GoodsAt(rows, p) - ValueAt(goods, p) else 0
  {
    if p in rows { MapSums.SumUpdate(goods, p, GoodsAt(rows, p)); }
  }

  lemma GoodsOf(rows: Rows, sku: string, p: Place)
    requires p.sku == sku
    ensures ValueAt(Goods(rows, sku), p) == GoodsAt(rows, p)
  {}

  lemma SameGoods(before: Rows, after: Rows, sku: string, a: Place, b: Place, q: int)
    requires a.sku == sku == b.sku && before.Keys <= after.Keys && Shifted(before, after, sku, a, b, q)
    requires forall p: Place :: p.sku == sku && p in after ==> p in before || p == a || p == b
    ensures Goods(after, sku) == GoodsWith(GoodsWith(Goods(before, sku), after, a), after, b)
  {}

  /** Two tables that agree on the goods everywhere except that they moved between two places. */
  lemma GoodsMoved(before: Rows, after: Rows, sku: string, a: Place, b: Place, q: int)
    requires a != b && a.sku == sku == b.sku && before.Keys <= after.Keys
    requires Shifted(before, after, sku, a, b, q)
    requires forall p: Place :: p.sku == sku && p in after ==> p in before || p == a || p == b
    requires (a in after && b in after) || q == 0
    ensures MapSums.Sum(Goods(after, sku)) == MapSums.Sum(Goods(before, sku))
  {
    var m := Goods(before, sku);
    SameGoods(before, after, sku, a, b, q);
    GoodsWithSum(m, after, a);
    GoodsWithSum(GoodsWith(m, after, a), after, b);
    GoodsOf(before, sku, a);
    GoodsOf(before, sku, b);
    assert ValueAt(GoodsWith(m, after, a), b) == ValueAt(m, b);
    assert GoodsAt(after, a) == GoodsAt(before, a) - q && GoodsAt(after, b) == GoodsAt(before, b) + q;
  }

  lemma TransferNames(catalog: Catalog, w: World, items: seq<Item>, legs: seq<Leg>, location: string, sign: int, next: World,
                      lines: seq<Line>, sku: string)
    requires Resolve(catalog, items) == Some(lines) && NothingSkipped(w.inventory, lines, legs)
    requires Carry(w, catalog, items, legs, location, sign) == Some(next)
    ensures w.inventory.Keys <= next.inventory.Keys
    ensures forall p: Place :: p.sku == sku && p in next.inventory ==> p in w.inventory || Hits(legs, p.location) > 0
    ensures ItemQty(catalog, items, sku) > 0 ==> forall p: Place :: p.sku == sku && Hits(legs, p.location) > 0 ==> p in next.inventory
  {
    ResolvedQty(catalog, items, lines, sku);
    if Times(lines, sku) == 0 { Unnamed(lines, sku); }
    forall p: Place | p.sku == sku
      ensures p in next.inventory <==> p in w.inventory || (Times(lines, p.sku) > 0 && Hits(legs, p.location) > 0)
    {
      SavedEffect(w.inventory, lines, legs, next.inventory, p);
    }
  }

  lemma {:induction false} Unnamed(lines: seq<Line>, sku: string)
    requires Times(lines, sku) == 0
    ensures Qty(lines, sku) == 0
  {
    if lines != [] { Unnamed(lines[..|lines| - 1], sku); }
  }

  /** From a to b, q units of a SKU moved. */
  ghost predicate Shifted(before: Rows, after: Rows, sku: string, a: Place, b: Place, q: int) {
    forall p: Place :: p.sku == sku ==>
      GoodsAt(after, p) == GoodsAt(before, p) + (if p == a then -q else if p == b then q else 0)
  }

  lemma DispatchShifts(catalog: Catalog, w: World, id: string, next: World, sku: string)
    requires id in w.transfers && SoundTransfer(catalog, w.transfers[id]) && Dispatch(w, catalog, id) == Some(next)
    ensures var t := w.transfers[id];
            Shifted(w.inventory, next.inventory, sku, Place(sku, t.source), Place(sku, t.destination), ItemQty(catalog, t.items, sku))
  {
    forall p: Place | p.sku == sku { DispatchMoves(catalog, w, id, next, p); }
  }

  lemma CancelShifts(catalog: Catalog, w: World, id: string, next: World, sku: string)
    requires Inv(catalog, w) && Cancel(w, catalog, id) == Some(next) && w.transfers[id].status == Dispatched
    ensures var t := w.transfers[id];
            Shifted(w.inventory, next.inventory, sku, Place(sku, t.destination), Place(sku, t.source), ItemQty(catalog, t.items, sku))
  {
    assert SoundTransfer(catalog, w.transfers[id]);
    forall p: Place | p.sku == sku { CancelMoves(catalog, w, id, next, p); }
  }

  /** Which rows a carry between two locations can add. */
  lemma TwoNames(catalog: Catalog, w: World, items: seq<Item>, x: Leg, y: Leg, location: string, sign: int, next: World,
                 lines: seq<Line>, sku: string)
    requires x.location != y.location
    requires Resolve(catalog, items) == Some(lines) && NothingSkipped(w.inventory, lines, [x, y])
    requires Carry(w, catalog, items, [x, y], location, sign) == Some(next)
    ensures w.inventory.Keys <= next.inventory.Keys
    ensures forall p: Place :: p.sku == sku && p in next.inventory ==>
              p in w.inventory || p == Place(sku, x.location) || p == Place(sku, y.location)
    ensures ItemQty(catalog, items, sku) > 0 ==> Place(sku, x.location) in next.inventory && Place(sku, y.location) in next.inventory
  {
    forall l: string ensures Hits([x, y], l) > 0 <==> l == x.location || l == y.location { TwoLegs(x, y, l); }
    TransferNames(catalog, w, items, [x, y], location, sign, next, lines, sku);
    assert Place(sku, x.location).sku == sku && Place(sku, y.location).sku == sku;
  }

  lemma DispatchMovesGoods(catalog: Catalog, w: World, id: string, next: World, sku: string)
    requires Inv(catalog, w) && Dispatch(w, catalog, id) == Some(next)
    ensures MapSums.Sum(Goods(next.inventory, sku)) == MapSums.Sum(Goods(w.inventory, sku))
  {
    var t := w.transfers[id];
    assert SoundTransfer(catalog, t);
    var lines, legs := Resolve(catalog, t.items).value, DispatchLegs(t);
    NoSkips(w.inventory, lines, legs);
    TwoNames(catalog, w, t.items, legs[0], legs[1], t.source, -1, Carry(w, catalog, t.items, legs, t.source, -1).value, lines, sku);
    DispatchShifts(catalog, w, id, next, sku);
    GoodsMoved(w.inventory, next.inventory, sku, Place(sku, t.source), Place(sku, t.destination), ItemQty(catalog, t.items, sku));
  }

  lemma CancelMovesGoods(catalog: Catalog, w: World, id: string, next: World, sku: string)
    requires Inv(catalog, w) && Cancel(w, catalog, id) == Some(next) && w.transfers[id].status == Dispatched
    ensures MapSums.Sum(Goods(next.inventory, sku)) == MapSums.Sum(Goods(w.inventory, sku))
  {
    var t := w.transfers[id];
    assert SoundTransfer(catalog, t);
    var lines, legs := Resolve(catalog, t.items).value, UndoLegs(t);
    UndoSkipsNothing(catalog, w, id, lines);
    TwoNames(catalog, w, t.items, legs[0], legs[1], t.source, 1, Carry(w, catalog, t.items, legs, t.source, 1).value, lines, sku);
    CancelShifts(catalog, w, id, next, sku);
    GoodsMoved(w.inventory, next.inventory, sku, Place(sku, t.destination), Place(sku, t.source), ItemQty(catalog, t.items, sku));
  }

  lemma ReceiveMovesGoods(catalog: Catalog, w: World, id: string, next: World, sku: string)
    requires Inv(catalog, w) && Receive(w, catalog, id) == Some(next)
    ensures MapSums.Sum(Goods(next.inventory, sku)) == MapSums.Sum(Goods(w.inventory, sku))
  {
    var t := w.transfers[id];
    assert SoundTransfer(catalog, t);
    var lines, leg := Resolve(catalog, t.items).value, Leg(t.destination, ArriveKind, RequireExisting);
    var a, b := Place(sku, t.destination), Place(sku, t.source);
    NoSkips(w.inventory, lines, [leg]);
    forall location: string ensures Hits([leg], location) > 0 <==> location == t.destination { OneLeg(leg, location); }
    TransferNames(catalog, w, t.items, [leg], t.destination, 1, Carry(w, catalog, t.items, [leg], t.destination, 1).value, lines, sku);
    assert Shifted(w.inventory, next.inventory, sku, a, b, 0) by {
      forall p: Place | p.sku == sku { ReceiveMoves(catalog, w, id, next, p); }
    }
    GoodsMoved(w.inventory, next.inventory, sku, a, b, 0);
  }

  /** No transfer step changes how much of a SKU there is over all locations, on hand and in transit. */
  lemma TransfersConserveGoods(catalog: Catalog, w: World, e: Event, sku: string)
    requires Inv(catalog, w) && (e.CreateTransfer? || e.DispatchTransfer? || e.ReceiveTransfer? || e.CancelTransfer?)
    ensures MapSums.Sum(Goods(Next(catalog, w, e).inventory, sku)) == MapSums.Sum(Goods(w.inventory, sku))
  {
    var next := Next(catalog, w, e);
    match e
    case DispatchTransfer(id) => if Dispatch(w, catalog, id).Some? { DispatchMovesGoods(catalog, w, id, next, sku); }
    case ReceiveTransfer(id) => if Receive(w, catalog, id).Some? { ReceiveMovesGoods(catalog, w, id, next, sku); }
    case CancelTransfer(id) =>
      if Cancel(w, catalog, id).Some? && w.transfers[id].status == Dispatched { CancelMovesGoods(catalog, w, id, next, sku); }
    case CreateTransfer(id, t) =>
  }

  // ---------- orders that cannot be closed ----------

  lemma EditsAt(lines: seq<Line>, leg: Leg, p: Place)
    ensures Hits([leg], p.location) * Times(lines, p.sku) == if p.location == leg.location then Times(lines, p.sku) else 0
  {
    OneLeg(leg, p.location);
    UnitTimes(Hits([leg], p.location), Times(lines, p.sku));
  }

  lemma {:induction false} OnceAt(rows: Rows, lines: seq<Line>, leg: Leg)
    ensures EditedOnce(rows, lines, [leg]) <==> forall sku: string :: Times(lines, sku) > 1 ==> Place(sku, leg.location) !in rows
  {
    if EditedOnce(rows, lines, [leg]) {
      forall sku: string | Times(lines, sku) > 1 ensures Place(sku, leg.location) !in rows {
        EditsAt(lines, leg, Place(sku, leg.location));
      }
    } else {
      var p :| p in rows && Hits([leg], p.location) * Times(lines, p.sku) > 1;
      EditsAt(lines, leg, p);
      assert Place(p.sku, leg.location) == p;
    }
  }

  lemma {:induction false} PlaceSaves(rows: Rows, lines: seq<Line>, destination: string)
    ensures Saved(rows, lines, [Leg(destination, CreateKind, CreateMissing)]).Some? <==>
              forall sku: string :: Times(lines, sku) > 1 ==> Place(sku, destination) !in rows
  {
    var leg := Leg(destination, CreateKind, CreateMissing);
    LinesSucceed(rows, lines, [leg]);
    SavedIffEditedOnce(rows, lines, [leg]);
    OnceAt(rows, lines, leg);
  }

  lemma {:induction false} PlacedWhenSaved(catalog: Catalog, w: World, id: string, lines: seq<Line>)
    requires id in w.orders && w.orders[id].status == DraftOrder && Resolve(catalog, w.orders[id].items) == Some(lines)
    ensures PlaceOrder(w, catalog, id, false).Some? <==>
              Saved(w.inventory, lines, [Leg(w.orders[id].destination, CreateKind, CreateMissing)]).Some?
  {}

  /** A draft order that is not sent for approval can be placed exactly when its variants are in the catalog
      and no SKU that is on two of its lines has an item at the destination already. */
  lemma {:induction false} PlaceIff(catalog: Catalog, w: World, id: string)
    requires id in w.orders && w.orders[id].status == DraftOrder
    ensures PlaceOrder(w, catalog, id, false).Some? <==>
              var o, lines := w.orders[id], Resolve(catalog, w.orders[id].items);
              lines.Some? && forall sku: string :: Times(lines.value, sku) > 1 ==> Place(sku, o.destination) !in w.inventory
  {
    var o := w.orders[id];
    if Resolve(catalog, o.items).Some? {
      PlacedWhenSaved(catalog, w, id, Resolve(catalog, o.items).value);
      PlaceSaves(w.inventory, Resolve(catalog, o.items).value, o.destination);
    }
  }

  /** An ordered purchase order with a SKU on two lines stays ordered for ever: no step closes it. */
  lemma {:induction false} RepeatedSkuNeverCloses(catalog: Catalog, w: World, events: seq<Event>, id: string)
    requires Inv(catalog, w) && id in w.orders && w.orders[id].status == Ordered
    requires Resolve(catalog, w.orders[id].items).Some? && !DistinctSkus(Resolve(catalog, w.orders[id].items).value)
    ensures Inv(catalog, After(catalog, w, events))
    ensures id in After(catalog, w, events).orders && After(catalog, w, events).orders[id] == w.orders[id]
  {
    if events != [] {
      var front, e := events[..|events| - 1], events[|events| - 1];
      RepeatedSkuNeverCloses(catalog, w, front, id);
      var v := After(catalog, w, front);
      StepKeepsInv(catalog, v, e);
      OpenOrderClosesIffDistinct(catalog, v, id);
      OrdersOf(catalog, v, e, id);
    }
  }

  /** From an empty store every draft order whose variants are in the catalog can be placed. */
  lemma FirstOrderIsPlaced(catalog: Catalog, id: string, o: Order, events: seq<Event>)
    requires ValidOrder(o) && Resolve(catalog, o.items).Some?
    requires events == [CreateOrder(id, o), PlacePurchase(id, false)]
    ensures After(catalog, EMPTY, events).orders == map[id := o.(status := Ordered)]
  {
    var created := EMPTY.(orders := map[id := o]);
    assert events[..1][..0] == [] && After(catalog, EMPTY, events[..1][..0]) == EMPTY;
    assert After(catalog, EMPTY, events[..1]) == created;
    assert events[..|events| - 1] == events[..1] && events[|events| - 1] == PlacePurchase(id, false);
    PlaceIff(catalog, created, id);
    assert After(catalog, EMPTY, events) == Next(catalog, created, PlacePurchase(id, false));
  }

  lemma TwoLinesResolve(catalog: Catalog, a: Item, b: Item, sku: string)
    requires a.variantId == b.variantId && a.variantId in catalog && sku == catalog[a.variantId] && sku != ""
    ensures Resolve(catalog, [a, b]).Some? && Times(Resolve(catalog, [a, b]).value, sku) == 2
    ensures !DistinctSkus(Resolve(catalog, [a, b]).value)
  {
    var one, two := Line(sku, a.quantity), Line(sku, b.quantity);
    assert [a, b][..1] == [a] && [a][..0] == [];
    assert Resolve(catalog, []) == Some([]) && [] + [one] == [one];
    assert Resolve(catalog, [a]) == Some([one]);
    assert [one] + [two] == [one, two] && [one, two][..1] == [one];
    assert Times([one], sku) == 1;
  }

  /** So an order with two lines of one variant is placed in two steps, and then nothing ever closes it. */
  lemma RepeatedSkuGetsStuck(catalog: Catalog, id: string, destination: string, a: Item, b: Item, events: seq<Event>)
      returns (start: seq<Event>)
    requires a.variantId == b.variantId && a.variantId in catalog && catalog[a.variantId] != ""
    requires a.quantity > 0 && b.quantity > 0
    ensures start == [CreateOrder(id, Order(destination, [a, b], DraftOrder)), PlacePurchase(id, false)]
    ensures id in After(catalog, After(catalog, EMPTY, start), events).orders
    ensures After(catalog, After(catalog, EMPTY, start), events).orders[id] == Order(destination, [a, b], Ordered)
  {
    var o := Order(destination, [a, b], DraftOrder);
    TwoLinesResolve(catalog, a, b, catalog[a.variantId]);
    start := [CreateOrder(id, o), PlacePurchase(id, false)];
    FirstOrderIsPlaced(catalog, id, o, start);
    InTransitIsOpenDocuments(catalog, start);
    RepeatedSkuNeverCloses(catalog, After(catalog, EMPTY, start), events, id);
  }

  /** A step changes an order only if it is that order's own. */
  lemma OrdersOf(catalog: Catalog, w: World, e: Event, id: string)
    requires id in w.orders
    ensures id in Next(catalog, w, e).orders
    ensures Next(catalog, w, e).orders[id] == w.orders[id] || (e.PlacePurchase? && e.id == id && PlaceOrder(w, catalog, id, e.intercepted).Some?)
            || (e == ReceivePurchase(id) && ReceiveOrder(w, catalog, id).Some?) || (e == CancelPurchase(id) && CancelOrder(w, catalog, id).Some?)
  {}

  /** An order waiting for approval is never placed afterwards: it stays pending or is cancelled. */
  lemma {:induction false} PendingApprovalIsFinal(catalog: Catalog, w: World, events: seq<Event>, id: string)
    requires id in w.orders && w.orders[id].status in {PendingApproval, CancelledOrder}
    ensures id in After(catalog, w, events).orders
    ensures After(catalog, w, events).orders[id].status in {PendingApproval, CancelledOrder}
  {
    if events != [] {
      PendingApprovalIsFinal(catalog, w, events[..|events| - 1], id);
      OrdersOf(catalog, After(catalog, w, events[..|events| - 1]), events[|events| - 1], id);
    }
  }
}
