/** What each use case over transfers and purchase orders does to stock, ledger and documents, place by place. */
module StockMeaning {
  import opened Options
  import opened StockOrders
  import opened StockFlow
  import opened OpenDocuments
  import opened StockRuns
  import opened StockConservation
  import MapSums

  // ---------- quantities ----------

  /** The units of a SKU on all lines of a document. */
  ghost function OnLines(catalog: Catalog, items: seq<Item>, sku: string): int {
    MapSums.Sum(map i | 0 <= i < |items| && items[i].variantId in catalog && catalog[items[i].variantId] == sku :: items[i].quantity as int)
  }

  /** The sum of a place's ledger entries. */
  ghost function Booked(ledger: seq<Entry>, p: Place): int {
    MapSums.Sum(map i | 0 <= i < |ledger| && ledger[i].place == p :: ledger[i].quantity)
  }

  lemma {:induction false} QuantityOnLines(catalog: Catalog, items: seq<Item>, sku: string)
    ensures ItemQty(catalog, items, sku) == OnLines(catalog, items, sku)
  {
    if items != [] {
      var n := |items| - 1;
      var front, item := items[..n], items[n];
      QuantityOnLines(catalog, front, sku);
      var before := map i | 0 <= i < n && front[i].variantId in catalog && catalog[front[i].variantId] == sku :: front[i].quantity as int;
      var all := map i | 0 <= i < n + 1 && items[i].variantId in catalog && catalog[items[i].variantId] == sku :: items[i].quantity as int;
      if item.variantId in catalog && catalog[item.variantId] == sku {
        assert all == before[n := item.quantity];
        MapSums.SumUpdate(before, n, item.quantity);
      } else {
        assert all == before;
      }
    }
  }

  lemma {:induction false} BalanceIsBooked(ledger: seq<Entry>, p: Place)
    ensures Balance(ledger, p) == Booked(ledger, p)
  {
    if ledger != [] {
      var n := |ledger| - 1;
      var front := ledger[..n];
      BalanceIsBooked(front, p);
      var before := map i | 0 <= i < n && front[i].place == p :: front[i].quantity;
      var all := map i | 0 <= i < n + 1 && ledger[i].place == p :: ledger[i].quantity;
      if ledger[n].place == p {
        assert all == before[n := ledger[n].quantity];
        MapSums.SumUpdate(before, n, ledger[n].quantity);
      } else {
        assert all == before;
      }
    }
  }

  // ---------- effects ----------

  /** On hand, in transit and in the ledger a place changes by these amounts. */
  ghost predicate Changes(w: World, next: World, p: Place, hand: int, transit: int, booked: int) {
    && OnHand(next.inventory, p) == OnHand(w.inventory, p) + hand
    && Transit(next.inventory, p) == Transit(w.inventory, p) + transit
    && Booked(next.ledger, p) == Booked(w.ledger, p) + booked
  }

  lemma LedgerFollows(w: World, next: World, p: Place, hand: int, transit: int)
    requires Gap(next, p) == Gap(w, p)
    requires OnHand(next.inventory, p) == OnHand(w.inventory, p) + hand && Transit(next.inventory, p) == Transit(w.inventory, p) + transit
    ensures Changes(w, next, p, hand, transit, hand)
  {
    BalanceIsBooked(w.ledger, p);
    BalanceIsBooked(next.ledger, p);
  }

  /** Dispatching a draft takes its lines off the shelf at the source and puts them in transit to the destination. */
  lemma DispatchMeans(catalog: Catalog, w: World, id: string, next: World, p: Place)
    requires Inv(catalog, w) && Dispatch(w, catalog, id) == Some(next)
    ensures id in w.transfers && w.transfers[id].status == Draft
    ensures var t := w.transfers[id];
            var q := OnLines(catalog, t.items, p.sku);
            && next.orders == w.orders && next.transfers == w.transfers[id := t.(status := Dispatched)]
            && Changes(w, next, p, if p.location == t.source then -q else 0, if p.location == t.destination then q else 0,
                       if p.location == t.source then -q else 0)
  {
    var t := w.transfers[id];
    assert SoundTransfer(catalog, t);
    QuantityOnLines(catalog, t.items, p.sku);
    DispatchMoves(catalog, w, id, next, p);
    TransferKeepsGap(catalog, w, id, DispatchTransfer(id), p);
    var q := OnLines(catalog, t.items, p.sku);
    LedgerFollows(w, next, p, if p.location == t.source then -q else 0, if p.location == t.destination then q else 0);
  }

  /** Receiving a dispatched transfer puts its lines on the shelf at the destination. */
  lemma ReceiveMeans(catalog: Catalog, w: World, id: string, next: World, p: Place)
    requires Inv(catalog, w) && Receive(w, catalog, id) == Some(next)
    ensures id in w.transfers && w.transfers[id].status == Dispatched
    ensures var t := w.transfers[id];
            var q := if p.location == t.destination then OnLines(catalog, t.items, p.sku) else 0;
            && next.orders == w.orders && next.transfers == w.transfers[id := t.(status := Received)]
            && Changes(w, next, p, q, -q, q)
  {
    var t := w.transfers[id];
    QuantityOnLines(catalog, t.items, p.sku);
    ReceiveMoves(catalog, w, id, next, p);
    TransferKeepsGap(catalog, w, id, ReceiveTransfer(id), p);
    var q := if p.location == t.destination then OnLines(catalog, t.items, p.sku) else 0;
    LedgerFollows(w, next, p, q, -q);
  }

  /** Cancelling a dispatched transfer puts its lines back on the shelf at the source; cancelling a draft moves nothing. */
  lemma CancelMeans(catalog: Catalog, w: World, id: string, next: World, p: Place)
    requires Inv(catalog, w) && Cancel(w, catalog, id) == Some(next)
    ensures id in w.transfers && w.transfers[id].status in {Draft, Dispatched}
    ensures var t := w.transfers[id];
            var q := if t.status == Dispatched then OnLines(catalog, t.items, p.sku) else 0;
            && next.orders == w.orders && next.transfers == w.transfers[id := t.(status := Cancelled)]
            && Changes(w, next, p, if p.location == t.source then q else 0, if p.location == t.destination then -q else 0,
                       if p.location == t.source then q else 0)
  {
    var t := w.transfers[id];
    QuantityOnLines(catalog, t.items, p.sku);
    CancelMoves(catalog, w, id, next, p);
    TransferKeepsGap(catalog, w, id, CancelTransfer(id), p);
    var q := if t.status == Dispatched then OnLines(catalog, t.items, p.sku) else 0;
    LedgerFollows(w, next, p, if p.location == t.source then q else 0, if p.location == t.destination then -q else 0);
  }

  /** Placing a draft order puts its lines in transit; sent for approval, it only changes its status. */
  lemma PlaceMeans(catalog: Catalog, w: World, id: string, intercepted: bool, next: World, p: Place)
    requires Inv(catalog, w) && PlaceOrder(w, catalog, id, intercepted) == Some(next)
    ensures id in w.orders && w.orders[id].status == DraftOrder
    ensures var o := w.orders[id];
            var q := if !intercepted && p.location == o.destination then OnLines(catalog, o.items, p.sku) else 0;
            && next.transfers == w.transfers && next.orders == w.orders[id := o.(status := if intercepted then PendingApproval else Ordered)]
            && Changes(w, next, p, 0, q, 0)
  {
    var o := w.orders[id];
    QuantityOnLines(catalog, o.items, p.sku);
    OrderKeepsGap(catalog, w, id, PlacePurchase(id, intercepted), p);
    if !intercepted { OrderLegMoves(catalog, w, id, Leg(o.destination, CreateKind, CreateMissing), 0, p); }
    var q := if !intercepted && p.location == o.destination then OnLines(catalog, o.items, p.sku) else 0;
    LedgerFollows(w, next, p, 0, q);
  }

  /** Receiving an ordered purchase order puts its lines on the shelf and in the ledger. */
  lemma ReceiveOrderMeans(catalog: Catalog, w: World, id: string, next: World, p: Place)
    requires Inv(catalog, w) && ReceiveOrder(w, catalog, id) == Some(next)
    ensures id in w.orders && w.orders[id].status == Ordered
    ensures var o := w.orders[id];
            var q := if p.location == o.destination then OnLines(catalog, o.items, p.sku) else 0;
            && next.transfers == w.transfers && next.orders == w.orders[id := o.(status := ReceivedOrder)]
            && Changes(w, next, p, q, -q, q)
  {
    var o := w.orders[id];
    QuantityOnLines(catalog, o.items, p.sku);
    OrderKeepsGap(catalog, w, id, ReceivePurchase(id), p);
    OrderLegMoves(catalog, w, id, Leg(o.destination, ArriveKind, RequireExisting), 1, p);
    var q := if p.location == o.destination then OnLines(catalog, o.items, p.sku) else 0;
    LedgerFollows(w, next, p, q, -q);
  }

  /** Cancelling an ordered purchase order takes its lines out of transit; cancelling an earlier one moves nothing. */
  lemma CancelOrderMeans(catalog: Catalog, w: World, id: string, next: World, p: Place)
    requires Inv(catalog, w) && CancelOrder(w, catalog, id) == Some(next)
    ensures id in w.orders && w.orders[id].status in {DraftOrder, PendingApproval, Ordered}
    ensures var o := w.orders[id];
            var q := if o.status == Ordered && p.location == o.destination then OnLines(catalog, o.items, p.sku) else 0;
            && next.transfers == w.transfers && next.orders == w.orders[id := o.(status := CancelledOrder)]
            && Changes(w, next, p, 0, -q, 0)
  {
    var o := w.orders[id];
    QuantityOnLines(catalog, o.items, p.sku);
    OrderKeepsGap(catalog, w, id, CancelPurchase(id), p);
    if o.status == Ordered { OrderLegMoves(catalog, w, id, Leg(o.destination, DropKind, SkipMissing), 0, p); }
    var q := if o.status == Ordered && p.location == o.destination then OnLines(catalog, o.items, p.sku) else 0;
    LedgerFollows(w, next, p, 0, -q);
  }

  /** Every item's variant is known, under a SKU that is not empty. */
  ghost predicate Named(catalog: Catalog, items: seq<Item>) {
    forall i :: 0 <= i < |items| ==> items[i].variantId in catalog && catalog[items[i].variantId] != ""
  }

  lemma {:induction false} ResolveMeans(catalog: Catalog, items: seq<Item>)
    ensures Resolve(catalog, items).Some? <==> Named(catalog, items)
    ensures Resolve(catalog, items).Some? ==>
              |Resolve(catalog, items).value| == |items| &&
              forall i :: 0 <= i < |items| ==> Resolve(catalog, items).value[i] == Line(catalog[items[i].variantId], items[i].quantity)
  {
    if items != [] {
      ResolveMeans(catalog, items[..|items| - 1]);
      assert forall i :: 0 <= i < |items| - 1 ==> items[..|items| - 1][i] == items[i];
    }
  }

  /** Goods only move on documents all of whose items are so. */
  lemma OnlyNamedMoves(catalog: Catalog, w: World, id: string)
    ensures Dispatch(w, catalog, id).Some? || Receive(w, catalog, id).Some? ==> id in w.transfers && Named(catalog, w.transfers[id].items)
    ensures Cancel(w, catalog, id).Some? ==> id in w.transfers && (w.transfers[id].status == Dispatched ==> Named(catalog, w.transfers[id].items))
    ensures PlaceOrder(w, catalog, id, false).Some? || ReceiveOrder(w, catalog, id).Some? ==> id in w.orders && Named(catalog, w.orders[id].items)
    ensures CancelOrder(w, catalog, id).Some? ==> id in w.orders && (w.orders[id].status == Ordered ==> Named(catalog, w.orders[id].items))
  {
    if id in w.transfers { ResolveMeans(catalog, w.transfers[id].items); }
    if id in w.orders { ResolveMeans(catalog, w.orders[id].items); }
  }

  /** What nothing in stock can prevent: cancelling what was not sent or ordered yet, and sending a draft order for approval. */
  lemma AlwaysPossible(catalog: Catalog, w: World, id: string)
    ensures id in w.transfers && w.transfers[id].status == Draft ==> Cancel(w, catalog, id).Some?
    ensures id in w.orders && w.orders[id].status in {DraftOrder, PendingApproval} ==> CancelOrder(w, catalog, id).Some?
    ensures id in w.orders && w.orders[id].status == DraftOrder ==> PlaceOrder(w, catalog, id, true).Some?
  {}
}
