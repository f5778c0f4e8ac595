/** The in-transit counters as the sum of the open documents, and exactly when documents can be dispatched,
    received and cancelled. */
module OpenDocuments {
  import opened Options
  import opened StockOrders
  import opened StockFlow
  import MapSums

  // ---------- what is due ----------

  function ItemQty(catalog: Catalog, items: seq<Item>, sku: string): nat {
    if items == [] then 0
    else
      var item := items[|items| - 1];
      ItemQty(catalog, items[..|items| - 1], sku)
      + if item.variantId in catalog && catalog[item.variantId] == sku then item.quantity else 0
  }

  lemma {:induction false} ResolvedQty(catalog: Catalog, items: seq<Item>, lines: seq<Line>, sku: string)
    requires Resolve(catalog, items) == Some(lines)
    ensures Qty(lines, sku) == ItemQty(catalog, items, sku)
  {
    if items != [] {
      var front := Resolve(catalog, items[..|items| - 1]).value;
      ResolvedQty(catalog, items[..|items| - 1], front, sku);
      assert lines[..|lines| - 1] == front;
    }
  }

  lemma {:induction false} ResolvedItem(catalog: Catalog, items: seq<Item>, lines: seq<Line>, i: nat)
    requires Resolve(catalog, items) == Some(lines) && i < |lines|
    ensures |lines| == |items| && lines[i].quantity == items[i].quantity
  {
    var front := Resolve(catalog, items[..|items| - 1]).value;
    if i < |front| {
      ResolvedItem(catalog, items[..|items| - 1], front, i);
    } else if front != [] {
      ResolvedItem(catalog, items[..|items| - 1], front, 0);
    }
  }

  function Due(catalog: Catalog, open: bool, destination: string, items: seq<Item>, p: Place): int {
    if open && destination == p.location then ItemQty(catalog, items, p.sku) else 0
  }

  function TransferDue(catalog: Catalog, t: Transfer, p: Place): int {
    Due(catalog, t.status == Dispatched, t.destination, t.items, p)
  }

  function OrderDue(catalog: Catalog, o: Order, p: Place): int {
    Due(catalog, o.status == Ordered, o.destination, o.items, p)
  }

  ghost function TransfersDue(catalog: Catalog, transfers: map<string, Transfer>, p: Place): map<string, int> {
    map id | id in transfers :: TransferDue(catalog, transfers[id], p)
  }

  ghost function OrdersDue(catalog: Catalog, orders: map<string, Order>, p: Place): map<string, int> {
    map id | id in orders :: OrderDue(catalog, orders[id], p)
  }

  /** Everything dispatched or ordered to a place and not yet received or cancelled. */
  ghost function Open(catalog: Catalog, w: World, p: Place): int {
    MapSums.Sum(TransfersDue(catalog, w.transfers, p)) + MapSums.Sum(OrdersDue(catalog, w.orders, p))
  }

  // ---------- the invariant ----------

  predicate PositiveItems(items: seq<Item>) { forall i :: 0 <= i < |items| ==> items[i].quantity > 0 }

  ghost predicate DistinctSkus(lines: seq<Line>) { forall sku: string :: Times(lines, sku) <= 1 }

  ghost predicate SoundTransfer(catalog: Catalog, t: Transfer) {
    && t.source != t.destination && PositiveItems(t.items)
    && (t.status == Dispatched ==> Resolve(catalog, t.items).Some? && DistinctSkus(Resolve(catalog, t.items).value))
  }

  ghost predicate SoundOrder(catalog: Catalog, o: Order) {
    PositiveItems(o.items) && (o.status == Ordered ==> Resolve(catalog, o.items).Some?)
  }

  ghost predicate Inv(catalog: Catalog, w: World) {
    && (forall p: Place :: Transit(w.inventory, p) == Open(catalog, w, p))
    && (forall id :: id in w.transfers ==> SoundTransfer(catalog, w.transfers[id]))
    && (forall id :: id in w.orders ==> SoundOrder(catalog, w.orders[id]))
  }

  lemma TransferUpdate(catalog: Catalog, w: World, id: string, t: Transfer, p: Place)
    ensures Open(catalog, w.(transfers := w.transfers[id := t]), p)
            == Open(catalog, w, p) + TransferDue(catalog, t, p)
               - if id in w.transfers then TransferDue(catalog, w.transfers[id], p) else 0
  {
    var m := TransfersDue(catalog, w.transfers, p);
    assert TransfersDue(catalog, w.transfers[id := t], p) == m[id := TransferDue(catalog, t, p)];
    MapSums.SumUpdate(m, id, TransferDue(catalog, t, p));
  }

  lemma OrderUpdate(catalog: Catalog, w: World, id: string, o: Order, p: Place)
    ensures Open(catalog, w.(orders := w.orders[id := o]), p)
            == Open(catalog, w, p) + OrderDue(catalog, o, p) - if id in w.orders then OrderDue(catalog, w.orders[id], p) else 0
  {
    var m := OrdersDue(catalog, w.orders, p);
    assert OrdersDue(catalog, w.orders[id := o], p) == m[id := OrderDue(catalog, o, p)];
    MapSums.SumUpdate(m, id, OrderDue(catalog, o, p));
  }

  lemma {:induction false} SumNonnegative(m: map<string, int>)
    requires forall k :: k in m ==> m[k] >= 0
    ensures MapSums.Sum(m) >= 0
  {
    if m != map[] {
      var k :| k in m;
      MapSums.SumAtLeast(m, k);
    }
  }

  /** What one open document is owed is in transit. */
  lemma TransferInTransit(catalog: Catalog, w: World, id: string, p: Place)
    requires Inv(catalog, w) && id in w.transfers
    ensures TransferDue(catalog, w.transfers[id], p) <= Transit(w.inventory, p)
  {
    MapSums.SumAtLeast(TransfersDue(catalog, w.transfers, p), id);
    SumNonnegative(OrdersDue(catalog, w.orders, p));
    assert Transit(w.inventory, p) == Open(catalog, w, p);
  }

  lemma OrderInTransit(catalog: Catalog, w: World, id: string, p: Place)
    requires Inv(catalog, w) && id in w.orders
    ensures OrderDue(catalog, w.orders[id], p) <= Transit(w.inventory, p)
  {
    MapSums.SumAtLeast(OrdersDue(catalog, w.orders, p), id);
    SumNonnegative(TransfersDue(catalog, w.transfers, p));
    assert Transit(w.inventory, p) == Open(catalog, w, p);
  }

  // ---------- lines of a document ----------

  lemma {:induction false} LineNamed(lines: seq<Line>, i: nat)
    requires i < |lines|
    ensures Times(lines, lines[i].sku) > 0 && Qty(lines, lines[i].sku) >= lines[i].quantity
  {
    if i < |lines| - 1 { LineNamed(lines[..|lines| - 1], i); }
  }

  /** The lines bound for a location have their goods in transit there, so there is an item to work on. */
  lemma GoodsAreThere(catalog: Catalog, rows: Rows, items: seq<Item>, lines: seq<Line>, location: string)
    requires Resolve(catalog, items) == Some(lines) && PositiveItems(items)
    requires forall sku: string :: ItemQty(catalog, items, sku) <= Transit(rows, Place(sku, location))
    ensures forall i :: 0 <= i < |lines| ==>
              var p := Place(lines[i].sku, location); p in rows && rows[p].inTransit >= Qty(lines, lines[i].sku)
  {
    forall i | 0 <= i < |lines|
      ensures var p := Place(lines[i].sku, location); p in rows && rows[p].inTransit >= Qty(lines, lines[i].sku)
    {
      ResolvedQty(catalog, items, lines, lines[i].sku);
      ResolvedItem(catalog, items, lines, i);
      LineNamed(lines, i);
      assert ItemQty(catalog, items, lines[i].sku) <= Transit(rows, Place(lines[i].sku, location));
    }
  }

  lemma {:induction false} HitsAtMostOnce(legs: seq<Leg>, location: string)
    requires DistinctLegs(legs)
    ensures Hits(legs, location) <= 1
  {
    if legs != [] {
      var n := |legs| - 1;
      assert forall i :: 0 <= i < n ==> legs[..n][i] == legs[i];
      HitsAtMostOnce(legs[..n], location);
      if legs[n].location == location { NoLeg(legs[..n], location); }
    }
  }

  lemma DistinctEditedOnce(rows: Rows, lines: seq<Line>, legs: seq<Leg>)
    requires DistinctSkus(lines) && DistinctLegs(legs)
    ensures EditedOnce(rows, lines, legs)
  {
    forall p | p in rows ensures Hits(legs, p.location) * Times(lines, p.sku) <= 1 {
      HitsAtMostOnce(legs, p.location);
      assert Times(lines, p.sku) <= 1;
    }
  }

  // ---------- receiving and cancelling open documents ----------

  /** The lines of a dispatched transfer, all in transit at its destination. */
  lemma TransferLines(catalog: Catalog, w: World, id: string, lines: seq<Line>)
    requires Inv(catalog, w) && id in w.transfers && w.transfers[id].status == Dispatched
    requires Resolve(catalog, w.transfers[id].items) == Some(lines)
    ensures DistinctSkus(lines) && forall i :: 0 <= i < |lines| ==>
              var p := Place(lines[i].sku, w.transfers[id].destination);
              p in w.inventory && w.inventory[p].inTransit >= Qty(lines, lines[i].sku)
  {
    var t := w.transfers[id];
    assert SoundTransfer(catalog, t);
    forall sku: string ensures ItemQty(catalog, t.items, sku) <= Transit(w.inventory, Place(sku, t.destination)) {
      TransferInTransit(catalog, w, id, Place(sku, t.destination));
    }
    GoodsAreThere(catalog, w.inventory, t.items, lines, t.destination);
  }

  lemma Closes(catalog: Catalog, w: World, id: string, lines: seq<Line>)
    requires id in w.transfers && w.transfers[id].status == Dispatched
    requires Resolve(catalog, w.transfers[id].items) == Some(lines)
    requires Saved(w.inventory, lines, [Leg(w.transfers[id].destination, ArriveKind, RequireExisting)]).Some?
    requires Saved(w.inventory, lines, UndoLegs(w.transfers[id])).Some?
    ensures Receive(w, catalog, id).Some? && Cancel(w, catalog, id).Some?
  {}

  /** Goods in transit at a place are enough to receive them there, and to send them back. */
  lemma {:induction false} ClosingSaves(rows: Rows, lines: seq<Line>, t: Transfer)
    requires t.source != t.destination && DistinctSkus(lines)
    requires forall i :: 0 <= i < |lines| ==>
      var p := Place(lines[i].sku, t.destination); p in rows && rows[p].inTransit >= Qty(lines, lines[i].sku)
    ensures Saved(rows, lines, [Leg(t.destination, ArriveKind, RequireExisting)]).Some?
    ensures Saved(rows, lines, UndoLegs(t)).Some?
  {
    SavedWhenSufficient(rows, lines, [Leg(t.destination, ArriveKind, RequireExisting)]);
    SavedWhenSufficient(rows, lines, UndoLegs(t));
  }

  /** In every state of a run, a dispatched transfer can be received and can be cancelled. */
  lemma OpenTransferCanBeClosed(catalog: Catalog, w: World, id: string)
    requires Inv(catalog, w) && id in w.transfers && w.transfers[id].status == Dispatched
    ensures Receive(w, catalog, id).Some? && Cancel(w, catalog, id).Some?
  {
    var t := w.transfers[id];
    assert SoundTransfer(catalog, t);
    var lines := Resolve(catalog, t.items).value;
    TransferLines(catalog, w, id, lines);
    ClosingSaves(w.inventory, lines, t);
    Closes(catalog, w, id, lines);
  }

  lemma {:induction false} SavedWhenSufficient(rows: Rows, lines: seq<Line>, legs: seq<Leg>)
    requires DistinctSkus(lines) && DistinctLegs(legs) && AllSuffice(rows, lines, legs)
    ensures Saved(rows, lines, legs).Some?
  {
    LinesSucceed(rows, lines, legs);
    DistinctEditedOnce(rows, lines, legs);
    SavedIffEditedOnce(rows, lines, legs);
  }

  lemma OrderCloses(catalog: Catalog, w: World, id: string, lines: seq<Line>)
    requires id in w.orders && w.orders[id].status == Ordered && Resolve(catalog, w.orders[id].items) == Some(lines)
    ensures ReceiveOrder(w, catalog, id).Some? <==>
              Saved(w.inventory, lines, [Leg(w.orders[id].destination, ArriveKind, RequireExisting)]).Some?
    ensures CancelOrder(w, catalog, id).Some? <==>
              Saved(w.inventory, lines, [Leg(w.orders[id].destination, DropKind, SkipMissing)]).Some?
  {}

  lemma OrderedGoods(catalog: Catalog, w: World, id: string, lines: seq<Line>)
    requires Inv(catalog, w) && id in w.orders && w.orders[id].status == Ordered
    requires Resolve(catalog, w.orders[id].items) == Some(lines)
    ensures forall i :: 0 <= i < |lines| ==>
              var p := Place(lines[i].sku, w.orders[id].destination);
              p in w.inventory && w.inventory[p].inTransit >= Qty(lines, lines[i].sku)
  {
    var o := w.orders[id];
    assert SoundOrder(catalog, o);
    forall sku: string ensures ItemQty(catalog, o.items, sku) <= Transit(w.inventory, Place(sku, o.destination)) {
      OrderInTransit(catalog, w, id, Place(sku, o.destination));
    }
    GoodsAreThere(catalog, w.inventory, o.items, lines, o.destination);
  }

  lemma {:induction false} ClosingSavesIff(rows: Rows, lines: seq<Line>, destination: string)
    requires forall i :: 0 <= i < |lines| ==>
      var p := Place(lines[i].sku, destination); p in rows && rows[p].inTransit >= Qty(lines, lines[i].sku)
    ensures Saved(rows, lines, [Leg(destination, ArriveKind, RequireExisting)]).Some? <==> DistinctSkus(lines)
    ensures Saved(rows, lines, [Leg(destination, DropKind, SkipMissing)]).Some? <==> DistinctSkus(lines)
  {
    SavedIffDistinct(rows, lines, Leg(destination, ArriveKind, RequireExisting));
    SavedIffDistinct(rows, lines, Leg(destination, DropKind, SkipMissing));
  }

  /** An ordered purchase order never lacks in-transit stock, but it can be received, and can be cancelled,
      exactly when no SKU is on two of its lines: otherwise its item's version moves twice and the save is refused. */
  lemma OpenOrderClosesIffDistinct(catalog: Catalog, w: World, id: string)
    requires Inv(catalog, w) && id in w.orders && w.orders[id].status == Ordered
    ensures ReceiveOrder(w, catalog, id).Some? <==> DistinctSkus(Resolve(catalog, w.orders[id].items).value)
    ensures CancelOrder(w, catalog, id).Some? <==> DistinctSkus(Resolve(catalog, w.orders[id].items).value)
  {
    assert SoundOrder(catalog, w.orders[id]);
    var lines := Resolve(catalog, w.orders[id].items).value;
    OrderedGoods(catalog, w, id, lines);
    ClosingSavesIff(w.inventory, lines, w.orders[id].destination);
    OrderCloses(catalog, w, id, lines);
  }

  lemma {:induction false} SavedIffDistinct(rows: Rows, lines: seq<Line>, leg: Leg)
    requires AllSuffice(rows, lines, [leg])
    requires forall i :: 0 <= i < |lines| ==> Place(lines[i].sku, leg.location) in rows
    ensures Saved(rows, lines, [leg]).Some? <==> DistinctSkus(lines)
  {
    LinesSucceed(rows, lines, [leg]);
    SavedIffEditedOnce(rows, lines, [leg]);
    if DistinctSkus(lines) {
      DistinctEditedOnce(rows, lines, [leg]);
    } else {
      var sku: string :| Times(lines, sku) > 1;
      var i := NamedBy(lines, sku);
      LegAlone([leg], 0);
      assert Place(lines[i].sku, leg.location) in rows;
    }
  }

  lemma {:induction false} NamedBy(lines: seq<Line>, sku: string) returns (i: nat)
    requires Times(lines, sku) > 0
    ensures i < |lines| && lines[i].sku == sku
  {
    var n := |lines| - 1;
    if lines[n].sku == sku { i := n; } else { i := NamedBy(lines[..n], sku); }
  }

  // ---------- dispatching and placing ----------

  lemma TwoLegs(a: Leg, b: Leg, location: string)
    requires a.location != b.location
    ensures var legs := [a, b];
            && HandAt(legs, location) == (if location == a.location then HandCoef(a.kind) else if location == b.location then HandCoef(b.kind) else 0)
            && TransitAt(legs, location) == (if location == a.location then TransitCoef(a.kind) else if location == b.location then TransitCoef(b.kind) else 0)
            && Hits(legs, location) == (if location == a.location || location == b.location then 1 else 0)
  {
    assert [a, b][..1] == [a] && [a][..0] == [];
    assert HandAt([a], location) == if location == a.location then HandCoef(a.kind) else 0;
    assert TransitAt([a], location) == if location == a.location then TransitCoef(a.kind) else 0;
    assert Hits([a], location) == if location == a.location then 1 else 0;
  }

  lemma OneLeg(a: Leg, location: string)
    ensures HandAt([a], location) == if location == a.location then HandCoef(a.kind) else 0
    ensures TransitAt([a], location) == if location == a.location then TransitCoef(a.kind) else 0
    ensures Hits([a], location) == if location == a.location then 1 else 0
  {
    assert [a][..0] == [];
  }

  /** Stock for every line at the source. */
  ghost predicate Stocked(rows: Rows, lines: seq<Line>, source: string) {
    forall i :: 0 <= i < |lines| ==> Place(lines[i].sku, source) in rows && rows[Place(lines[i].sku, source)].quantity >= Qty(lines, lines[i].sku)
  }

  /** A draft transfer can be dispatched exactly when its variants are in the catalog, the source holds the
      stock of every line, and no SKU is on two lines. */
  lemma DispatchIff(catalog: Catalog, w: World, id: string)
    requires id in w.transfers && w.transfers[id].status == Draft && SoundTransfer(catalog, w.transfers[id])
    ensures Dispatch(w, catalog, id).Some? <==>
              var lines := Resolve(catalog, w.transfers[id].items);
              lines.Some? && DistinctSkus(lines.value) && Stocked(w.inventory, lines.value, w.transfers[id].source)
  {
    var t := w.transfers[id];
    if Resolve(catalog, t.items).Some? {
      var lines, legs := Resolve(catalog, t.items).value, DispatchLegs(t);
      if DistinctSkus(lines) && Stocked(w.inventory, lines, t.source) {
        SavedWhenSufficient(w.inventory, lines, legs);
      }
      if Saved(w.inventory, lines, legs).Some? {
        DispatchNeeds(w.inventory, lines, legs, t.source, t.destination);
      }
    }
  }

  lemma DispatchNeeds(rows: Rows, lines: seq<Line>, legs: seq<Leg>, source: string, destination: string)
    requires source != destination && Saved(rows, lines, legs).Some?
    requires legs == [Leg(source, DispatchKind, RequireExisting), Leg(destination, CreateKind, CreateMissing)]
    ensures DistinctSkus(lines) && Stocked(rows, lines, source)
  {
    forall i | 0 <= i < |lines|
      ensures Place(lines[i].sku, source) in rows && rows[Place(lines[i].sku, source)].quantity >= Qty(lines, lines[i].sku)
    {
      SourceHolds(rows, lines, legs, source, i);
    }
    SavedIffEditedOnce(rows, lines, legs);
    TwoLegs(legs[0], legs[1], source);
    forall sku: string ensures Times(lines, sku) <= 1 {
      if Times(lines, sku) > 0 {
        var i := NamedBy(lines, sku);
        assert Place(sku, source) in rows;
        assert Hits(legs, Place(sku, source).location) * Times(lines, Place(sku, source).sku) <= 1;
      }
    }
  }

  /** A saved dispatch found the stock of each line at the source. */
  lemma SourceHolds(rows: Rows, lines: seq<Line>, legs: seq<Leg>, source: string, i: nat)
    requires |legs| == 2 && legs[0] == Leg(source, DispatchKind, RequireExisting) && legs[1].location != source
    requires legs[1].policy == CreateMissing && Saved(rows, lines, legs).Some? && i < |lines|
    ensures Place(lines[i].sku, source) in rows && rows[Place(lines[i].sku, source)].quantity >= Qty(lines, lines[i].sku)
  {
    var p := Place(lines[i].sku, source);
    RequiredIsStored(rows, lines, legs, i, 0);
    SavedEffect(rows, lines, legs, Saved(rows, lines, legs).value, p);
    assert legs == [legs[0], legs[1]];
    TwoLegs(legs[0], legs[1], source);
  }
}
