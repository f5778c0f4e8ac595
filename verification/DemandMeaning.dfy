/** Which sales and deliveries the reorder statistics count, on the entries' own fields. */
module DemandMeaning {
  import opened DemandForecast
  import MapSums

  // ---------- sales ----------

  /** The units of each sale from a time on, and of those after a second time and up to a third. */
  ghost function SoldSince(entries: seq<Entry>, start: int): map<int, int> {
    map i | 0 <= i < |entries| && entries[i].sale && entries[i].quantity < 0 && start <= entries[i].occurredAt :: -entries[i].quantity
  }

  ghost function SoldWithin(entries: seq<Entry>, start: int, after: int, until: int): map<int, int> {
    map i | i in SoldSince(entries, start) && after < entries[i].occurredAt <= until :: -entries[i].quantity
  }

  lemma SinceMore(front: seq<Entry>, e: Entry, start: int)
    ensures var m := SoldSince(front, start);
            SoldSince(front + [e], start) == if e.sale && e.quantity < 0 && start <= e.occurredAt then m[|front| := -e.quantity] else m
  {
    assert forall i :: 0 <= i < |front| ==> (front + [e])[i] == front[i];
    assert (front + [e])[|front|] == e;
  }

  lemma WithinMore(front: seq<Entry>, e: Entry, start: int, after: int, until: int)
    ensures var m := SoldWithin(front, start, after, until);
            SoldWithin(front + [e], start, after, until)
            == if e.sale && e.quantity < 0 && start <= e.occurredAt && after < e.occurredAt <= until then m[|front| := -e.quantity] else m
  {
    assert forall i :: 0 <= i < |front| ==> (front + [e])[i] == front[i];
    assert (front + [e])[|front|] == e;
    SinceMore(front, e, start);
  }

  /** The total counts the sales since the window's first midnight. */
  lemma {:induction false} SoldMeans(entries: seq<Entry>, w: Window)
    ensures Sold(entries, w) == MapSums.Sum(SoldSince(entries, w.start)) as real
  {
    if entries == [] {
      assert SoldSince(entries, w.start) == map[];
    } else {
      var front, e := entries[..|entries| - 1], entries[|entries| - 1];
      assert entries == front + [e];
      SoldMeans(front, w);
      SinceMore(front, e, w.start);
      MapSums.SumUpdate(SoldSince(front, w.start), |front|, -e.quantity);
    }
  }

  lemma OnDay(e: Entry, w: Window, k: nat)
    requires k < w.days && w.Counts(e)
    ensures w.DayIndex(e) == k <==> w.todayEnd - (w.days - k) * DAY < e.occurredAt <= w.todayEnd - (w.days - k - 1) * DAY
  {
    QuotientIs(w.todayEnd - e.occurredAt, w.days - 1 - k);
  }

  lemma QuotientIs(x: int, q: int)
    ensures x / DAY == q <==> q * DAY <= x < (q + 1) * DAY
  {}

  /** Day k counts those of them in the 24 hours that end `days - 1 - k` times 24 hours before the end of today. */
  lemma {:induction false} DailyMeans(entries: seq<Entry>, w: Window, k: nat, after: int, until: int)
    requires k < w.days && after == w.todayEnd - (w.days - k) * DAY && until == w.todayEnd - (w.days - k - 1) * DAY
    ensures Daily(entries, w)[k] == MapSums.Sum(SoldWithin(entries, w.start, after, until)) as real
  {
    if entries == [] {
      assert SoldWithin(entries, w.start, after, until) == map[];
    } else {
      var front, e := entries[..|entries| - 1], entries[|entries| - 1];
      assert entries == front + [e];
      DailyMeans(front, w, k, after, until);
      WithinMore(front, e, w.start, after, until);
      MapSums.SumUpdate(SoldWithin(front, w.start, after, until), |front|, -e.quantity);
      if w.Counts(e) { OnDay(e, w, k); }
    }
  }

  // ---------- deliveries ----------

  /** A received order with the variant, and one that goes to the location. */
  ghost predicate Delivers(o: Order, variant: string) { o.received && exists i :: 0 <= i < |o.variants| && o.variants[i] == variant }

  ghost predicate DeliversTo(o: Order, variant: string, location: string) { Delivers(o, variant) && o.destination == location }

  /** The orders at these positions, which ascend and are those with a property. */
  ghost predicate Picks(orders: seq<Order>, places: seq<int>, picked: seq<Order>, p: Order -> bool) {
    && |picked| == |places| && (forall j :: 0 <= j < |places| ==> 0 <= places[j] < |orders| && picked[j] == orders[places[j]])
    && (forall j, k :: 0 <= j < k < |places| ==> places[j] < places[k])
    && (forall i :: 0 <= i < |orders| ==> (p(orders[i]) <==> i in places))
  }

  lemma PicksMore(front: seq<Order>, o: Order, places: seq<int>, picked: seq<Order>, p: Order -> bool)
    requires Picks(front, places, picked, p)
    ensures if p(o) then Picks(front + [o], places + [|front|], picked + [o], p) else Picks(front + [o], places, picked, p)
  {
    var all := front + [o];
    assert forall i :: 0 <= i < |front| ==> all[i] == front[i];
    assert |front| !in places;
    if p(o) {
      assert forall i :: 0 <= i < |all| ==> (i in places + [|front|] <==> i in places || i == |front|);
    }
  }

  lemma FirstPick(orders: seq<Order>, places: seq<int>, picked: seq<Order>, p: Order -> bool)
    requires Picks(orders, places, picked, p) && picked != []
    ensures picked[0] in orders && p(picked[0])
  {
    assert places[0] in places;
  }

  lemma {:induction false} DeliveriesMean(orders: seq<Order>, variant: string) returns (places: seq<int>)
    ensures Picks(orders, places, Deliveries(orders, variant), o => Delivers(o, variant))
  {
    places := [];
    if orders != [] {
      var front, o := orders[..|orders| - 1], orders[|orders| - 1];
      assert orders == front + [o];
      places := DeliveriesMean(front, variant);
      PicksMore(front, o, places, Deliveries(front, variant), x => Delivers(x, variant));
      if Delivers(o, variant) { places := places + [|front|]; } else { assert Deliveries(front, variant) + [] == Deliveries(front, variant); }
    }
  }

  lemma {:induction false} DeliveriesToMean(orders: seq<Order>, variant: string, location: string) returns (places: seq<int>)
    ensures Picks(orders, places, DeliveriesTo(orders, variant, location), o => DeliversTo(o, variant, location))
  {
    places := [];
    if orders != [] {
      var front, o := orders[..|orders| - 1], orders[|orders| - 1];
      assert orders == front + [o];
      places := DeliveriesToMean(front, variant, location);
      PicksMore(front, o, places, DeliveriesTo(front, variant, location), x => DeliversTo(x, variant, location));
      if DeliversTo(o, variant, location) { places := places + [|front|]; }
      else { assert DeliveriesTo(front, variant, location) + [] == DeliveriesTo(front, variant, location); }
    }
  }

  /** The lead times are those of the deliveries to the location, in the order given; of all deliveries if none went there. */
  lemma RelevantMeans(orders: seq<Order>, variant: string, location: string) returns (places: seq<int>)
    ensures Picks(orders, places, Relevant(orders, variant, location),
                  if exists o :: o in orders && DeliversTo(o, variant, location) then x => DeliversTo(x, variant, location)
                  else x => Delivers(x, variant))
  {
    places := DeliveriesToMean(orders, variant, location);
    if o :| o in orders && DeliversTo(o, variant, location) {
      var i :| 0 <= i < |orders| && orders[i] == o;
      assert i in places;
    } else {
      if DeliveriesTo(orders, variant, location) != [] { FirstPick(orders, places, DeliveriesTo(orders, variant, location), x => DeliversTo(x, variant, location)); }
      places := DeliveriesMean(orders, variant);
    }
  }

  /** A lead time is the days from an order's creation to its last update; 0 if the update comes first. */
  lemma LeadTimeMeans(orders: seq<Order>, i: nat)
    requires i < |orders|
    ensures var elapsed := orders[i].updatedAt - orders[i].createdAt;
            LeadTimes(orders)[i] * 86_400_000.0 == if elapsed > 0 then elapsed as real else 0.0
  {
    var days := (orders[i].updatedAt - orders[i].createdAt) as real / DAY as real;
    assert days * 86_400_000.0 == (orders[i].updatedAt - orders[i].createdAt) as real;
  }
}
