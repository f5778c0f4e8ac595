/** The statistics behind the reorder point: daily sales binned by day (two-pass deviation around an average
    that also counts sales outside the bins), and lead times in one pass. Times are in milliseconds. */
module DemandForecast {
  import opened Options
  import opened Statistics

  const DAY: int := 86_400_000

  datatype Entry = Entry(quantity: int, sale: bool, occurredAt: int)

  /** The window: its first midnight, the last millisecond of today, and the number of days. */
  datatype Window = Window(start: int, todayEnd: int, days: nat)
  {
    predicate Counts(e: Entry) { e.quantity < 0 && e.sale && e.occurredAt >= start }

    function DayIndex(e: Entry): int { days - 1 - (todayEnd - e.occurredAt) / DAY }

    predicate Bins(e: Entry) { Counts(e) && 0 <= DayIndex(e) < days }

    /** A calendar window without a clock change: the first midnight is `days` days before today's. */
    predicate Regular() { todayEnd == start + (days + 1) * DAY - 1 }
  }

  function Sold(entries: seq<Entry>, w: Window): real {
    if entries == [] then 0.0
    else
      var e := entries[|entries| - 1];
      Sold(entries[..|entries| - 1], w) + if w.Counts(e) then (-e.quantity) as real else 0.0
  }

  /** Sales counted in the total but in no day. */
  function Dropped(entries: seq<Entry>, w: Window): real {
    if entries == [] then 0.0
    else
      var e := entries[|entries| - 1];
      Dropped(entries[..|entries| - 1], w) + if w.Counts(e) && !w.Bins(e) then (-e.quantity) as real else 0.0
  }

  function Daily(entries: seq<Entry>, w: Window): (r: seq<real>)
    ensures |r| == w.days
  {
    if entries == [] then seq(w.days, _ => 0.0)
    else
      var days, e := Daily(entries[..|entries| - 1], w), entries[|entries| - 1];
      if w.Bins(e) then days[w.DayIndex(e) := days[w.DayIndex(e)] + (-e.quantity) as real] else days
  }

  lemma {:induction false} SumZeros(n: nat)
    ensures Sum(seq(n, _ => 0.0)) == 0.0
  {
    if n > 0 {
      SumZeros(n - 1);
      assert seq(n, _ => 0.0)[..n - 1] == seq(n - 1, _ => 0.0);
    }
  }

  lemma {:induction false} DaysAddUp(entries: seq<Entry>, w: Window)
    ensures Sum(Daily(entries, w)) + Dropped(entries, w) == Sold(entries, w)
  {
    if entries == [] {
      SumZeros(w.days);
    } else {
      var front, e := entries[..|entries| - 1], entries[|entries| - 1];
      DaysAddUp(front, w);
      if w.Bins(e) {
        SumUpdate(Daily(front, w), Daily(entries, w), w.DayIndex(e), (-e.quantity) as real);
      }
    }
  }

  method DailySales(entries: seq<Entry>, w: Window) returns (total: real, daily: array<real>)
    ensures fresh(daily) && daily[..] == Daily(entries, w) && total == Sold(entries, w)
  {
    daily := new real[w.days](_ => 0.0);
    assert daily[..] == seq(w.days, _ => 0.0);
    total := 0.0;
    ghost var done := [];
    for i := 0 to |entries|
      invariant done == entries[..i] && daily[..] == Daily(done, w) && total == Sold(done, w)
    {
      var e := entries[i];
      assert (done + [e])[..i] == done;
      done := done + [e];
      if e.quantity < 0 && e.sale {
        if e.occurredAt >= w.start {
          var quantity := (-e.quantity) as real;
          total := total + quantity;
          var dayIndex := w.DayIndex(e);
          if dayIndex >= 0 && dayIndex < w.days {
            daily[dayIndex] := daily[dayIndex] + quantity;
          }
        }
      }
    }
    assert done == entries;
  }

  datatype Stats = Stats(average: real, stdDev: real)

  /** The second pass over the days. */
  method SquaresAround(daily: array<real>, average: real) returns (varianceSum: real)
    ensures varianceSum == SumAround(daily[..], average)
  {
    varianceSum := 0.0;
    ghost var done := [];
    for i := 0 to daily.Length
      invariant done == daily[..i] && varianceSum == SumAround(done, average)
    {
      assert (done + [daily[i]])[..i] == done;
      done := done + [daily[i]];
      varianceSum := varianceSum + Square(daily[i] - average);
    }
    assert done == daily[..];
  }

  /** A window of 0 days divides by zero, which is not a number. */
  method DailySalesStats(entries: seq<Entry>, w: Window, sqrt: real -> real) returns (stats: Option<Stats>)
    ensures stats.Some? <==> w.days > 0
    ensures stats.Some? ==> stats.value.average == Sold(entries, w) / w.days as real
    ensures stats.Some? ==> stats.value.stdDev == sqrt(SumAround(Daily(entries, w), stats.value.average) / w.days as real)
  {
    var total, daily := DailySales(entries, w);
    if w.days == 0 { return None; }
    var average := total / w.days as real;
    var varianceSum := SquaresAround(daily, average);
    stats := Some(Stats(average, sqrt(varianceSum / w.days as real)));
  }

  lemma AverageGap(total: real, binned: real, dropped: real, n: real, average: real, mean: real, perDay: real)
    requires n > 0.0 && binned + dropped == total && average == total / n && mean == binned / n && perDay == dropped / n
    ensures average - mean == perDay
    ensures perDay == 0.0 <==> dropped == 0.0
  {
    assert total / n * n == total && binned / n * n == binned;
    assert dropped / n == total / n - binned / n;
  }

  lemma SquareOfGap(x: real, y: real)
    requires x == -y
    ensures Square(x) == Square(y) && (Square(x) == 0.0 <==> x == 0.0)
  {
    if x != 0.0 { NonzeroSquare(x); }
  }

  /** The mean squared distance from any point: the variance plus the squared distance of the mean. */
  lemma SpreadAround(v: seq<real>, a: real, used: real, n: real, mean: real, variance: real)
    requires v != [] && n == Size(v) && mean == Mean(v) && variance == Variance(v) && used == SumAround(v, a) / n
    ensures used == variance + Square(mean - a)
  {
    Quotient(Sum(v), n, mean);
    Quotient(SumAround(v, mean), n, variance);
    SpreadFrom(v, a, used, n, mean, variance, SumAround(v, mean), SumAround(v, a), Square(mean - a));
  }

  lemma SpreadFrom(v: seq<real>, a: real, used: real, n: real, mean: real, variance: real, aroundM: real, aroundA: real, gap: real)
    requires n == Size(v) && n > 0.0 && mean * n == Sum(v) && variance * n == aroundM && used == aroundA / n
    requires gap == Square(mean - a) && aroundM == SumAround(v, mean) && aroundA == SumAround(v, a)
    ensures used == variance + gap
  {
    var spread := variance + gap;
    AroundPoint(v, mean, variance, a, n, aroundM, aroundA, gap, spread);
    UsedFrom(aroundA, n, used, spread);
  }

  lemma UsedFrom(around: real, n: real, used: real, spread: real)
    requires n > 0.0 && around == n * spread && used == around / n
    ensures used == spread
  {}

  /** The variance used is the variance of the daily sales plus the square of the dropped sales per day, so
      it is that variance exactly when every counted sale falls on a day of the window. */
  lemma SpreadOfDailySales(entries: seq<Entry>, w: Window, average: real, used: real, perDay: real, n: real, variance: real)
    requires w.days > 0 && n == w.days as real && variance == Variance(Daily(entries, w))
    requires average == Sold(entries, w) / n && perDay == Dropped(entries, w) / n
    requires used == SumAround(Daily(entries, w), average) / n
    ensures used == variance + Square(perDay)
    ensures used == variance <==> Dropped(entries, w) == 0.0
  {
    var v := Daily(entries, w);
    var mean := Mean(v);
    DaysAddUp(entries, w);
    AverageGap(Sold(entries, w), Sum(v), Dropped(entries, w), n, average, mean, perDay);
    SpreadAround(v, average, used, n, mean, variance);
    SquareOfGap(mean - average, perDay);
  }

  /** A counted sale falls on a day exactly when it lies within the last `days` times 24 hours of today. */
  lemma BinsIff(e: Entry, w: Window)
    ensures w.Bins(e) <==> w.Counts(e) && w.todayEnd - w.days * DAY < e.occurredAt <= w.todayEnd
  {
    DayOf(w.todayEnd - e.occurredAt, w.days);
  }

  /** Nothing is dropped exactly when every counted sale lies there, whatever the clock did in the window. */
  lemma {:induction false} DroppedIff(entries: seq<Entry>, w: Window)
    ensures Dropped(entries, w) >= 0.0
    ensures Dropped(entries, w) == 0.0 <==>
            forall i :: 0 <= i < |entries| && w.Counts(entries[i]) ==> w.todayEnd - w.days * DAY < entries[i].occurredAt <= w.todayEnd
  {
    if entries != [] {
      var front, e := entries[..|entries| - 1], entries[|entries| - 1];
      DroppedIff(front, w);
      BinsIff(e, w);
      assert forall i :: 0 <= i < |front| ==> front[i] == entries[i];
    }
  }

  /** Without a change of clocks: when no counted sale lies on the first day of the window or after today. */
  lemma DroppedOnFirstDayIff(entries: seq<Entry>, w: Window)
    requires w.Regular()
    ensures Dropped(entries, w) == 0.0 <==>
            forall i :: 0 <= i < |entries| && w.Counts(entries[i]) ==> w.start + DAY <= entries[i].occurredAt <= w.todayEnd
  {
    DroppedIff(entries, w);
  }

  /** A sale at the start of such a window is counted and dropped, and the deviation used is off by it. */
  lemma FirstSaleIsDropped(w: Window, units: int) returns (entries: seq<Entry>)
    requires w.Regular() && units > 0
    ensures entries == [Entry(-units, true, w.start)]
    ensures Sold(entries, w) == Dropped(entries, w) == units as real
  {
    entries := [Entry(-units, true, w.start)];
    BinsIff(entries[0], w);
    assert entries[..0] == [];
  }

  lemma DayOf(elapsed: int, days: nat)
    ensures 0 <= days - 1 - elapsed / DAY < days <==> 0 <= elapsed < days * DAY
  {}

  // ---------- lead times ----------

  datatype Order = Order(received: bool, variants: seq<string>, destination: string, createdAt: int, updatedAt: int)

  predicate Delivered(o: Order, variant: string) { o.received && variant in o.variants }

  function LeadTime(o: Order): real {
    var days := (o.updatedAt - o.createdAt) as real / DAY as real;
    if days > 0.0 then days else 0.0
  }

  function Deliveries(orders: seq<Order>, variant: string): seq<Order> {
    if orders == [] then []
    else
      var o := orders[|orders| - 1];
      Deliveries(orders[..|orders| - 1], variant) + if Delivered(o, variant) then [o] else []
  }

  function DeliveriesTo(orders: seq<Order>, variant: string, location: string): seq<Order> {
    if orders == [] then []
    else
      var o := orders[|orders| - 1];
      DeliveriesTo(orders[..|orders| - 1], variant, location)
      + if Delivered(o, variant) && o.destination == location then [o] else []
  }

  /** Deliveries to the location, or to anywhere if there were none. */
  function Relevant(orders: seq<Order>, variant: string, location: string): seq<Order> {
    if DeliveriesTo(orders, variant, location) != [] then DeliveriesTo(orders, variant, location)
    else Deliveries(orders, variant)
  }

  function LeadTimes(orders: seq<Order>): seq<real> {
    seq(|orders|, i requires 0 <= i < |orders| => LeadTime(orders[i]))
  }

  method SelectDeliveries(orders: seq<Order>, variant: string, location: string) returns (selected: seq<Order>)
    ensures selected == Relevant(orders, variant, location)
  {
    var fallback := [];
    selected := [];
    ghost var done := [];
    for i := 0 to |orders|
      invariant done == orders[..i]
      invariant selected == DeliveriesTo(done, variant, location) && fallback == Deliveries(done, variant)
    {
      var o := orders[i];
      assert (done + [o])[..i] == done;
      done := done + [o];
      if o.received && variant in o.variants {
        fallback := fallback + [o];
        if o.destination == location { selected := selected + [o]; }
      }
    }
    assert done == orders;
    if |selected| == 0 { selected := fallback; }
  }

  /** Days from creation to the last update, not below 0. */
  method LeadTimeDays(o: Order) returns (lt: real)
    ensures lt == LeadTime(o)
  {
    var diffMs := o.updatedAt - o.createdAt;
    lt := diffMs as real / DAY as real;
    if lt < 0.0 { lt := 0.0; }
  }

  /** Mean and deviation of the relevant lead times; the rule's own lead time when there are none. The
      deviation is the root of the two-pass variance, although it is computed in one pass. */
  method LeadTimeStats(orders: seq<Order>, variant: string, location: string, leadTimeDays: real, sqrt: real -> real)
    returns (average: real, stdDev: real)
    ensures var v := LeadTimes(Relevant(orders, variant, location));
            if v == [] then average == leadTimeDays && stdDev == 0.0
            else average == Mean(v) && stdDev == sqrt(Variance(v))
  {
    var selected := SelectDeliveries(orders, variant, location);
    average, stdDev := leadTimeDays, 0.0;
    if |selected| > 0 {
      var n := |selected|;
      var total, totalSq := 0.0, 0.0;
      ghost var done: seq<real> := [];
      for i := 0 to n
        invariant done == LeadTimes(selected)[..i] && total == Sum(done) && totalSq == SumOfSquares(done)
      {
        var lt := LeadTimeDays(selected[i]);
        assert (done + [lt])[..i] == done && LeadTimes(selected)[..i + 1] == done + [lt];
        done := done + [lt];
        total := total + lt;
        totalSq := totalSq + lt * lt;
      }
      assert done == LeadTimes(selected);
      average := total / n as real;
      var spread := totalSq / n as real - average * average;
      OnePassIsVariance(done, average, totalSq, n as real, spread);
      stdDev := sqrt(if spread > 0.0 then spread else 0.0);
    }
  }
}
