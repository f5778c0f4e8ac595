/** How the costing methods compare on the same stock. */
module CostComparison {
  import opened Sorting
  import opened CostLayers
  import opened CostLayerStore

  // ---------- totals ----------

  function TotalUnits(layers: seq<Layer>): int {
    if layers == [] then 0 else layers[0].Remaining() + TotalUnits(layers[1..])
  }

  function TotalValue(layers: seq<Layer>): int {
    if layers == [] then 0 else layers[0].Remaining() * layers[0].unitCost + TotalValue(layers[1..])
  }

  lemma {:induction false} TotalsOfUnits(layers: seq<Layer>)
    requires AllValid(layers)
    ensures TotalUnits(layers) == |Units(layers)| && TotalValue(layers) == Sum(Units(layers))
  {
    if layers != [] {
      TotalsOfUnits(layers[1..]);
      SumConcat(Repeat(layers[0].unitCost, layers[0].Remaining()), Units(layers[1..]));
      SumRepeat(layers[0].unitCost, layers[0].Remaining());
    }
  }

  lemma {:induction false} TotalsInsert(x: Layer, s: seq<Layer>, key: Layer -> SortKey)
    ensures TotalUnits(Insert(x, s, key)) == x.Remaining() + TotalUnits(s)
    ensures TotalValue(Insert(x, s, key)) == x.Remaining() * x.unitCost + TotalValue(s)
  {
    if s == [] || AtMost(key(x), key(s[0])) {
    } else {
      TotalsInsert(x, s[1..], key);
    }
  }

  lemma {:induction false} TotalsSort(s: seq<Layer>, key: Layer -> SortKey)
    ensures TotalUnits(StableSort(s, key)) == TotalUnits(s) && TotalValue(StableSort(s, key)) == TotalValue(s)
  {
    if s != [] {
      TotalsSort(s[1..], key);
      TotalsInsert(s[0], StableSort(s[1..], key), key);
    }
  }

  lemma TotalsOrder(layers: seq<Layer>, method_: CostingMethod)
    ensures TotalUnits(Order(layers, method_)) == TotalUnits(layers)
    ensures TotalValue(Order(layers, method_)) == TotalValue(layers)
  {
    match method_
    case LIFO => TotalsSort(layers, ByReceiptDown);
    case FEFO => TotalsSort(layers, ByReceipt); TotalsSort(StableSort(layers, ByReceipt), ByExpiry);
    case _ => TotalsSort(layers, ByReceipt);
  }

  // ---------- estimates ----------

  /** `Math.round`: to the nearest integer, halves upwards. */
  function Round(x: real): (r: int)
    ensures r as real - 0.5 <= x < r as real + 0.5
  {
    (x + 0.5).Floor
  }

  /** `calculateWeightedAverageCostSync` (it does not check that `quantity` is on hand). */
  function WeightedAverage(layers: seq<Layer>, quantity: int): Outcome {
    var units := TotalUnits(layers);
    if units == 0 then Failed else Charged(Round(quantity as real * (TotalValue(layers) as real / units as real)))
  }

  /** `calculateCost`: the drawing loop on the sorted fetched list, without writing; or the average. */
  function CalculateCost(rows: seq<Layer>, variantId: string, quantity: int, method_: CostingMethod): Outcome {
    match method_
    case SpecificIdentification => Failed
    case WeightedAverageCost => WeightedAverage(GetActiveLayers(rows, variantId, FIFO), quantity)
    case _ => Estimate(StrategySort(GetActiveLayers(rows, variantId, method_), method_), quantity)
  }

  /** One entry of `calculateCostBatch`: the same loop on the list exactly as fetched. */
  function CalculateCostInBatch(rows: seq<Layer>, variantId: string, quantity: int, method_: CostingMethod): Outcome {
    if method_ == WeightedAverageCost then WeightedAverage(GetActiveLayers(rows, variantId, FIFO), quantity)
    else Estimate(GetActiveLayers(rows, variantId, method_), quantity)
  }

  function Estimate(layers: seq<Layer>, quantity: int): Outcome {
    var d := DrawDown(layers, quantity);
    if d.missing > 0 then Failed else Charged(d.cost)
  }

  /** Both estimates equal the charge made later, and fail exactly when the charge would. */
  lemma EstimatesMatchCharge(rows: seq<Layer>, variantId: string, quantity: int, method_: CostingMethod)
    requires AllValid(rows) && method_ in {FIFO, LIFO, FEFO}
    ensures CalculateCost(rows, variantId, quantity, method_) == ConsumeLayers(rows, variantId, quantity, method_).0
    ensures CalculateCostInBatch(rows, variantId, quantity, method_) == ConsumeLayers(rows, variantId, quantity, method_).0
  {
    FetchedTracksLine(rows, variantId, method_);
  }

  // ---------- FIFO and LIFO are dual ----------

  lemma {:induction false} UnitsConcat(a: seq<Layer>, b: seq<Layer>)
    requires AllValid(a) && AllValid(b)
    ensures AllValid(a + b) && Units(a + b) == Units(a) + Units(b)
  {
    if a == [] {
      assert a + b == b;
    } else {
      assert (a + b)[1..] == a[1..] + b;
      UnitsConcat(a[1..], b);
    }
  }

  lemma ReverseRepeat(cost: int, n: nat, tail: seq<int>)
    ensures Reverse(Repeat(cost, n) + tail) == Reverse(tail) + Repeat(cost, n)
  {}

  lemma {:induction false} UnitsReverse(layers: seq<Layer>)
    requires AllValid(layers)
    ensures AllValid(Reverse(layers)) && Units(Reverse(layers)) == Reverse(Units(layers))
  {
    if layers == [] {
      assert Reverse(layers) == [];
    } else {
      UnitsReverse(layers[1..]);
      assert layers == [layers[0]] + layers[1..];
      ReverseCons(layers[0], layers[1..]);
      UnitsConcat(Reverse(layers[1..]), [layers[0]]);
      ReverseRepeat(layers[0].unitCost, layers[0].Remaining(), Units(layers[1..]));
      assert Units([layers[0]]) == Repeat(layers[0].unitCost, layers[0].Remaining());
    }
  }

  lemma {:induction false} SumReverse(s: seq<int>)
    ensures Sum(Reverse(s)) == Sum(s)
  {
    if s == [] {
      assert Reverse(s) == [];
    } else {
      assert s == [s[0]] + s[1..];
      ReverseCons(s[0], s[1..]);
      SumReverse(s[1..]);
      SumConcat(Reverse(s[1..]), [s[0]]);
    }
  }

  lemma ReversedPrefix(u: seq<int>, q: nat)
    requires q <= |u|
    ensures Reverse(u)[..|u| - q] == Reverse(u[q..])
  {}

  lemma SumOfParts(u: seq<int>, q: nat)
    requires q <= |u|
    ensures Sum(u) == Sum(u[..q]) + Sum(u[q..])
  {
    assert u == u[..q] + u[q..];
    SumConcat(u[..q], u[q..]);
  }

  lemma PrefixPlusReversedPrefix(u: seq<int>, q: nat)
    requires q <= |u|
    ensures Sum(u[..q]) + Sum(Reverse(u)[..|u| - q]) == Sum(u)
  {
    ReversedPrefix(u, q);
    SumReverse(u[q..]);
    SumOfParts(u, q);
  }

  lemma LifoIsReversed(rows: seq<Layer>, variantId: string)
    requires DistinctReceipts(rows, variantId)
    ensures Line(rows, variantId, LIFO) == Reverse(Line(rows, variantId, FIFO))
  {
    SortReversed(Filter(rows, IsVariant(variantId)), ByReceipt, ByReceiptDown);
  }

  /** What a consumption that fits is charged: the first units of its line. */
  lemma ChargeOfPrefix(rows: seq<Layer>, variantId: string, quantity: nat, method_: CostingMethod)
    requires Table(rows) && method_ != SpecificIdentification && AllValid(Line(rows, variantId, method_))
    requires quantity <= |Units(Line(rows, variantId, method_))|
    ensures ConsumeLayers(rows, variantId, quantity, method_).0 == Charged(Sum(Units(Line(rows, variantId, method_))[..quantity]))
  {
    ConsumeLayersEffect(rows, variantId, quantity, method_);
    DrawTakesPrefix(Line(rows, variantId, method_), quantity);
  }

  ghost predicate DistinctReceipts(rows: seq<Layer>, variantId: string) {
    Differ(Filter(rows, IsVariant(variantId)), ByReceipt)
  }

  /** With distinct receipt times, the FIFO cost of q units and the LIFO cost of the other units
      add up to the value of everything on hand. */
  lemma FifoLifoDual(rows: seq<Layer>, variantId: string, quantity: nat)
    requires Table(rows) && DistinctReceipts(rows, variantId)
    requires quantity <= TotalUnits(Line(rows, variantId, FIFO))
    ensures var fifo := ConsumeLayers(rows, variantId, quantity, FIFO).0;
            var lifo := ConsumeLayers(rows, variantId, TotalUnits(Line(rows, variantId, FIFO)) - quantity, LIFO).0;
            fifo.Charged? && lifo.Charged? && fifo.cost + lifo.cost == TotalValue(Line(rows, variantId, FIFO))
  {
    var line := Line(rows, variantId, FIFO);
    LineValid(rows, variantId, FIFO);
    TotalsOfUnits(line);
    ChargeOfPrefix(rows, variantId, quantity, FIFO);
    var units := Units(line);
    var rest := |units| - quantity;
    LifoCharge(rows, variantId, rest, line);
    PrefixPlusReversedPrefix(units, quantity);
    assert rest == TotalUnits(line) - quantity;
  }

  /** With distinct receipt times, LIFO charges for the last units of the FIFO line. */
  lemma LifoCharge(rows: seq<Layer>, variantId: string, quantity: nat, line: seq<Layer>)
    requires Table(rows) && DistinctReceipts(rows, variantId) && line == Line(rows, variantId, FIFO) && AllValid(line)
    requires quantity <= |Units(line)|
    ensures |Reverse(Units(line))| == |Units(line)|
    ensures ConsumeLayers(rows, variantId, quantity, LIFO).0 == Charged(Sum(Reverse(Units(line))[..quantity]))
  {
    LifoIsReversed(rows, variantId);
    UnitsReverse(line);
    ChargeOfPrefix(rows, variantId, quantity, LIFO);
  }

  // ---------- FIFO <= weighted average <= LIFO under rising prices ----------

  ghost predicate Rising(u: seq<int>) { forall i, j :: 0 <= i < j < |u| ==> u[i] <= u[j] }

  ghost predicate Falling(u: seq<int>) { forall i, j :: 0 <= i < j < |u| ==> u[i] >= u[j] }

  lemma {:induction false} SumAtMost(u: seq<int>, hi: int, sum: int)
    requires sum == Sum(u) && forall i :: 0 <= i < |u| ==> u[i] <= hi
    ensures sum <= |u| * hi
  {
    if u != [] { SumAtMost(u[1..], hi, Sum(u[1..])); }
  }

  lemma {:induction false} SumAtLeast(u: seq<int>, lo: int, sum: int)
    requires sum == Sum(u) && forall i :: 0 <= i < |u| ==> lo <= u[i]
    ensures |u| * lo <= sum
  {
    if u != [] { SumAtLeast(u[1..], lo, Sum(u[1..])); }
  }

  lemma Cross(a: int, b: int, q: nat, m: nat, p: int)
    requires a <= q * p && m * p <= b
    ensures m * a <= q * b
  {
    assert m * a <= m * (q * p);
    assert m * (q * p) == q * (m * p);
    assert q * (m * p) <= q * b;
  }

  lemma Share(q: nat, m: nat, a: int, b: int)
    requires m * a <= q * b
    ensures (q + m) * a <= q * (a + b)
  {
    assert (q + m) * a == q * a + m * a;
    assert q * (a + b) == q * a + q * b;
  }

  lemma RisingParts(head: seq<int>, tail: seq<int>, pivot: int, a: int, b: int, n: nat, q: nat, total: int)
    requires a == Sum(head) && b == Sum(tail) && total == a + b && q == |head| && n == |head| + |tail|
    requires (forall i :: 0 <= i < |head| ==> head[i] <= pivot) && (forall i :: 0 <= i < |tail| ==> pivot <= tail[i])
    ensures n * a <= q * total
  {
    SumAtMost(head, pivot, a);
    SumAtLeast(tail, pivot, b);
    Cross(a, b, |head|, |tail|, pivot);
    Share(|head|, |tail|, a, b);
  }

  /** The first q of a rising queue cost at most their share of the whole. */
  lemma RisingPrefix(u: seq<int>, q: nat)
    requires Rising(u) && q <= |u|
    ensures |u| * Sum(u[..q]) <= q * Sum(u)
  {
    var pivot := if u == [] then 0 else if q == 0 then u[0] else u[q - 1];
    SumOfParts(u, q);
    RisingParts(u[..q], u[q..], pivot, Sum(u[..q]), Sum(u[q..]), |u|, q, Sum(u));
  }

  /** ... and of a falling queue at least their share. */
  lemma {:induction false} FallingPrefix(u: seq<int>, q: nat)
    requires Falling(u) && q <= |u|
    ensures |u| * Sum(u[..q]) >= q * Sum(u)
  {
    var v := seq(|u|, i requires 0 <= i < |u| => -u[i]);
    RisingPrefix(v, q);
    SumNegate(u, v);
    SumNegate(u[..q], v[..q]);
    assert |u| * (-Sum(u[..q])) == -(|u| * Sum(u[..q]));
    assert q * (-Sum(u)) == -(q * Sum(u));
  }

  lemma {:induction false} SumNegate(u: seq<int>, v: seq<int>)
    requires |u| == |v| && forall i :: 0 <= i < |u| ==> v[i] == -u[i]
    ensures Sum(v) == -Sum(u)
  {
    if u != [] { SumNegate(u[1..], v[1..]); }
  }

  /** Unit costs of the variant's active layers do not fall as receipt times rise. */
  ghost predicate PricesRise(layers: seq<Layer>) {
    forall i, j :: 0 <= i < |layers| && 0 <= j < |layers| && layers[i].receivedAt <= layers[j].receivedAt ==>
      layers[i].unitCost <= layers[j].unitCost
  }

  lemma {:induction false} UnitsWithin(layers: seq<Layer>, lo: int, hi: int)
    requires AllValid(layers) && forall i :: 0 <= i < |layers| ==> lo <= layers[i].unitCost <= hi
    ensures forall k :: 0 <= k < |Units(layers)| ==> lo <= Units(layers)[k] <= hi
  {
    if layers != [] { UnitsWithin(layers[1..], lo, hi); }
  }

  lemma {:induction false} UnitsRise(layers: seq<Layer>)
    requires AllValid(layers) && forall i, j :: 0 <= i < j < |layers| ==> layers[i].unitCost <= layers[j].unitCost
    ensures Rising(Units(layers))
  {
    if layers != [] {
      UnitsRise(layers[1..]);
      UnitsWithin(layers[1..], layers[0].unitCost, layers[|layers| - 1].unitCost);
    }
  }

  lemma {:induction false} UnitsFall(layers: seq<Layer>)
    requires AllValid(layers) && forall i, j :: 0 <= i < j < |layers| ==> layers[i].unitCost >= layers[j].unitCost
    ensures Falling(Units(layers))
  {
    if layers != [] {
      UnitsFall(layers[1..]);
      UnitsWithin(layers[1..], layers[|layers| - 1].unitCost, layers[0].unitCost);
    }
  }

  lemma AverageTimes(q: int, value: int, n: int)
    requires n > 0
    ensures q as real * (value as real / n as real) * n as real == (q * value) as real
  {
    var r := value as real / n as real;
    assert r * n as real == value as real;
    assert q as real * r * n as real == q as real * (r * n as real);
  }

  lemma RoundAtLeast(lo: int, x: real, n: int)
    requires n > 0 && (n * lo) as real <= x * n as real
    ensures lo <= Round(x)
  {
    assert (n * lo) as real == lo as real * n as real;
    if x < lo as real { assert (lo as real - x) * n as real > 0.0; }
  }

  lemma RoundAtMost(hi: int, x: real, n: int)
    requires n > 0 && x * n as real <= (n * hi) as real
    ensures Round(x) <= hi
  {
    assert (n * hi) as real == hi as real * n as real;
    if x > hi as real { assert (x - hi as real) * n as real > 0.0; }
  }

  lemma RoundBetween(lo: int, hi: int, q: int, value: int, n: int)
    requires n > 0 && n * lo <= q * value <= n * hi
    ensures lo <= Round(q as real * (value as real / n as real)) <= hi
  {
    AverageTimes(q, value, n);
    RoundAtLeast(lo, q as real * (value as real / n as real), n);
    RoundAtMost(hi, q as real * (value as real / n as real), n);
  }

  lemma FifoShare(active: seq<Layer>, quantity: nat)
    requires AllValid(active) && PricesRise(active) && quantity <= TotalUnits(active)
    ensures var d := DrawDown(Order(active, FIFO), quantity);
            d.missing == 0 && TotalUnits(active) * d.cost <= quantity * TotalValue(active)
  {
    OrderedTotals(active, FIFO);
    DrawTakesPrefix(Order(active, FIFO), quantity);
    CostsRise(active);
    RisingPrefix(Units(Order(active, FIFO)), quantity);
  }

  lemma LifoShare(active: seq<Layer>, quantity: nat)
    requires AllValid(active) && PricesRise(active) && quantity <= TotalUnits(active)
    ensures var d := DrawDown(Order(active, LIFO), quantity);
            d.missing == 0 && TotalUnits(active) * d.cost >= quantity * TotalValue(active)
  {
    OrderedTotals(active, LIFO);
    DrawTakesPrefix(Order(active, LIFO), quantity);
    CostsFall(active);
    FallingPrefix(Units(Order(active, LIFO)), quantity);
  }

  lemma AverageBetween(active: seq<Layer>, quantity: nat, lo: int, hi: int)
    requires 0 < TotalUnits(active)
    requires TotalUnits(active) * lo <= quantity * TotalValue(active) <= TotalUnits(active) * hi
    ensures var average := WeightedAverage(active, quantity); average.Charged? && lo <= average.cost <= hi
  {
    RoundBetween(lo, hi, quantity, TotalValue(active), TotalUnits(active));
  }

  /** The three ways of costing `quantity` units of one fetched stock, in order. */
  lemma FifoAverageLifo(active: seq<Layer>, quantity: nat)
    requires AllValid(active) && PricesRise(active) && 0 < TotalUnits(active) && quantity <= TotalUnits(active)
    ensures var fifo := DrawDown(Order(active, FIFO), quantity);
            var lifo := DrawDown(Order(active, LIFO), quantity);
            var average := WeightedAverage(active, quantity);
            fifo.missing == 0 && lifo.missing == 0 && average.Charged? && fifo.cost <= average.cost <= lifo.cost
  {
    FifoShare(active, quantity);
    LifoShare(active, quantity);
    AverageBetween(active, quantity, DrawDown(Order(active, FIFO), quantity).cost, DrawDown(Order(active, LIFO), quantity).cost);
  }

  lemma OrderedTotals(active: seq<Layer>, method_: CostingMethod)
    requires AllValid(active)
    ensures AllValid(Order(active, method_))
    ensures |Units(Order(active, method_))| == TotalUnits(active) && Sum(Units(Order(active, method_))) == TotalValue(active)
  {
    OrderedValid(active, method_);
    TotalsOrder(active, method_);
    TotalsOfUnits(Order(active, method_));
  }

  lemma ActiveValid(rows: seq<Layer>, variantId: string)
    requires AllValid(rows)
    ensures AllValid(ActiveRows(rows, variantId))
  {
    var active := ActiveRows(rows, variantId);
    forall i | 0 <= i < |active| ensures active[i].Valid() {
      var j := FilterFrom(Filter(rows, IsVariant(variantId)), IsActive(), i);
      j := FilterFrom(rows, IsVariant(variantId), j);
    }
  }

  lemma QuoteIsEstimate(rows: seq<Layer>, variantId: string, quantity: int, method_: CostingMethod)
    requires method_ in {FIFO, LIFO, FEFO}
    ensures CalculateCost(rows, variantId, quantity, method_) == Estimate(Order(ActiveRows(rows, variantId), method_), quantity)
  {
    StrategySortOfOrder(ActiveRows(rows, variantId), method_);
  }

  lemma AverageIgnoresOrder(layers: seq<Layer>, quantity: int)
    ensures WeightedAverage(Order(layers, FIFO), quantity) == WeightedAverage(layers, quantity)
  {
    TotalsOrder(layers, FIFO);
  }

  /** The same comparison for the costs the service quotes for a variant. */
  lemma QuotesOrdered(rows: seq<Layer>, variantId: string, quantity: nat)
    requires AllValid(rows) && PricesRise(ActiveRows(rows, variantId))
    requires 0 < TotalUnits(ActiveRows(rows, variantId)) && quantity <= TotalUnits(ActiveRows(rows, variantId))
    ensures var fifo := CalculateCost(rows, variantId, quantity, FIFO);
            var average := CalculateCost(rows, variantId, quantity, WeightedAverageCost);
            var lifo := CalculateCost(rows, variantId, quantity, LIFO);
            fifo.Charged? && average.Charged? && lifo.Charged? && fifo.cost <= average.cost <= lifo.cost
  {
    ActiveValid(rows, variantId);
    FifoAverageLifo(ActiveRows(rows, variantId), quantity);
    QuoteIsEstimate(rows, variantId, quantity, FIFO);
    QuoteIsEstimate(rows, variantId, quantity, LIFO);
    AverageIgnoresOrder(ActiveRows(rows, variantId), quantity);
  }

  lemma OrderedValid(layers: seq<Layer>, method_: CostingMethod)
    requires AllValid(layers)
    ensures AllValid(Order(layers, method_))
  {
    forall i | 0 <= i < |layers| ensures Order(layers, method_)[i].Valid() {
      var j := OrderFrom(layers, method_, i);
    }
  }

  lemma CostsRise(active: seq<Layer>)
    requires AllValid(active) && AllValid(Order(active, FIFO)) && PricesRise(active)
    ensures Rising(Units(Order(active, FIFO)))
  {
    var up := Order(active, FIFO);
    SortFacts(active, ByReceipt);
    forall i, j | 0 <= i < j < |up| ensures up[i].unitCost <= up[j].unitCost {
      assert AtMost(ByReceipt(up[i]), ByReceipt(up[j]));
      var a := OrderFrom(active, FIFO, i);
      var b := OrderFrom(active, FIFO, j);
    }
    UnitsRise(up);
  }

  lemma CostsFall(active: seq<Layer>)
    requires AllValid(active) && AllValid(Order(active, LIFO)) && PricesRise(active)
    ensures Falling(Units(Order(active, LIFO)))
  {
    var down := Order(active, LIFO);
    SortFacts(active, ByReceiptDown);
    forall i, j | 0 <= i < j < |down| ensures down[i].unitCost >= down[j].unitCost {
      assert AtMost(ByReceiptDown(down[i]), ByReceiptDown(down[j]));
      var a := OrderFrom(active, LIFO, i);
      var b := OrderFrom(active, LIFO, j);
    }
    UnitsFall(down);
  }
}
