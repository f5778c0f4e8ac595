/** Cost layers as values: drawing units down in some order, and the queue of unit costs behind it. */
module CostLayers {
  import opened Numbers
  import opened Options
  import opened Sorting

  datatype CostingMethod = FIFO | LIFO | WeightedAverageCost | SpecificIdentification | FEFO

  datatype Lot = Lot(number: string, expiration: real)

  datatype Layer = Layer(id: string, variantId: string, initial: int, consumed: int, unitCost: int,
                         receivedAt: real, lot: Option<Lot>)
  {
    function Remaining(): int { initial - consumed }

    /** What the constructor and `consume` guarantee. */
    predicate Valid() { 0 < initial && 0 <= consumed <= initial && 0 <= unitCost }

    predicate Active() { consumed < initial }

    /** The same layer, with possibly another amount consumed. */
    predicate SameExceptConsumed(that: Layer) { this == that.(consumed := consumed) }
  }

  // ---------- orders ----------

  function ByReceipt(l: Layer): SortKey { Finite(l.receivedAt) }

  function ByReceiptDown(l: Layer): SortKey { Finite(-l.receivedAt) }

  function ByExpiry(l: Layer): SortKey { if l.lot.Some? then Finite(l.lot.value.expiration) else Infinity }

  /** The order in which the repository returns layers for a method (the FEFO query breaks ties by receipt). */
  function Order(layers: seq<Layer>, method_: CostingMethod): (r: seq<Layer>)
    ensures |r| == |layers|
  {
    match method_
    case LIFO => StableSort(layers, ByReceiptDown)
    case FEFO => StableSort(StableSort(layers, ByReceipt), ByExpiry)
    case _ => StableSort(layers, ByReceipt)
  }

  /** The sort each strategy applies to whatever list it is given. */
  function StrategySort(layers: seq<Layer>, method_: CostingMethod): (r: seq<Layer>)
    ensures |r| == |layers|
  {
    match method_
    case LIFO => StableSort(layers, ByReceiptDown)
    case FEFO => StableSort(layers, ByExpiry)
    case _ => StableSort(layers, ByReceipt)
  }

  /** Sorting again what the repository returned in the requested order changes nothing. */
  lemma StrategySortOfOrder(layers: seq<Layer>, method_: CostingMethod)
    ensures StrategySort(Order(layers, method_), method_) == Order(layers, method_)
  {
    match method_
    case LIFO => SortFacts(layers, ByReceiptDown); SortOfAscending(Order(layers, method_), ByReceiptDown);
    case FEFO => SortFacts(StableSort(layers, ByReceipt), ByExpiry); SortOfAscending(Order(layers, method_), ByExpiry);
    case _ => SortFacts(layers, ByReceipt); SortOfAscending(Order(layers, method_), ByReceipt);
  }

  lemma OrderFilter(layers: seq<Layer>, method_: CostingMethod, p: Layer -> bool)
    ensures Order(Filter(layers, p), method_) == Filter(Order(layers, method_), p)
  {
    match method_
    case LIFO => SortFilter(layers, ByReceiptDown, p);
    case FEFO => SortFilter(layers, ByReceipt, p); SortFilter(StableSort(layers, ByReceipt), ByExpiry, p);
    case _ => SortFilter(layers, ByReceipt, p);
  }

  lemma OrderMap(layers: seq<Layer>, method_: CostingMethod, f: Layer -> Layer)
    requires forall l: Layer :: f(l).SameExceptConsumed(l)
    ensures Map(Order(layers, method_), f) == Order(Map(layers, f), method_)
  {
    match method_
    case LIFO => SortMap(layers, ByReceiptDown, f, ByReceiptDown);
    case FEFO =>
      SortMap(layers, ByReceipt, f, ByReceipt);
      SortMap(StableSort(layers, ByReceipt), ByExpiry, f, ByExpiry);
    case _ => SortMap(layers, ByReceipt, f, ByReceipt);
  }

  /** Where an ordered layer comes from, and where a layer goes. */
  lemma OrderFrom(layers: seq<Layer>, method_: CostingMethod, i: nat) returns (j: nat)
    requires i < |layers|
    ensures j < |layers| && layers[j] == Order(layers, method_)[i]
  {
    match method_
    case LIFO => j := SortedFrom(layers, ByReceiptDown, i);
    case FEFO =>
      j := SortedFrom(StableSort(layers, ByReceipt), ByExpiry, i);
      j := SortedFrom(layers, ByReceipt, j);
    case _ => j := SortedFrom(layers, ByReceipt, i);
  }

  lemma OrderTo(layers: seq<Layer>, method_: CostingMethod, j: nat) returns (i: nat)
    requires j < |layers|
    ensures i < |layers| && layers[j] == Order(layers, method_)[i]
  {
    match method_
    case LIFO => i := SortedTo(layers, ByReceiptDown, j);
    case FEFO =>
      i := SortedTo(layers, ByReceipt, j);
      i := SortedTo(StableSort(layers, ByReceipt), ByExpiry, i);
    case _ => i := SortedTo(layers, ByReceipt, j);
  }

  // ---------- drawing down ----------

  /** `missing` is what could not be drawn; it is at most 0 exactly when the draw succeeded. */
  datatype Drawn = Drawn(layers: seq<Layer>, cost: int, missing: int)

  function DrawDown(layers: seq<Layer>, quantity: int): (d: Drawn)
    ensures |d.layers| == |layers|
  {
    if layers == [] || quantity <= 0 then Drawn(layers, 0, quantity)
    else
      var take := Min(quantity, layers[0].Remaining());
      var rest := DrawDown(layers[1..], quantity - take);
      Drawn([layers[0].(consumed := layers[0].consumed + take)] + rest.layers,
            take * layers[0].unitCost + rest.cost, rest.missing)
  }

  ghost predicate AllValid(layers: seq<Layer>) {
    forall i :: 0 <= i < |layers| ==> layers[i].Valid()
  }

  function Repeat(cost: int, n: nat): (r: seq<int>)
    ensures |r| == n && forall i :: 0 <= i < n ==> r[i] == cost
  {
    seq(n, i => cost)
  }

  /** The queue of individual unit costs that a list of layers stands for. */
  ghost function Units(layers: seq<Layer>): seq<int>
    requires AllValid(layers)
  {
    if layers == [] then [] else Repeat(layers[0].unitCost, layers[0].Remaining()) + Units(layers[1..])
  }

  ghost function Sum(s: seq<int>): int {
    if s == [] then 0 else s[0] + Sum(s[1..])
  }

  lemma {:induction false} SumConcat(a: seq<int>, b: seq<int>)
    ensures Sum(a + b) == Sum(a) + Sum(b)
  {
    if a == [] {
      assert a + b == b;
    } else {
      assert (a + b)[1..] == a[1..] + b;
      SumConcat(a[1..], b);
    }
  }

  lemma {:induction false} SumRepeat(cost: int, n: nat)
    ensures Sum(Repeat(cost, n)) == n * cost
  {
    if n > 0 {
      assert Repeat(cost, n)[1..] == Repeat(cost, n - 1);
      SumRepeat(cost, n - 1);
    }
  }

  lemma {:induction false} DrawValid(layers: seq<Layer>, quantity: int)
    requires AllValid(layers)
    ensures AllValid(DrawDown(layers, quantity).layers)
  {
    if layers != [] && quantity > 0 {
      DrawValid(layers[1..], quantity - Min(quantity, layers[0].Remaining()));
    }
  }

  function Clamp(quantity: int, n: nat): (r: nat)
    ensures r <= n
  {
    if quantity <= 0 then 0 else if quantity <= n then quantity else n
  }

  lemma SplitUnits(cost: int, r: nat, tail: seq<int>, take: nat, m: nat, charge: int)
    requires take <= r && m <= |tail| && (take < r ==> m == 0) && charge == take * cost
    ensures var u := Repeat(cost, r) + tail;
            u[take + m..] == Repeat(cost, r - take) + tail[m..] && Sum(u[..take + m]) == charge + Sum(tail[..m])
  {
    var u := Repeat(cost, r) + tail;
    assert u[..take + m] == Repeat(cost, take) + tail[..m];
    SumConcat(Repeat(cost, take), tail[..m]);
    SumRepeat(cost, take);
  }

  lemma UnitsOfHead(head: Layer, rest: seq<Layer>)
    requires head.Valid() && AllValid(rest)
    ensures AllValid([head] + rest) && Units([head] + rest) == Repeat(head.unitCost, head.Remaining()) + Units(rest)
  {
    assert ([head] + rest)[1..] == rest;
  }

  lemma DrawFirst(layers: seq<Layer>, quantity: int, head: Layer, take: int, charge: int, rest: Drawn)
    requires layers != [] && quantity > 0 && take == Min(quantity, layers[0].Remaining())
    requires head == layers[0].(consumed := layers[0].consumed + take) && charge == take * head.unitCost
    requires rest == DrawDown(layers[1..], quantity - take)
    ensures DrawDown(layers, quantity) == Drawn([head] + rest.layers, charge + rest.cost, rest.missing)
  {}

  /** One layer in front of a list that was drawn from. */
  lemma {:induction false} DrawHead(layers: seq<Layer>, quantity: int, rest: Drawn, tail: seq<int>, m: nat)
    requires AllValid(layers) && layers != [] && quantity > 0 && tail == Units(layers[1..]) && m <= |tail|
    requires rest == DrawDown(layers[1..], quantity - Min(quantity, layers[0].Remaining())) && AllValid(rest.layers)
    requires Units(rest.layers) == tail[m..] && rest.cost == Sum(tail[..m])
    requires quantity < layers[0].Remaining() ==> m == 0
    ensures var d := DrawDown(layers, quantity);
            var n := Min(quantity, layers[0].Remaining()) + m;
            n <= |Units(layers)| && AllValid(d.layers) && Units(d.layers) == Units(layers)[n..] && d.cost == Sum(Units(layers)[..n])
  {
    var take := Min(quantity, layers[0].Remaining());
    var head := layers[0].(consumed := layers[0].consumed + take);
    var charge := take * head.unitCost;
    DrawFirst(layers, quantity, head, take, charge, rest);
    HeadValid(layers, head, take, rest.layers);
    HeadUnits(layers, head, take, rest.layers, tail, m, charge);
  }

  lemma {:induction false} HeadValid(layers: seq<Layer>, head: Layer, take: nat, rest: seq<Layer>)
    requires AllValid(layers) && layers != [] && AllValid(rest)
    requires take <= layers[0].Remaining() && head == layers[0].(consumed := layers[0].consumed + take)
    ensures AllValid([head] + rest)
  {}

  lemma {:induction false} HeadUnits(layers: seq<Layer>, head: Layer, take: nat, rest: seq<Layer>, tail: seq<int>, m: nat, charge: int)
    requires AllValid(layers) && layers != [] && AllValid(rest) && AllValid([head] + rest)
    requires take <= layers[0].Remaining() && head == layers[0].(consumed := layers[0].consumed + take)
    requires tail == Units(layers[1..]) && m <= |tail| && Units(rest) == tail[m..] && charge == take * head.unitCost
    requires take < layers[0].Remaining() ==> m == 0
    ensures take + m <= |Units(layers)| && Units([head] + rest) == Units(layers)[take + m..]
    ensures charge + Sum(tail[..m]) == Sum(Units(layers)[..take + m])
  {
    assert layers == [layers[0]] + layers[1..];
    UnitsOfHead(layers[0], layers[1..]);
    UnitsOfHead(head, rest);
    SplitUnits(head.unitCost, layers[0].Remaining(), tail, take, m, charge);
  }

  /** Drawing q units takes the first q of the queue, or everything there is, and charges for exactly those. */
  lemma {:induction false} DrawTakesPrefix(layers: seq<Layer>, quantity: int)
    requires AllValid(layers)
    ensures AllValid(DrawDown(layers, quantity).layers)
    ensures var d := DrawDown(layers, quantity);
            var u := Units(layers);
            var n := Clamp(quantity, |u|);
            Units(d.layers) == u[n..] && d.cost == Sum(u[..n]) && d.missing == quantity - n
  {
    if layers == [] || quantity <= 0 {
      assert Units(layers)[..0] == [];
    } else {
      var tail := Units(layers[1..]);
      var left := quantity - Min(quantity, layers[0].Remaining());
      DrawTakesPrefix(layers[1..], left);
      DrawHead(layers, quantity, DrawDown(layers[1..], left), tail, Clamp(left, |tail|));
    }
  }

  // ---------- one layer is partly consumed at a time ----------

  /** Fully consumed layers, then at most one partly consumed, then untouched ones. */
  ghost predicate ConsumedInOrder(layers: seq<Layer>) {
    forall i, j :: 0 <= i < j < |layers| && layers[i].Active() ==> layers[j].consumed == 0
  }

  lemma {:induction false} DrawKeepsOrder(layers: seq<Layer>, quantity: int)
    requires AllValid(layers) && ConsumedInOrder(layers)
    ensures ConsumedInOrder(DrawDown(layers, quantity).layers)
  {
    if layers != [] && quantity > 0 {
      var take := Min(quantity, layers[0].Remaining());
      DrawKeepsOrder(layers[1..], quantity - take);
      if take < layers[0].Remaining() {
        assert DrawDown(layers[1..], quantity - take).layers == layers[1..];
      }
    }
  }
}
