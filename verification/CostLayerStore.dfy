/** The stored cost layers, one consumption against them, and runs of receipts and consumptions.
    The table is a sequence in insertion order, which breaks ties between equal receipt times. */
module CostLayerStore {
  import opened Numbers
  import opened Sorting
  import opened CostLayers

  function Id(l: Layer): string { l.id }

  ghost predicate UniqueIds(rows: seq<Layer>) { Differ(rows, Id) }

  predicate HasId(rows: seq<Layer>, id: string) { exists i :: 0 <= i < |rows| && rows[i].id == id }

  ghost predicate Table(rows: seq<Layer>) {
    UniqueIds(rows) && AllValid(rows)
  }

  function IsVariant(variantId: string): Layer -> bool { (l: Layer) => l.variantId == variantId }

  function IsActive(): Layer -> bool { (l: Layer) => l.Active() }

  /** All layers of a variant in the order of a method, exhausted ones included. */
  function Line(rows: seq<Layer>, variantId: string, method_: CostingMethod): seq<Layer> {
    Order(Filter(rows, IsVariant(variantId)), method_)
  }

  function ActiveRows(rows: seq<Layer>, variantId: string): seq<Layer> {
    Filter(Filter(rows, IsVariant(variantId)), IsActive())
  }

  /** `getActiveLayers`: the layers that still hold units, in the requested order. */
  function GetActiveLayers(rows: seq<Layer>, variantId: string, method_: CostingMethod): seq<Layer> {
    Order(ActiveRows(rows, variantId), method_)
  }

  // ---------- saving: upsert by id, an existing row only takes the consumed quantity ----------

  function Replace(l: Layer): Layer -> Layer {
    (r: Layer) => if r.id == l.id then r.(consumed := l.consumed) else r
  }

  function Upsert(rows: seq<Layer>, l: Layer): seq<Layer> {
    if HasId(rows, l.id) then Map(rows, Replace(l)) else rows + [l]
  }

  function SaveBatch(rows: seq<Layer>, batch: seq<Layer>): seq<Layer> {
    if batch == [] then rows else Upsert(SaveBatch(rows, batch[..|batch| - 1]), batch[|batch| - 1])
  }

  function Latest(batch: seq<Layer>, r: Layer): (u: Layer)
    ensures u.SameExceptConsumed(r)
  {
    if batch == [] then r
    else
      var last := batch[|batch| - 1];
      if last.id == r.id then r.(consumed := last.consumed) else Latest(batch[..|batch| - 1], r)
  }

  function LatestIn(batch: seq<Layer>): Layer -> Layer { (r: Layer) => Latest(batch, r) }

  ghost predicate Known(rows: seq<Layer>, batch: seq<Layer>) {
    forall k :: 0 <= k < |batch| ==> HasId(rows, batch[k].id)
  }

  lemma LastOverwrites(rows: seq<Layer>, batch: seq<Layer>)
    requires batch != []
    ensures Map(Map(rows, LatestIn(batch[..|batch| - 1])), Replace(batch[|batch| - 1])) == Map(rows, LatestIn(batch))
  {}

  lemma {:induction false} SaveOverwrites(rows: seq<Layer>, batch: seq<Layer>)
    requires Known(rows, batch)
    ensures SaveBatch(rows, batch) == Map(rows, LatestIn(batch))
  {
    if batch == [] {
      assert Map(rows, LatestIn(batch)) == rows;
    } else {
      var n := |batch| - 1;
      var front := batch[..n];
      assert forall k :: 0 <= k < n ==> front[k] == batch[k];
      assert Known(rows, front);
      assert HasId(rows, batch[n].id);
      SaveOverwrites(rows, front);
      var mid := SaveBatch(rows, front);
      var i :| 0 <= i < |rows| && rows[i].id == batch[n].id;
      assert mid[i].id == batch[n].id;
      LastOverwrites(rows, batch);
    }
  }

  // ---------- consuming ----------

  /** The loop a strategy runs, over the list it was given. */
  function Strategy(method_: CostingMethod): CostingMethod {
    if method_ == WeightedAverageCost then FIFO else method_
  }

  datatype Outcome = Failed | Charged(cost: int)

  /** `consumeLayers`: fetch, sort, draw down, save only when everything was covered. */
  function ConsumeLayers(rows: seq<Layer>, variantId: string, quantity: int, method_: CostingMethod): (Outcome, seq<Layer>) {
    if method_ == SpecificIdentification then (Failed, rows)
    else
      var sorted := StrategySort(GetActiveLayers(rows, variantId, method_), method_);
      var d := DrawDown(sorted, quantity);
      if d.missing > 0 then (Failed, rows) else (Charged(d.cost), SaveBatch(rows, d.layers))
  }

  /** `drawn` is a sublist of `line`; what it leaves out is exhausted and as it was in `base`. */
  ghost predicate Tracks(drawn: seq<Layer>, line: seq<Layer>, base: seq<Layer>)
    decreases line
  {
    if line == [] then drawn == [] && base == []
    else
      base != [] && line[0].SameExceptConsumed(base[0]) &&
      ((drawn != [] && drawn[0] == line[0] && Tracks(drawn[1..], line[1..], base[1..])) ||
       (line[0] == base[0] && line[0].Remaining() == 0 && Tracks(drawn, line[1..], base[1..])))
  }

  lemma {:induction false} ActiveTracks(line: seq<Layer>)
    requires AllValid(line)
    ensures Tracks(Filter(line, IsActive()), line, line)
  {
    if line != [] {
      ActiveTracks(line[1..]);
      var f := Filter(line, IsActive());
      if line[0].Active() { assert f[1..] == Filter(line[1..], IsActive()); }
    }
  }

  /** Exhausted layers do not matter: both lists charge the same and stay in step. */
  lemma {:induction false} DrawTracks(drawn: seq<Layer>, line: seq<Layer>, base: seq<Layer>, quantity: int)
    requires Tracks(drawn, line, base)
    ensures DrawDown(drawn, quantity).cost == DrawDown(line, quantity).cost
    ensures DrawDown(drawn, quantity).missing == DrawDown(line, quantity).missing
    ensures Tracks(DrawDown(drawn, quantity).layers, DrawDown(line, quantity).layers, base)
    decreases line
  {
    if line == [] || quantity <= 0 {
    } else if drawn != [] && drawn[0] == line[0] && Tracks(drawn[1..], line[1..], base[1..]) {
      var rest := quantity - Min(quantity, line[0].Remaining());
      DrawTracks(drawn[1..], line[1..], base[1..], rest);
      assert DrawDown(drawn, quantity).layers[1..] == DrawDown(drawn[1..], rest).layers;
      assert DrawDown(line, quantity).layers[1..] == DrawDown(line[1..], rest).layers;
    } else {
      DrawTracks(drawn, line[1..], base[1..], quantity);
      assert DrawDown(line, quantity).layers[1..] == DrawDown(line[1..], quantity).layers;
    }
  }

  /** What saving `batch` does to layer `r`, when every entry of the batch with r's id agrees with `u`. */
  lemma {:induction false} LatestIs(batch: seq<Layer>, r: Layer, u: Layer)
    requires u.SameExceptConsumed(r)
    requires forall k :: 0 <= k < |batch| && batch[k].id == r.id ==> batch[k] == u
    requires u != r ==> exists k :: 0 <= k < |batch| && batch[k].id == r.id
    ensures Latest(batch, r) == u
  {
    if batch != [] {
      var n := |batch| - 1;
      if batch[n].id != r.id {
        if u != r {
          var k :| 0 <= k < |batch| && batch[k].id == r.id;
          assert batch[..n][k].id == r.id;
        }
        LatestIs(batch[..n], r, u);
      }
    }
  }

  lemma {:induction false} TracksShape(drawn: seq<Layer>, line: seq<Layer>, base: seq<Layer>)
    requires Tracks(drawn, line, base)
    ensures |line| == |base|
    ensures forall i :: 0 <= i < |line| ==> line[i].SameExceptConsumed(base[i]) && (line[i] == base[i] || line[i] in drawn)
    ensures forall k :: 0 <= k < |drawn| ==> drawn[k] in line
    decreases line
  {
    if line != [] {
      if drawn != [] && drawn[0] == line[0] && Tracks(drawn[1..], line[1..], base[1..]) {
        TracksShape(drawn[1..], line[1..], base[1..]);
        forall i | 0 <= i < |line| ensures line[i].SameExceptConsumed(base[i]) && (line[i] == base[i] || line[i] in drawn) {
          if i > 0 {
            assert line[1..][i - 1] == line[i] && base[1..][i - 1] == base[i];
            assert line[i] in drawn[1..] ==> line[i] in drawn;
          }
        }
        forall k | 0 <= k < |drawn| ensures drawn[k] in line {
          if k > 0 { assert drawn[1..][k - 1] in line[1..]; }
        }
      } else {
        TracksShape(drawn, line[1..], base[1..]);
        forall i | 0 <= i < |line| ensures line[i].SameExceptConsumed(base[i]) && (line[i] == base[i] || line[i] in drawn) {
          if i > 0 { assert line[1..][i - 1] == line[i] && base[1..][i - 1] == base[i]; }
        }
        forall k | 0 <= k < |drawn| ensures drawn[k] in line { assert drawn[k] in line[1..]; }
      }
    }
  }

  /** The entries of `batch` that belong to `base`'s ids are exactly those of `drawn`. */
  ghost predicate Carries(batch: seq<Layer>, drawn: seq<Layer>, base: seq<Layer>) {
    (forall k :: 0 <= k < |drawn| ==> drawn[k] in batch) &&
    (forall k, i :: 0 <= k < |batch| && 0 <= i < |base| && batch[k].id == base[i].id ==> batch[k] in drawn)
  }

  lemma SavedLayer(batch: seq<Layer>, drawn: seq<Layer>, line: seq<Layer>, base: seq<Layer>, i: nat)
    requires |line| == |base| && i < |base| && UniqueIds(base) && Carries(batch, drawn, base)
    requires forall i :: 0 <= i < |line| ==> line[i].SameExceptConsumed(base[i]) && (line[i] == base[i] || line[i] in drawn)
    requires forall k :: 0 <= k < |drawn| ==> drawn[k] in line
    ensures Latest(batch, base[i]) == line[i]
  {
    forall k | 0 <= k < |batch| && batch[k].id == base[i].id ensures batch[k] == line[i] {
      var n :| 0 <= n < |drawn| && drawn[n] == batch[k];
      var j :| 0 <= j < |line| && line[j] == drawn[n];
      assert Id(base[j]) == Id(base[i]);
    }
    if line[i] != base[i] {
      var n :| 0 <= n < |drawn| && drawn[n] == line[i];
      assert drawn[n] in batch;
    }
    LatestIs(batch, base[i], line[i]);
  }

  lemma SavedLine(batch: seq<Layer>, drawn: seq<Layer>, line: seq<Layer>, base: seq<Layer>)
    requires Tracks(drawn, line, base) && UniqueIds(base) && Carries(batch, drawn, base)
    ensures Map(base, LatestIn(batch)) == line
  {
    TracksShape(drawn, line, base);
    forall i | 0 <= i < |base| ensures Latest(batch, base[i]) == line[i] {
      SavedLayer(batch, drawn, line, base, i);
    }
  }

  // ---------- tables and lines ----------

  lemma LineFrom(rows: seq<Layer>, variantId: string, method_: CostingMethod, i: nat) returns (j: nat)
    requires i < |Line(rows, variantId, method_)|
    ensures j < |rows| && rows[j] == Line(rows, variantId, method_)[i] && rows[j].variantId == variantId
  {
    j := OrderFrom(Filter(rows, IsVariant(variantId)), method_, i);
    j := FilterFrom(rows, IsVariant(variantId), j);
  }

  lemma LineTo(rows: seq<Layer>, method_: CostingMethod, j: nat) returns (i: nat)
    requires j < |rows|
    ensures var line := Line(rows, rows[j].variantId, method_); i < |line| && rows[j] == line[i]
  {
    i := FilterTo(rows, IsVariant(rows[j].variantId), j);
    i := OrderTo(Filter(rows, IsVariant(rows[j].variantId)), method_, i);
  }

  /** Saving a batch of known layers acts on each line separately. */
  lemma LineOfSaved(rows: seq<Layer>, batch: seq<Layer>, variantId: string, method_: CostingMethod)
    ensures Line(Map(rows, LatestIn(batch)), variantId, method_) == Map(Line(rows, variantId, method_), LatestIn(batch))
  {
    FilterMap(rows, LatestIn(batch), IsVariant(variantId));
    OrderMap(Filter(rows, IsVariant(variantId)), method_, LatestIn(batch));
  }

  lemma LineUnique(rows: seq<Layer>, variantId: string, method_: CostingMethod)
    requires UniqueIds(rows)
    ensures UniqueIds(Line(rows, variantId, method_))
  {
    var own := Filter(rows, IsVariant(variantId));
    FilterDiffer(rows, IsVariant(variantId), Id);
    match method_
    case LIFO => SortDiffer(own, ByReceiptDown, Id);
    case FEFO => SortDiffer(own, ByReceipt, Id); SortDiffer(StableSort(own, ByReceipt), ByExpiry, Id);
    case _ => SortDiffer(own, ByReceipt, Id);
  }

  lemma LineValid(rows: seq<Layer>, variantId: string, method_: CostingMethod)
    requires AllValid(rows)
    ensures AllValid(Line(rows, variantId, method_))
  {
    forall i | 0 <= i < |Line(rows, variantId, method_)| ensures Line(rows, variantId, method_)[i].Valid() {
      var j := LineFrom(rows, variantId, method_, i);
    }
  }

  /** The same rows, apart from consumed quantities. */
  ghost predicate SameRows(rows: seq<Layer>, rows': seq<Layer>) {
    |rows| == |rows'| && forall i :: 0 <= i < |rows| ==> rows'[i].SameExceptConsumed(rows[i])
  }

  /** The fetched list is the active part of the line, and sorting it again changes nothing. */
  lemma FetchedTracksLine(rows: seq<Layer>, variantId: string, method_: CostingMethod)
    requires AllValid(rows)
    ensures var line := Line(rows, variantId, method_);
            var fetched := GetActiveLayers(rows, variantId, method_);
            fetched == Filter(line, IsActive()) && StrategySort(fetched, method_) == fetched && Tracks(fetched, line, line)
  {
    LineValid(rows, variantId, method_);
    OrderFilter(Filter(rows, IsVariant(variantId)), method_, IsActive());
    StrategySortOfOrder(ActiveRows(rows, variantId), method_);
    ActiveTracks(Line(rows, variantId, method_));
  }

  /** The whole effect of writing a drawn list back: its line moves on, every other line stays. */
  lemma SavedTable(rows: seq<Layer>, variantId: string, method_: CostingMethod, drawn: seq<Layer>, line: seq<Layer>)
    requires Table(rows) && Tracks(drawn, line, Line(rows, variantId, method_)) && AllValid(line)
    ensures var rows' := SaveBatch(rows, drawn);
            SameRows(rows, rows') && Table(rows') && Line(rows', variantId, method_) == line
    ensures forall v: string, m: CostingMethod :: v != variantId ==> Line(SaveBatch(rows, drawn), v, m) == Line(rows, v, m)
  {
    var base := Line(rows, variantId, method_);
    TracksShape(drawn, line, base);
    LineUnique(rows, variantId, method_);
    forall k | 0 <= k < |drawn| ensures HasId(rows, drawn[k].id) && drawn[k].variantId == variantId {
      var i :| 0 <= i < |line| && line[i] == drawn[k];
      var j := LineFrom(rows, variantId, method_, i);
    }
    SaveOverwrites(rows, drawn);
    var rows' := SaveBatch(rows, drawn);
    CarriesItself(drawn, line, base);
    SavedLine(drawn, drawn, line, base);
    LineOfSaved(rows, drawn, variantId, method_);
    forall v: string, m: CostingMethod | v != variantId ensures Line(rows', v, m) == Line(rows, v, m) {
      LineOfSaved(rows, drawn, v, m);
      forall i | 0 <= i < |Line(rows, v, m)| ensures Latest(drawn, Line(rows, v, m)[i]) == Line(rows, v, m)[i] {
        var j := LineFrom(rows, v, m, i);
        OtherVariant(rows, drawn, variantId, method_, line, j);
      }
    }
    forall i | 0 <= i < |rows| ensures rows'[i].Valid() {
      if rows[i].variantId == variantId {
        var k := LineTo(rows, method_, i);
        assert Map(base, LatestIn(drawn))[k] == rows'[i];
      } else {
        OtherVariant(rows, drawn, variantId, method_, line, i);
      }
    }
  }

  lemma CarriesItself(drawn: seq<Layer>, line: seq<Layer>, base: seq<Layer>)
    requires Tracks(drawn, line, base)
    ensures Carries(drawn, drawn, base)
  {}

  lemma OtherVariant(rows: seq<Layer>, drawn: seq<Layer>, variantId: string, method_: CostingMethod, line: seq<Layer>, j: nat)
    requires Table(rows) && Tracks(drawn, line, Line(rows, variantId, method_))
    requires j < |rows| && rows[j].variantId != variantId
    ensures Latest(drawn, rows[j]) == rows[j]
  {
    var base := Line(rows, variantId, method_);
    TracksShape(drawn, line, base);
    forall k | 0 <= k < |drawn| ensures drawn[k].id != rows[j].id {
      var i :| 0 <= i < |line| && line[i] == drawn[k];
      var n := LineFrom(rows, variantId, method_, i);
      assert Id(rows[n]) != Id(rows[j]);
    }
    LatestIs(drawn, rows[j], rows[j]);
  }

  /** One consumption succeeds iff the line holds enough; it then charges for the units drawn,
      moves that line and no other; when it fails nothing is stored. */
  lemma ConsumeLayersEffect(rows: seq<Layer>, variantId: string, quantity: int, method_: CostingMethod)
    requires Table(rows) && method_ != SpecificIdentification
    ensures var r := ConsumeLayers(rows, variantId, quantity, method_);
            var d := DrawDown(Line(rows, variantId, method_), quantity);
            (r.0.Failed? <==> d.missing > 0) && (r.0.Failed? ==> r.1 == rows) &&
            (r.0.Charged? ==> r.0.cost == d.cost && Line(r.1, variantId, method_) == d.layers &&
                              SameRows(rows, r.1) && Table(r.1))
    ensures forall v: string, m: CostingMethod :: v != variantId ==>
              Line(ConsumeLayers(rows, variantId, quantity, method_).1, v, m) == Line(rows, v, m)
  {
    FetchedTracksLine(rows, variantId, method_);
    var line := Line(rows, variantId, method_);
    var fetched := GetActiveLayers(rows, variantId, method_);
    DrawTracks(fetched, line, line, quantity);
    var d := DrawDown(fetched, quantity);
    if d.missing <= 0 {
      LineValid(rows, variantId, method_);
      DrawValid(line, quantity);
      SavedTable(rows, variantId, method_, d.layers, DrawDown(line, quantity).layers);
    }
  }
}
