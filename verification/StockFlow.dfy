/** What the edits of a use case amount to at each place, and exactly when they can be saved. */
module StockFlow {
  import opened Options
  import opened InventoryItems
  import opened StockOrders

  // ---------- quantities ----------

  function Qty(lines: seq<Line>, sku: string): nat {
    if lines == [] then 0
    else Qty(lines[..|lines| - 1], sku) + if lines[|lines| - 1].sku == sku then lines[|lines| - 1].quantity else 0
  }

  /** How many lines name the SKU. */
  function Times(lines: seq<Line>, sku: string): nat {
    if lines == [] then 0
    else Times(lines[..|lines| - 1], sku) + if lines[|lines| - 1].sku == sku then 1 else 0
  }

  function HandCoef(kind: Kind): int {
    match kind
    case DispatchKind => -1
    case ReturnKind => 1
    case CreateKind => 0
    case ArriveKind => 1
    case DropKind => 0
  }

  function TransitCoef(kind: Kind): int {
    match kind
    case DispatchKind => 0
    case ReturnKind => 0
    case CreateKind => 1
    case ArriveKind => -1
    case DropKind => -1
  }

  function HandAt(legs: seq<Leg>, location: string): int {
    if legs == [] then 0
    else HandAt(legs[..|legs| - 1], location) + if legs[|legs| - 1].location == location then HandCoef(legs[|legs| - 1].kind) else 0
  }

  function TransitAt(legs: seq<Leg>, location: string): int {
    if legs == [] then 0
    else TransitAt(legs[..|legs| - 1], location) + if legs[|legs| - 1].location == location then TransitCoef(legs[|legs| - 1].kind) else 0
  }

  function Hits(legs: seq<Leg>, location: string): nat {
    if legs == [] then 0
    else Hits(legs[..|legs| - 1], location) + if legs[|legs| - 1].location == location then 1 else 0
  }

  function OnHand(rows: Rows, p: Place): nat { if p in rows then rows[p].quantity else 0 }

  function Transit(rows: Rows, p: Place): nat { if p in rows then rows[p].inTransit else 0 }

  // ---------- what edits do ----------

  function HandNow(rows: Rows, batch: Rows, p: Place): nat {
    var c := Current(rows, batch, p);
    if c.Some? then c.value.quantity else 0
  }

  function TransitNow(rows: Rows, batch: Rows, p: Place): nat {
    var c := Current(rows, batch, p);
    if c.Some? then c.value.inTransit else 0
  }

  /** How far an item is ahead of its stored version. */
  function Bumps(rows: Rows, batch: Rows, p: Place): int {
    if p in rows && p in batch then batch[p].version - rows[p].version else 0
  }

  /** Wherever a leg may skip a missing item, there is one. */
  ghost predicate NothingSkipped(rows: Rows, lines: seq<Line>, legs: seq<Leg>) {
    forall i, j :: 0 <= i < |lines| && 0 <= j < |legs| && legs[j].policy == SkipMissing ==> Place(lines[i].sku, legs[j].location) in rows
  }

  lemma Spread(c: int, d: int, q: int)
    ensures (c + d) * q == c * q + d * q
    ensures q * (c + d) == q * c + q * d
  {}

  lemma OneMoreLeg(front: seq<Leg>, leg: Leg, location: string, q: int)
    ensures var here, legs := leg.location == location, front + [leg];
            && HandAt(legs, location) * q == HandAt(front, location) * q + (if here then HandCoef(leg.kind) * q else 0)
            && TransitAt(legs, location) * q == TransitAt(front, location) * q + (if here then TransitCoef(leg.kind) * q else 0)
            && Hits(legs, location) == Hits(front, location) + (if here then 1 else 0)
  {
    assert (front + [leg])[..|front|] == front;
    Spread(HandAt(front, location), HandCoef(leg.kind), q);
    Spread(TransitAt(front, location), TransitCoef(leg.kind), q);
  }

  lemma OneMoreLine(front: seq<Line>, line: Line, sku: string, c: int)
    ensures var mine, lines := line.sku == sku, front + [line];
            && c * Qty(lines, sku) == c * Qty(front, sku) + (if mine then c * line.quantity else 0)
            && c * Times(lines, sku) == c * Times(front, sku) + (if mine then c else 0)
            && Times(lines, sku) == Times(front, sku) + (if mine then 1 else 0)
  {
    assert (front + [line])[..|front|] == front;
    Spread(Qty(front, sku), line.quantity, c);
    Spread(Times(front, sku), 1, c);
  }

  /** Between two batches, a place moved by these amounts. */
  ghost predicate Moved(rows: Rows, before: Rows, after: Rows, p: Place, hand: int, transit: int, bumps: int, edited: bool) {
    && HandNow(rows, after, p) == HandNow(rows, before, p) + hand
    && TransitNow(rows, after, p) == TransitNow(rows, before, p) + transit
    && Bumps(rows, after, p) == Bumps(rows, before, p) + bumps
    && (p in after <==> p in before || edited)
  }

  lemma EditEffect(rows: Rows, batch: Rows, line: Line, leg: Leg, p: Place)
    requires Edit(rows, batch, line, leg).Some? && (leg.policy == SkipMissing ==> Place(line.sku, leg.location) in rows)
    ensures var here := p == Place(line.sku, leg.location);
            Moved(rows, batch, Edit(rows, batch, line, leg).value, p, if here then HandCoef(leg.kind) * line.quantity else 0,
                  if here then TransitCoef(leg.kind) * line.quantity else 0, if here && p in rows then 1 else 0, here)
  {}

  lemma {:induction false} EditLineEffect(rows: Rows, batch: Rows, line: Line, legs: seq<Leg>, p: Place)
    requires EditLine(rows, batch, line, legs).Some? && NothingSkipped(rows, [line], legs)
    ensures var mine := p.sku == line.sku;
            Moved(rows, batch, EditLine(rows, batch, line, legs).value, p,
                  if mine then HandAt(legs, p.location) * line.quantity else 0,
                  if mine then TransitAt(legs, p.location) * line.quantity else 0,
                  if mine && p in rows then Hits(legs, p.location) else 0, mine && Hits(legs, p.location) > 0)
  {
    if legs != [] {
      var front, leg := legs[..|legs| - 1], legs[|legs| - 1];
      assert legs == front + [leg];
      assert forall j :: 0 <= j < |front| ==> front[j] == legs[j];
      EditLineEffect(rows, batch, line, front, p);
      assert [line][0] == line && Place([line][0].sku, leg.location) == Place(line.sku, leg.location);
      EditEffect(rows, EditLine(rows, batch, line, front).value, line, leg, p);
      OneMoreLeg(front, leg, p.location, line.quantity);
    }
  }

  lemma {:induction false} EditLinesEffect(rows: Rows, lines: seq<Line>, legs: seq<Leg>, p: Place)
    requires EditLines(rows, lines, legs).Some? && NothingSkipped(rows, lines, legs)
    ensures Moved(rows, map[], EditLines(rows, lines, legs).value, p,
                  HandAt(legs, p.location) * Qty(lines, p.sku), TransitAt(legs, p.location) * Qty(lines, p.sku),
                  if p in rows then Hits(legs, p.location) * Times(lines, p.sku) else 0,
                  Times(lines, p.sku) > 0 && Hits(legs, p.location) > 0)
  {
    if lines != [] {
      var front, line := lines[..|lines| - 1], lines[|lines| - 1];
      assert lines == front + [line];
      assert forall i :: 0 <= i < |front| ==> front[i] == lines[i];
      assert NothingSkipped(rows, front, legs);
      EditLinesEffect(rows, front, legs, p);
      assert forall j :: 0 <= j < |legs| ==> Place([line][0].sku, legs[j].location) == Place(lines[|lines| - 1].sku, legs[j].location);
      EditLineEffect(rows, EditLines(rows, front, legs).value, line, legs, p);
      OneMoreLine(front, line, p.sku, HandAt(legs, p.location));
      OneMoreLine(front, line, p.sku, TransitAt(legs, p.location));
      OneMoreLine(front, line, p.sku, Hits(legs, p.location));
    }
  }

  // ---------- saving ----------

  /** No stored item is edited twice. */
  ghost predicate EditedOnce(rows: Rows, lines: seq<Line>, legs: seq<Leg>) {
    forall p :: p in rows ==> Hits(legs, p.location) * Times(lines, p.sku) <= 1
  }

  lemma PositiveProduct(a: nat, b: nat)
    ensures a * b > 0 <==> a > 0 && b > 0
    ensures a > 0 && b > 0 ==> a * b >= 1
  {}

  /** The versioned save accepts the batch exactly when no stored item was edited twice. */
  lemma SavedIffEditedOnce(rows: Rows, lines: seq<Line>, legs: seq<Leg>)
    requires EditLines(rows, lines, legs).Some? && NothingSkipped(rows, lines, legs)
    ensures Saved(rows, lines, legs).Some? <==> EditedOnce(rows, lines, legs)
  {
    var batch := EditLines(rows, lines, legs).value;
    forall p | p in rows
      ensures (p in batch ==> (Accepts(rows, p, batch[p]) <==> Hits(legs, p.location) * Times(lines, p.sku) <= 1))
      ensures p !in batch ==> Hits(legs, p.location) * Times(lines, p.sku) <= 1
    {
      EditLinesEffect(rows, lines, legs, p);
      PositiveProduct(Hits(legs, p.location), Times(lines, p.sku));
    }
    if Saved(rows, lines, legs).None? {
      var p :| p in batch && !Accepts(rows, p, batch[p]);
      assert p in rows;
    }
  }

  /** A saved use case moves each place by its coefficient times the quantity of the SKU's lines. */
  lemma SavedEffect(rows: Rows, lines: seq<Line>, legs: seq<Leg>, after: Rows, p: Place)
    requires NothingSkipped(rows, lines, legs) && Saved(rows, lines, legs) == Some(after)
    ensures OnHand(after, p) == OnHand(rows, p) + HandAt(legs, p.location) * Qty(lines, p.sku)
    ensures Transit(after, p) == Transit(rows, p) + TransitAt(legs, p.location) * Qty(lines, p.sku)
    ensures p in after <==> p in rows || (Times(lines, p.sku) > 0 && Hits(legs, p.location) > 0)
  {
    EditLinesEffect(rows, lines, legs, p);
  }

  // ---------- when the edits succeed ----------

  ghost predicate DistinctLegs(legs: seq<Leg>) {
    forall i, j :: 0 <= i < j < |legs| ==> legs[i].location != legs[j].location
  }

  /** What a leg needs to find at a place for a quantity. */
  ghost predicate Suffices(rows: Rows, leg: Leg, sku: string, quantity: nat) {
    var p := Place(sku, leg.location);
    match leg.kind
    case DispatchKind => p in rows && rows[p].quantity >= quantity
    case ArriveKind => p in rows && rows[p].inTransit >= quantity
    case DropKind => p in rows && rows[p].inTransit >= quantity
    case ReturnKind => leg.policy == CreateMissing
    case CreateKind => leg.policy == CreateMissing
  }

  ghost predicate AllSuffice(rows: Rows, lines: seq<Line>, legs: seq<Leg>) {
    forall i, j :: 0 <= i < |lines| && 0 <= j < |legs| ==> Suffices(rows, legs[j], lines[i].sku, Qty(lines, lines[i].sku))
  }

  lemma {:induction false} LegAlone(legs: seq<Leg>, j: nat)
    requires DistinctLegs(legs) && j < |legs|
    ensures HandAt(legs, legs[j].location) == HandCoef(legs[j].kind)
    ensures TransitAt(legs, legs[j].location) == TransitCoef(legs[j].kind)
    ensures Hits(legs, legs[j].location) == 1
  {
    var n := |legs| - 1;
    assert forall i :: 0 <= i < n ==> legs[..n][i] == legs[i];
    if j < n { LegAlone(legs[..n], j); } else { NoLeg(legs[..n], legs[n].location); }
  }

  lemma {:induction false} NoLeg(legs: seq<Leg>, location: string)
    requires forall i :: 0 <= i < |legs| ==> legs[i].location != location
    ensures HandAt(legs, location) == 0 && TransitAt(legs, location) == 0 && Hits(legs, location) == 0
  {
    if legs != [] { NoLeg(legs[..|legs| - 1], location); }
  }

  ghost predicate Ready(rows: Rows, batch: Rows, line: Line, leg: Leg) {
    var p := Place(line.sku, leg.location);
    match leg.kind
    case DispatchKind => p in rows && HandNow(rows, batch, p) >= line.quantity
    case ArriveKind => p in rows && TransitNow(rows, batch, p) >= line.quantity
    case DropKind => p in rows && TransitNow(rows, batch, p) >= line.quantity
    case ReturnKind => leg.policy == CreateMissing
    case CreateKind => leg.policy == CreateMissing
  }

  lemma {:induction false} LineSucceeds(rows: Rows, batch: Rows, line: Line, legs: seq<Leg>)
    requires DistinctLegs(legs) && forall j :: 0 <= j < |legs| ==> Ready(rows, batch, line, legs[j])
    ensures EditLine(rows, batch, line, legs).Some?
  {
    if legs != [] {
      var front, leg := legs[..|legs| - 1], legs[|legs| - 1];
      assert forall j :: 0 <= j < |front| ==> front[j] == legs[j];
      LineSucceeds(rows, batch, line, front);
      assert NothingSkipped(rows, [line], front) by {
        forall j | 0 <= j < |front| && front[j].policy == SkipMissing ensures Place(line.sku, front[j].location) in rows {
          assert Ready(rows, batch, line, legs[j]);
        }
      }
      EditLineEffect(rows, batch, line, front, Place(line.sku, leg.location));
      NoLeg(front, leg.location);
      assert Ready(rows, batch, line, leg);
    }
  }

  lemma {:induction false} LinesSucceed(rows: Rows, lines: seq<Line>, legs: seq<Leg>)
    requires DistinctLegs(legs) && AllSuffice(rows, lines, legs)
    ensures NothingSkipped(rows, lines, legs) && EditLines(rows, lines, legs).Some?
  {
    forall i, j | 0 <= i < |lines| && 0 <= j < |legs| && legs[j].policy == SkipMissing ensures Place(lines[i].sku, legs[j].location) in rows {
      assert Suffices(rows, legs[j], lines[i].sku, Qty(lines, lines[i].sku));
    }
    if lines != [] {
      var front, line := lines[..|lines| - 1], lines[|lines| - 1];
      forall i, j | 0 <= i < |front| && 0 <= j < |legs| ensures Suffices(rows, legs[j], front[i].sku, Qty(front, front[i].sku)) {
        assert Suffices(rows, legs[j], lines[i].sku, Qty(lines, lines[i].sku));
      }
      LinesSucceed(rows, front, legs);
      var batch := EditLines(rows, front, legs).value;
      forall j | 0 <= j < |legs| ensures Ready(rows, batch, line, legs[j]) {
        assert Suffices(rows, legs[j], line.sku, Qty(lines, lines[|lines| - 1].sku));
        EditLinesEffect(rows, front, legs, Place(line.sku, legs[j].location));
        LegAlone(legs, j);
      }
      LineSucceeds(rows, batch, line, legs);
    }
  }

  /** A leg that requires its items finds them stored, for every line. */
  lemma {:induction false} RequiredIsStored(rows: Rows, lines: seq<Line>, legs: seq<Leg>, i: nat, j: nat)
    requires DistinctLegs(legs) && EditLines(rows, lines, legs).Some? && i < |lines| && j < |legs|
    requires legs[j].policy == RequireExisting
    ensures Place(lines[i].sku, legs[j].location) in rows
  {
    var front, line := lines[..|lines| - 1], lines[|lines| - 1];
    if i < |front| {
      RequiredIsStored(rows, front, legs, i, j);
    } else {
      StoredSoFar(rows, front, legs, j, line.sku);
      RequiredInLine(rows, EditLines(rows, front, legs).value, line, legs, j);
    }
  }

  lemma {:induction false} StoredSoFar(rows: Rows, lines: seq<Line>, legs: seq<Leg>, j: nat, sku: string)
    requires DistinctLegs(legs) && EditLines(rows, lines, legs).Some? && j < |legs| && legs[j].policy == RequireExisting
    ensures Place(sku, legs[j].location) in EditLines(rows, lines, legs).value ==> Place(sku, legs[j].location) in rows
  {
    if lines != [] {
      var front, line := lines[..|lines| - 1], lines[|lines| - 1];
      StoredSoFar(rows, front, legs, j, sku);
      if line.sku == sku {
        RequiredInLine(rows, EditLines(rows, front, legs).value, line, legs, j);
      } else {
        OtherSku(rows, EditLines(rows, front, legs).value, line, legs, Place(sku, legs[j].location));
      }
    }
  }

  lemma {:induction false} OtherSku(rows: Rows, batch: Rows, line: Line, legs: seq<Leg>, p: Place)
    requires EditLine(rows, batch, line, legs).Some? && p.sku != line.sku
    ensures p in EditLine(rows, batch, line, legs).value ==> p in batch
  {
    if legs != [] { OtherSku(rows, batch, line, legs[..|legs| - 1], p); }
  }

  lemma {:induction false} OtherLocation(rows: Rows, batch: Rows, line: Line, legs: seq<Leg>, p: Place)
    requires EditLine(rows, batch, line, legs).Some? && forall i :: 0 <= i < |legs| ==> legs[i].location != p.location
    ensures p in EditLine(rows, batch, line, legs).value ==> p in batch
  {
    if legs != [] { OtherLocation(rows, batch, line, legs[..|legs| - 1], p); }
  }

  lemma {:induction false} RequiredInLine(rows: Rows, batch: Rows, line: Line, legs: seq<Leg>, j: nat)
    requires DistinctLegs(legs) && EditLine(rows, batch, line, legs).Some? && j < |legs| && legs[j].policy == RequireExisting
    requires Place(line.sku, legs[j].location) in batch ==> Place(line.sku, legs[j].location) in rows
    ensures Place(line.sku, legs[j].location) in rows
  {
    var front := legs[..|legs| - 1];
    if j < |front| {
      assert forall i :: 0 <= i < |front| ==> front[i] == legs[i];
      RequiredInLine(rows, batch, line, front, j);
    } else {
      OtherLocation(rows, batch, line, front, Place(line.sku, legs[j].location));
    }
  }
}
