/** Kit sales: a kit merges components of the same variant, the ledger is read once for all of them, and a
    sale is validated as a whole before anything is appended. */
module KitSales {
  import opened Options
  import MapSums

  datatype Component = Component(variantId: string, quantity: int)

  datatype Entry = Entry(variantId: string, locationId: string, quantity: int)

  // ---------- kits ----------

  /** What `addComponent` and `removeComponent` keep: every variant once, at least one unit of each. */
  ghost predicate KitOk(components: seq<Component>) {
    && (forall i, j :: 0 <= i < j < |components| ==> components[i].variantId != components[j].variantId)
    && (forall i :: 0 <= i < |components| ==> components[i].quantity >= 1)
  }

  /** Units of a variant in one kit. */
  function UnitsIn(components: seq<Component>, variantId: string): int {
    if components == [] then 0
    else
      var c := components[|components| - 1];
      UnitsIn(components[..|components| - 1], variantId) + if c.variantId == variantId then c.quantity else 0
  }

  lemma {:induction false} UnitsAt(components: seq<Component>, i: nat)
    requires KitOk(components) && i < |components|
    ensures UnitsIn(components, components[i].variantId) == components[i].quantity
  {
    var n := |components| - 1;
    var front := components[..n];
    if i < n {
      UnitsAt(front, i);
    } else {
      NoUnits(front, components[n].variantId);
    }
  }

  lemma {:induction false} NoUnits(components: seq<Component>, variantId: string)
    requires forall i :: 0 <= i < |components| ==> components[i].variantId != variantId
    ensures UnitsIn(components, variantId) == 0
  {
    if components != [] { NoUnits(components[..|components| - 1], variantId); }
  }

  lemma {:induction false} UnitsReplaced(components: seq<Component>, k: nat, c: Component, v: string)
    requires k < |components| && c.variantId == components[k].variantId
    ensures UnitsIn(components[k := c], v) == UnitsIn(components, v) + if v == c.variantId then c.quantity - components[k].quantity else 0
  {
    var n := |components| - 1;
    if k < n {
      assert components[k := c][..n] == components[..n][k := c];
      UnitsReplaced(components[..n], k, c, v);
    } else {
      assert components[k := c][..n] == components[..n];
    }
  }

  lemma UnitsMore(front: seq<Component>, c: Component, v: string)
    ensures UnitsIn(front + [c], v) == UnitsIn(front, v) + if c.variantId == v then c.quantity else 0
  {
    assert (front + [c])[..|front|] == front;
  }

  lemma {:induction false} UnitsRemoved(components: seq<Component>, k: nat, v: string)
    requires k < |components|
    ensures UnitsIn(components[..k] + components[k + 1..], v)
            == UnitsIn(components, v) - if v == components[k].variantId then components[k].quantity else 0
  {
    var n := |components| - 1;
    var front, c := components[..n], components[n];
    assert components == front + [c];
    UnitsMore(front, c, v);
    if k < n {
      var rest := front[..k] + front[k + 1..];
      UnitsRemoved(front, k, v);
      UnitsMore(rest, c, v);
      assert components[..k] + components[k + 1..] == rest + [c];
    } else {
      assert components[..k] + components[k + 1..] == front;
    }
  }

  lemma Removal(components: seq<Component>, k: nat, rest: seq<Component>)
    requires KitOk(components) && k < |components| && rest == components[..k] + components[k + 1..]
    ensures KitOk(rest) && UnitsIn(components, components[k].variantId) > 0
    ensures forall v :: UnitsIn(rest, v) == if v == components[k].variantId then 0 else UnitsIn(components, v)
  {
    UnitsAt(components, k);
    forall v ensures UnitsIn(rest, v) == if v == components[k].variantId then 0 else UnitsIn(components, v) {
      UnitsRemoved(components, k, v);
    }
  }

  class Kit {
    var components: seq<Component>

    constructor ()
      ensures components == []
    {
      components := [];
    }

    /** Position of a variant, or -1. */
    method FindIndex(variantId: string) returns (index: int)
      ensures -1 <= index < |components|
      ensures index >= 0 ==> components[index].variantId == variantId
      ensures forall i :: 0 <= i < (if index >= 0 then index else |components|) ==> components[i].variantId != variantId
    {
      for i := 0 to |components|
        invariant forall k :: 0 <= k < i ==> components[k].variantId != variantId
      {
        if components[i].variantId == variantId { return i; }
      }
      index := -1;
    }

    /** Adds to the variant's component or appends a new one; false when the component would be below 1. */
    method AddComponent(variantId: string, quantity: int) returns (ok: bool)
      requires KitOk(components)
      modifies this
      ensures KitOk(components)
      ensures ok <==> old(UnitsIn(components, variantId)) + quantity >= 1
      ensures ok ==> forall v :: UnitsIn(components, v) == old(UnitsIn(components, v)) + if v == variantId then quantity else 0
      ensures !ok ==> components == old(components)
    {
      var existingIndex := FindIndex(variantId);
      if existingIndex != -1 {
        var existing := components[existingIndex];
        UnitsAt(components, existingIndex);
        if existing.quantity + quantity < 1 { return false; }
        var merged := Component(variantId, existing.quantity + quantity);
        forall v ensures UnitsIn(components[existingIndex := merged], v) == UnitsIn(components, v) + if v == variantId then quantity else 0 {
          UnitsReplaced(components, existingIndex, merged, v);
        }
        components := components[existingIndex := merged];
      } else {
        NoUnits(components, variantId);
        if quantity < 1 { return false; }
        assert (components + [Component(variantId, quantity)])[..|components|] == components;
        components := components + [Component(variantId, quantity)];
      }
      ok := true;
    }

    /** Takes a variant out; false when the kit does not contain it. */
    method RemoveComponent(variantId: string) returns (ok: bool)
      requires KitOk(components)
      modifies this
      ensures KitOk(components)
      ensures ok <==> old(UnitsIn(components, variantId)) > 0
      ensures forall v :: UnitsIn(components, v) == if v == variantId then 0 else old(UnitsIn(components, v))
      ensures !ok ==> components == old(components)
    {
      var existingIndex := FindIndex(variantId);
      if existingIndex == -1 {
        NoUnits(components, variantId);
        return false;
      }
      var rest := components[..existingIndex] + components[existingIndex + 1..];
      Removal(components, existingIndex, rest);
      components := rest;
      ok := true;
    }
  }

  // ---------- the ledger ----------

  function Balance(entries: seq<Entry>, variantId: string, locationId: string): int {
    if entries == [] then 0
    else
      var e := entries[|entries| - 1];
      Balance(entries[..|entries| - 1], variantId, locationId)
      + if e.variantId == variantId && e.locationId == locationId then e.quantity else 0
  }

  lemma {:induction false} BalanceJoin(a: seq<Entry>, b: seq<Entry>, v: string, l: string)
    ensures Balance(a + b, v, l) == Balance(a, v, l) + Balance(b, v, l)
  {
    if b == [] {
      assert a + b == a;
    } else {
      assert (a + b)[..|a + b| - 1] == a + b[..|b| - 1];
      BalanceJoin(a, b[..|b| - 1], v, l);
    }
  }

  class InMemoryLedgerRepository {
    var entries: seq<Entry>

    constructor ()
      ensures entries == []
    {
      entries := [];
    }

    method AppendBatch(batch: seq<Entry>)
      modifies this
      ensures entries == old(entries) + batch
    {
      entries := entries + batch;
    }

    method CurrentQuantity(variantId: string, locationId: string) returns (sum: int)
      ensures sum == Balance(entries, variantId, locationId)
    {
      sum := 0;
      ghost var done := [];
      for i := 0 to |entries|
        invariant done == entries[..i] && sum == Balance(done, variantId, locationId)
      {
        var e := entries[i];
        assert (done + [e])[..i] == done;
        done := done + [e];
        if e.variantId == variantId && e.locationId == locationId { sum := sum + e.quantity; }
      }
      assert done == entries;
    }

    /** One pass for many variants: reading a missing variant as 0, each gets exactly its own balance. */
    method CurrentQuantities(variantIds: seq<string>, locationId: string) returns (quantities: map<string, int>)
      ensures forall v :: v in variantIds ==> (if v in quantities then quantities[v] else 0) == Balance(entries, v, locationId)
      ensures forall v :: v in quantities ==> v in variantIds
    {
      var variantIdStrs := set v | v in variantIds;
      quantities := map[];
      ghost var done := [];
      for i := 0 to |entries|
        invariant done == entries[..i]
        invariant forall v :: v in variantIds ==> (if v in quantities then quantities[v] else 0) == Balance(done, v, locationId)
        invariant forall v :: v in quantities ==> v in variantIds
      {
        var e := entries[i];
        ghost var before := done;
        done := done + [e];
        assert done[..|done| - 1] == before;
        if e.locationId == locationId && e.variantId in variantIdStrs {
          var current := if e.variantId in quantities then quantities[e.variantId] else 0;
          quantities := quantities[e.variantId := current + e.quantity];
        }
      }
      assert done == entries;
    }
  }

  // ---------- selling a kit ----------

  function KitEntries(components: seq<Component>, kitQuantity: int, locationId: string): seq<Entry> {
    seq(|components|, i requires 0 <= i < |components| =>
      Entry(components[i].variantId, locationId, -(components[i].quantity * kitQuantity)))
  }

  predicate Covered(entries: seq<Entry>, components: seq<Component>, kitQuantity: int, locationId: string) {
    forall i :: 0 <= i < |components| ==>
      Balance(entries, components[i].variantId, locationId) >= components[i].quantity * kitQuantity
  }

  /** A ledger entry of quantity 0 cannot be made. */
  predicate Entries(components: seq<Component>, kitQuantity: int) {
    forall i :: 0 <= i < |components| ==> components[i].quantity * kitQuantity != 0
  }

  /** The ledger after a sale; None when it is rejected. */
  function Sale(entries: seq<Entry>, components: seq<Component>, kitQuantity: int, locationId: string): Option<seq<Entry>> {
    if components == [] || !Covered(entries, components, kitQuantity, locationId) || !Entries(components, kitQuantity) then None
    else Some(entries + KitEntries(components, kitQuantity, locationId))
  }

  /** A rejected sale appends nothing. */
  method DecrementForKitSale(ledger: InMemoryLedgerRepository, kit: Kit, kitQuantity: int, locationId: string) returns (ok: bool)
    modifies ledger
    ensures var sale := Sale(old(ledger.entries), kit.components, kitQuantity, locationId);
            ok == sale.Some? && ledger.entries == if ok then sale.value else old(ledger.entries)
  {
    if |kit.components| == 0 { return false; }
    var variantIds := seq(|kit.components|, i requires 0 <= i < |kit.components| reads kit => kit.components[i].variantId);
    var availableQuantities := ledger.CurrentQuantities(variantIds, locationId);
    for i := 0 to |kit.components|
      invariant forall k :: 0 <= k < i ==>
        Balance(ledger.entries, kit.components[k].variantId, locationId) >= kit.components[k].quantity * kitQuantity
    {
      var component := kit.components[i];
      assert variantIds[i] == component.variantId && component.variantId in variantIds;
      var needed := component.quantity * kitQuantity;
      var available := if component.variantId in availableQuantities then availableQuantities[component.variantId] else 0;
      if available < needed { return false; }
    }
    var entries := [];
    for i := 0 to |kit.components|
      invariant |entries| == i && forall k :: 0 <= k < i ==>
        entries[k] == KitEntries(kit.components, kitQuantity, locationId)[k] && kit.components[k].quantity * kitQuantity != 0
    {
      var component := kit.components[i];
      var needed := component.quantity * kitQuantity;
      if needed == 0 { return false; }
      entries := entries + [Entry(component.variantId, locationId, -needed)];
    }
    ledger.AppendBatch(entries);
    ok := true;
  }

  // ---------- what is booked ----------

  /** The ledger's quantities of a variant at a location. */
  ghost function Booked(entries: seq<Entry>, v: string, l: string): map<int, int> {
    map i | 0 <= i < |entries| && entries[i].variantId == v && entries[i].locationId == l :: entries[i].quantity
  }

  lemma BookedMore(front: seq<Entry>, e: Entry, v: string, l: string)
    ensures var m := Booked(front, v, l);
            Booked(front + [e], v, l) == if e.variantId == v && e.locationId == l then m[|front| := e.quantity] else m
  {
    assert forall i :: 0 <= i < |front| ==> (front + [e])[i] == front[i];
    assert (front + [e])[|front|] == e;
  }

  lemma {:induction false} BalanceMeans(entries: seq<Entry>, v: string, l: string)
    ensures Balance(entries, v, l) == MapSums.Sum(Booked(entries, v, l))
  {
    if entries == [] {
      assert Booked(entries, v, l) == map[];
    } else {
      var front, e := entries[..|entries| - 1], entries[|entries| - 1];
      assert entries == front + [e];
      BalanceMeans(front, v, l);
      BookedMore(front, e, v, l);
      MapSums.SumUpdate(Booked(front, v, l), |front|, e.quantity);
    }
  }

  /** A sale is accepted exactly when the kit has components, each needs something, and what is booked for each at the
      location covers it; it then appends one entry per component, which takes what is needed there. */
  lemma SaleMeans(entries: seq<Entry>, components: seq<Component>, kitQuantity: int, locationId: string)
    ensures var sale := Sale(entries, components, kitQuantity, locationId);
            && (sale.Some? <==> components != [] && forall i :: 0 <= i < |components| ==>
                  var needed := components[i].quantity * kitQuantity;
                  needed != 0 && needed <= MapSums.Sum(Booked(entries, components[i].variantId, locationId)))
            && (sale.Some? ==> |sale.value| == |entries| + |components| && sale.value[..|entries|] == entries
                               && forall i :: 0 <= i < |components| ==>
                                    sale.value[|entries| + i] == Entry(components[i].variantId, locationId, -(components[i].quantity * kitQuantity)))
  {
    forall i | 0 <= i < |components|
      ensures Balance(entries, components[i].variantId, locationId) == MapSums.Sum(Booked(entries, components[i].variantId, locationId))
    {
      BalanceMeans(entries, components[i].variantId, locationId);
    }
  }

  // ---------- what sales do to balances ----------

  lemma Scale(a: int, b: int, q: int)
    ensures (a + b) * q == a * q + b * q
  {}

  lemma {:induction false} EntriesTake(components: seq<Component>, kitQuantity: int, locationId: string, v: string, l: string)
    ensures Balance(KitEntries(components, kitQuantity, locationId), v, l)
            == if l == locationId then -(UnitsIn(components, v) * kitQuantity) else 0
  {
    if components != [] {
      var front, c := components[..|components| - 1], components[|components| - 1];
      EntriesTake(front, kitQuantity, locationId, v, l);
      var all := KitEntries(components, kitQuantity, locationId);
      assert all[..|all| - 1] == KitEntries(front, kitQuantity, locationId);
      Scale(UnitsIn(front, v), c.quantity, kitQuantity);
    }
  }

  /** An accepted sale takes the kit's units of each variant at its location, and nothing anywhere else. */
  lemma SaleTakes(entries: seq<Entry>, components: seq<Component>, kitQuantity: int, locationId: string, after: seq<Entry>, v: string, l: string)
    requires Sale(entries, components, kitQuantity, locationId) == Some(after)
    ensures Balance(after, v, l) == Balance(entries, v, l) - if l == locationId then UnitsIn(components, v) * kitQuantity else 0
  {
    BalanceJoin(entries, KitEntries(components, kitQuantity, locationId), v, l);
    EntriesTake(components, kitQuantity, locationId, v, l);
  }

  ghost predicate NeverNegative(entries: seq<Entry>) {
    forall v: string, l: string :: Balance(entries, v, l) >= 0
  }

  /** Because a kit names each variant once, checking the components one by one is enough. */
  lemma SaleKeepsNonnegative(entries: seq<Entry>, components: seq<Component>, kitQuantity: int, locationId: string, after: seq<Entry>)
    requires KitOk(components) && NeverNegative(entries) && Sale(entries, components, kitQuantity, locationId) == Some(after)
    ensures NeverNegative(after)
  {
    forall v: string, l: string ensures Balance(after, v, l) >= 0 {
      SaleTakes(entries, components, kitQuantity, locationId, after, v, l);
      if k :| 0 <= k < |components| && components[k].variantId == v {
        UnitsAt(components, k);
        assert Balance(entries, components[k].variantId, locationId) >= components[k].quantity * kitQuantity;
      } else {
        NoUnits(components, v);
      }
      assert Balance(entries, v, l) >= 0;
    }
  }

  datatype Event =
    | Sell(components: seq<Component>, kitQuantity: int, locationId: string)
    | Receive(variantId: string, locationId: string, quantity: nat)

  function Next(entries: seq<Entry>, e: Event): seq<Entry> {
    match e
    case Sell(components, kitQuantity, locationId) =>
      var sale := Sale(entries, components, kitQuantity, locationId);
      if sale.Some? then sale.value else entries
    case Receive(variantId, locationId, quantity) => entries + [Entry(variantId, locationId, quantity)]
  }

  function After(entries: seq<Entry>, events: seq<Event>): seq<Entry> {
    if events == [] then entries else Next(After(entries, events[..|events| - 1]), events[|events| - 1])
  }

  /** Over any run of kit sales and receipts, no balance that starts non-negative becomes negative. */
  lemma {:induction false} RunsNeverOversell(entries: seq<Entry>, events: seq<Event>)
    requires NeverNegative(entries) && forall i :: 0 <= i < |events| && events[i].Sell? ==> KitOk(events[i].components)
    ensures NeverNegative(After(entries, events))
  {
    if events != [] {
      var front, e := events[..|events| - 1], events[|events| - 1];
      assert forall i :: 0 <= i < |front| ==> front[i] == events[i];
      RunsNeverOversell(entries, front);
      var before := After(entries, front);
      match e
      case Sell(components, kitQuantity, locationId) =>
        if Sale(before, components, kitQuantity, locationId).Some? {
          SaleKeepsNonnegative(before, components, kitQuantity, locationId, Next(before, e));
        }
      case Receive(variantId, locationId, quantity) =>
        forall v: string, l: string ensures Balance(Next(before, e), v, l) >= 0 {
          assert Next(before, e)[..|before|] == before;
          assert Balance(before, v, l) >= 0;
        }
    }
  }

  /** The merge is needed: a component list that names a variant twice would be sold below zero. */
  lemma RepeatedComponentOversells()
    ensures var entries, twice := [Entry("v", "here", 1)], [Component("v", 1), Component("v", 1)];
            Sale(entries, twice, 1, "here").Some? && Balance(Sale(entries, twice, 1, "here").value, "v", "here") == -1
  {
    var entries, twice := [Entry("v", "here", 1)], [Component("v", 1), Component("v", 1)];
    assert entries[..0] == [] && twice[..1] == [Component("v", 1)] && twice[..1][..0] == [];
    assert Balance(entries, "v", "here") == 1 && UnitsIn(twice[..1], "v") == 1;
    SaleTakes(entries, twice, 1, "here", Sale(entries, twice, 1, "here").value, "v", "here");
  }
}
