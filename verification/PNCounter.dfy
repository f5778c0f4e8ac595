/** The PN-counter of `CRDTStockResolver` and the replicas that exchange its states. */
module PNCounter {
  import opened Numbers
  import opened MapSums

  type Counts = map<string, int>

  datatype PNCounterState = PNCounterState(sku: string, increments: Counts, decrements: Counts)

  /** `counts[nodeId] || 0`. */
  function Entry(counts: Counts, node: string): int { if node in counts then counts[node] else 0 }

  function CreateStockCounter(sku: string): PNCounterState { PNCounterState(sku, map[], map[]) }

  function Increment(s: PNCounterState, node: string, amount: int): PNCounterState {
    s.(increments := s.increments[node := Entry(s.increments, node) + amount])
  }

  function Decrement(s: PNCounterState, node: string, amount: int): PNCounterState {
    s.(decrements := s.decrements[node := Entry(s.decrements, node) + amount])
  }

  /** Every node of either side, with the larger entry. */
  function MergeCounts(a: Counts, b: Counts): Counts {
    map n | n in a.Keys + b.Keys :: Max(Entry(a, n), Entry(b, n))
  }

  function Merged(a: PNCounterState, b: PNCounterState): PNCounterState {
    PNCounterState(a.sku, MergeCounts(a.increments, b.increments), MergeCounts(a.decrements, b.decrements))
  }

  ghost function Value(s: PNCounterState): int { Max(0, Sum(s.increments) - Sum(s.decrements)) }

  // ---------- the loops ----------

  method Total(counts: Counts) returns (total: int)
    ensures total == Sum(counts)
  {
    total := 0;
    var rest := counts;
    while rest != map[]
      invariant total + Sum(rest) == Sum(counts)
      decreases |rest|
    {
      var key :| key in rest;
      SumWithout(rest, key);
      total := total + rest[key];
      rest := rest - {key};
    }
  }

  method GetValue(s: PNCounterState) returns (value: int)
    ensures value == Value(s)
  {
    var totalInc := Total(s.increments);
    var totalDec := Total(s.decrements);
    value := Max(0, totalInc - totalDec);
  }

  method MergeOwn(a: Counts, b: Counts) returns (merged: Counts)
    ensures merged.Keys == a.Keys && forall n :: n in a ==> merged[n] == Max(Entry(a, n), Entry(b, n))
  {
    merged := map[];
    var keys := a.Keys;
    while keys != {}
      invariant keys <= a.Keys && merged.Keys == a.Keys - keys
      invariant forall n :: n in merged ==> merged[n] == Max(Entry(a, n), Entry(b, n))
      decreases |keys|
    {
      var nodeId :| nodeId in keys;
      merged := merged[nodeId := Max(Entry(a, nodeId), Entry(b, nodeId))];
      keys := keys - {nodeId};
    }
  }

  /** One side's nodes first, then the other side's nodes that are not merged yet. */
  method MergeLoop(a: Counts, b: Counts) returns (merged: Counts)
    ensures merged == MergeCounts(a, b)
  {
    merged := MergeOwn(a, b);
    var keys := b.Keys;
    while keys != {}
      invariant keys <= b.Keys
      invariant forall n :: n in merged <==> n in a || (n in b && n !in keys)
      invariant forall n :: n in merged ==> merged[n] == Max(Entry(a, n), Entry(b, n))
      decreases |keys|
    {
      var nodeId :| nodeId in keys;
      if nodeId !in merged {
        merged := merged[nodeId := Max(Entry(a, nodeId), Entry(b, nodeId))];
      }
      keys := keys - {nodeId};
    }
    IsMerge(merged, a, b);
  }

  lemma IsMerge(merged: Counts, a: Counts, b: Counts)
    requires forall n :: n in merged <==> n in a || n in b
    requires forall n :: n in merged ==> merged[n] == Max(Entry(a, n), Entry(b, n))
    ensures merged == MergeCounts(a, b)
  {}

  method Merge(stateA: PNCounterState, stateB: PNCounterState) returns (merged: PNCounterState)
    ensures merged == Merged(stateA, stateB)
  {
    var mergedIncrements := MergeLoop(stateA.increments, stateB.increments);
    var mergedDecrements := MergeLoop(stateA.decrements, stateB.decrements);
    merged := PNCounterState(stateA.sku, mergedIncrements, mergedDecrements);
  }

  // ---------- merge is a join ----------

  lemma MergeCommutes(a: PNCounterState, b: PNCounterState)
    ensures Merged(a, b) == Merged(b, a).(sku := a.sku)
  {
    assert MergeCounts(a.increments, b.increments) == MergeCounts(b.increments, a.increments);
    assert MergeCounts(a.decrements, b.decrements) == MergeCounts(b.decrements, a.decrements);
  }

  lemma MergeAt(a: Counts, b: Counts, n: string)
    ensures n in MergeCounts(a, b) <==> n in a || n in b
    ensures n in MergeCounts(a, b) ==> MergeCounts(a, b)[n] == Max(Entry(a, n), Entry(b, n))
  {}

  lemma AssociateAt(a: Counts, b: Counts, c: Counts, n: string)
    ensures var l, r := MergeCounts(MergeCounts(a, b), c), MergeCounts(a, MergeCounts(b, c));
            (n in l <==> n in r) && Entry(l, n) == Entry(r, n)
  {
    MergeAt(a, b, n);
    MergeAt(b, c, n);
    MergeAt(MergeCounts(a, b), c, n);
    MergeAt(a, MergeCounts(b, c), n);
  }

  lemma SameEntries(x: Counts, y: Counts)
    requires forall n :: (n in x <==> n in y) && Entry(x, n) == Entry(y, n)
    ensures x == y
  {
    forall n | n in x ensures x[n] == y[n] { assert Entry(x, n) == Entry(y, n); }
  }

  lemma CountsAssociate(a: Counts, b: Counts, c: Counts)
    ensures MergeCounts(MergeCounts(a, b), c) == MergeCounts(a, MergeCounts(b, c))
  {
    var l, r := MergeCounts(MergeCounts(a, b), c), MergeCounts(a, MergeCounts(b, c));
    forall n ensures (n in l <==> n in r) && Entry(l, n) == Entry(r, n) { AssociateAt(a, b, c, n); }
    SameEntries(l, r);
  }

  lemma MergeAssociates(a: PNCounterState, b: PNCounterState, c: PNCounterState)
    ensures Merged(Merged(a, b), c) == Merged(a, Merged(b, c))
  {
    CountsAssociate(a.increments, b.increments, c.increments);
    CountsAssociate(a.decrements, b.decrements, c.decrements);
  }

  lemma MergeIdempotent(a: PNCounterState)
    ensures Merged(a, a) == a
  {
    assert MergeCounts(a.increments, a.increments) == a.increments;
    assert MergeCounts(a.decrements, a.decrements) == a.decrements;
  }

  /** `b` knows at least what `a` knows. */
  ghost predicate CountsBelow(a: Counts, b: Counts) {
    a.Keys <= b.Keys && forall n :: n in a ==> a[n] <= b[n]
  }

  ghost predicate Below(a: PNCounterState, b: PNCounterState) {
    CountsBelow(a.increments, b.increments) && CountsBelow(a.decrements, b.decrements)
  }

  /** Merging never forgets, and adds nothing beyond the two sides. */
  lemma MergeInflates(a: PNCounterState, b: PNCounterState)
    ensures Below(a, Merged(a, b)) && Below(b, Merged(a, b))
  {}

  lemma CountsLeast(a: Counts, b: Counts, c: Counts)
    requires CountsBelow(a, c) && CountsBelow(b, c) && forall n :: n in c ==> c[n] >= 0
    ensures CountsBelow(MergeCounts(a, b), c)
  {}

  lemma MergeLeast(a: PNCounterState, b: PNCounterState, c: PNCounterState)
    requires Below(a, c) && Below(b, c)
    requires (forall n :: n in c.increments ==> c.increments[n] >= 0) && forall n :: n in c.decrements ==> c.decrements[n] >= 0
    ensures Below(Merged(a, b), c)
  {
    CountsLeast(a.increments, b.increments, c.increments);
    CountsLeast(a.decrements, b.decrements, c.decrements);
  }

  // ---------- the protocol ----------

  datatype Event =
    | Add(node: string, amount: int)       // the node bumps its own increments
    | Take(node: string, amount: int)      // ... or its own decrements
    | Send(node: string)                   // its current state goes on the network, where it stays
    | Deliver(node: string, message: PNCounterState)  // any message ever sent, any number of times, in any order

  datatype System = System(replicas: map<string, PNCounterState>, sent: set<PNCounterState>, log: seq<Event>)

  ghost predicate Enabled(s: System, e: Event) {
    e.node in s.replicas &&
    match e
    case Add(_, amount) => amount >= 0
    case Take(_, amount) => amount >= 0
    case Send(_) => true
    case Deliver(_, message) => message in s.sent
  }

  ghost function Next(s: System, e: Event): System
    requires Enabled(s, e)
  {
    var own := s.replicas[e.node];
    match e
    case Add(node, amount) => s.(replicas := s.replicas[node := Increment(own, node, amount)], log := s.log + [e])
    case Take(node, amount) => s.(replicas := s.replicas[node := Decrement(own, node, amount)], log := s.log + [e])
    case Send(node) => s.(sent := s.sent + {own})
    case Deliver(node, message) => s.(replicas := s.replicas[node := Merged(own, message)])
  }

  ghost function Run(s: System, events: seq<Event>): System
    requires EnabledRun(s, events)
    decreases |events|
  {
    if events == [] then s else Run(Next(s, events[0]), events[1..])
  }

  ghost predicate EnabledRun(s: System, events: seq<Event>)
    decreases |events|
  {
    events == [] || (Enabled(s, events[0]) && EnabledRun(Next(s, events[0]), events[1..]))
  }

  ghost predicate Initial(s: System) {
    s.sent == {} && s.log == [] && forall r :: r in s.replicas ==> s.replicas[r] == CreateStockCounter(s.replicas[r].sku)
  }

  /** What node n really added, or took, according to the log. */
  ghost function TrueTotal(log: seq<Event>, node: string, adding: bool): int {
    if log == [] then 0
    else
      var e := log[|log| - 1];
      TrueTotal(log[..|log| - 1], node, adding)
      + if e.node == node && ((adding && e.Add?) || (!adding && e.Take?)) then e.amount else 0
  }

  /** Everything anyone added, or took. */
  ghost function GrandTotal(log: seq<Event>, adding: bool): int {
    if log == [] then 0
    else
      var e := log[|log| - 1];
      GrandTotal(log[..|log| - 1], adding) + if (adding && e.Add?) || (!adding && e.Take?) then e.amount else 0
  }

  ghost function Side(s: PNCounterState, adding: bool): Counts { if adding then s.increments else s.decrements }

  /** No state claims more for a node than the node itself did. */
  ghost predicate Truthful(log: seq<Event>, s: PNCounterState) {
    forall adding: bool, n :: n in Side(s, adding) ==> 0 <= Side(s, adding)[n] <= TrueTotal(log, n, adding)
  }

  ghost predicate Inv(s: System) {
    (forall r :: r in s.replicas ==> Truthful(s.log, s.replicas[r])) &&
    (forall m :: m in s.sent ==> Truthful(s.log, m)) &&
    (forall r, adding: bool :: r in s.replicas ==> Entry(Side(s.replicas[r], adding), r) == TrueTotal(s.log, r, adding)) &&
    forall k :: 0 <= k < |s.log| ==> Recorded(s, s.log[k])
  }

  /** A logged change was made by a replica that has an entry for itself on that side. */
  ghost predicate Recorded(s: System, e: Event) {
    (e.Add? || e.Take?) && e.amount >= 0 && e.node in s.replicas && e.node in Side(s.replicas[e.node], e.Add?)
  }

  lemma LogGrows(log: seq<Event>, e: Event)
    requires (e.Add? || e.Take?) && e.amount >= 0
    ensures forall n, adding: bool :: TrueTotal(log + [e], n, adding) ==
              TrueTotal(log, n, adding) + if e.node == n && adding == e.Add? then e.amount else 0
  {
    assert (log + [e])[..|log|] == log;
  }

  lemma TruthKept(log: seq<Event>, e: Event, s: PNCounterState)
    requires (e.Add? || e.Take?) && e.amount >= 0 && Truthful(log, s)
    ensures Truthful(log + [e], s)
  {
    LogGrows(log, e);
  }

  lemma MergeTruthful(log: seq<Event>, a: PNCounterState, b: PNCounterState)
    requires Truthful(log, a) && Truthful(log, b)
    ensures Truthful(log, Merged(a, b))
  {
    forall adding: bool, n | n in Side(Merged(a, b), adding)
      ensures 0 <= Side(Merged(a, b), adding)[n] <= TrueTotal(log, n, adding)
    {
      assert Side(Merged(a, b), adding)[n] == Max(Entry(Side(a, adding), n), Entry(Side(b, adding), n));
    }
  }

  lemma StepKeepsInv(s: System, e: Event)
    requires Inv(s) && Enabled(s, e)
    ensures Inv(Next(s, e))
  {
    var own := s.replicas[e.node];
    match e
    case Add(node, amount) => LocalStep(s, e);
    case Take(node, amount) => LocalStep(s, e);
    case Send(node) =>
    case Deliver(node, message) => DeliverStep(s, node, message);
  }

  lemma OwnEntryKept(log: seq<Event>, own: PNCounterState, message: PNCounterState, node: string, adding: bool)
    requires Truthful(log, message) && Truthful(log, own) && Entry(Side(own, adding), node) == TrueTotal(log, node, adding)
    ensures Entry(Side(Merged(own, message), adding), node) == TrueTotal(log, node, adding)
  {
    MergeAt(Side(own, adding), Side(message, adding), node);
  }

  lemma DeliverStep(s: System, node: string, message: PNCounterState)
    requires Inv(s) && node in s.replicas && message in s.sent
    ensures Inv(Next(s, Deliver(node, message)))
  {
    var own := s.replicas[node];
    var t := Next(s, Deliver(node, message));
    MergeTruthful(s.log, own, message);
    forall adding: bool ensures Entry(Side(Merged(own, message), adding), node) == TrueTotal(s.log, node, adding) {
      OwnEntryKept(s.log, own, message, node, adding);
    }
    forall k | 0 <= k < |t.log| ensures Recorded(t, t.log[k]) {
      assert Recorded(s, s.log[k]);
    }
  }

  lemma LocalSides(s: System, e: Event)
    requires Enabled(s, e) && (e.Add? || e.Take?)
    ensures var before, after := s.replicas[e.node], Next(s, e).replicas[e.node];
            Side(after, e.Add?) == Side(before, e.Add?)[e.node := Entry(Side(before, e.Add?), e.node) + e.amount] &&
            Side(after, !e.Add?) == Side(before, !e.Add?)
  {}

  lemma LocalTruth(s: System, e: Event)
    requires Inv(s) && Enabled(s, e) && (e.Add? || e.Take?)
    ensures var t := Next(s, e);
            Truthful(t.log, t.replicas[e.node]) &&
            forall adding: bool :: Entry(Side(t.replicas[e.node], adding), e.node) == TrueTotal(t.log, e.node, adding)
  {
    LogGrows(s.log, e);
    LocalSides(s, e);
    TruthKept(s.log, e, s.replicas[e.node]);
    var after := Next(s, e).replicas[e.node];
    forall adding: bool ensures Entry(Side(after, adding), e.node) == TrueTotal(s.log + [e], e.node, adding) {
      assert Entry(Side(s.replicas[e.node], adding), e.node) == TrueTotal(s.log, e.node, adding);
      assert adding == e.Add? || adding == !e.Add?;
    }
    forall adding: bool, n | n in Side(after, adding) ensures 0 <= Side(after, adding)[n] <= TrueTotal(s.log + [e], n, adding) {
      assert adding == e.Add? || adding == !e.Add?;
      if n != e.node { assert n in Side(s.replicas[e.node], adding); }
      else { assert Entry(Side(after, adding), e.node) == TrueTotal(s.log + [e], e.node, adding); }
      TotalNonnegative(s, e, n, adding);
    }
  }

  lemma {:induction false} LogNonnegative(log: seq<Event>, n: string, adding: bool)
    requires forall k :: 0 <= k < |log| ==> (log[k].Add? || log[k].Take?) && log[k].amount >= 0
    ensures TrueTotal(log, n, adding) >= 0
  {
    if log != [] { LogNonnegative(log[..|log| - 1], n, adding); }
  }

  lemma TotalNonnegative(s: System, e: Event, n: string, adding: bool)
    requires Inv(s) && Enabled(s, e) && (e.Add? || e.Take?)
    ensures TrueTotal(s.log + [e], n, adding) >= 0
  {
    var log := s.log + [e];
    forall k | 0 <= k < |log| ensures (log[k].Add? || log[k].Take?) && log[k].amount >= 0 {
      if k < |s.log| { assert Recorded(s, s.log[k]); }
    }
    LogNonnegative(log, n, adding);
  }

  lemma LocalStep(s: System, e: Event)
    requires Inv(s) && Enabled(s, e) && (e.Add? || e.Take?)
    ensures Inv(Next(s, e))
  {
    var t := Next(s, e);
    LocalTruth(s, e);
    LocalSides(s, e);
    LogGrows(s.log, e);
    forall r | r in t.replicas ensures Truthful(t.log, t.replicas[r]) {
      if r != e.node { TruthKept(s.log, e, s.replicas[r]); }
    }
    forall m | m in t.sent ensures Truthful(t.log, m) { TruthKept(s.log, e, m); }
    forall k | 0 <= k < |t.log| ensures Recorded(t, t.log[k]) {
      if k < |s.log| { assert Recorded(s, s.log[k]) && t.log[k] == s.log[k]; }
    }
    forall r, adding: bool | r in t.replicas ensures Entry(Side(t.replicas[r], adding), r) == TrueTotal(t.log, r, adding) {
      if r != e.node { assert Entry(Side(s.replicas[r], adding), r) == TrueTotal(s.log, r, adding); }
    }
  }

  /** In every reachable state no replica and no message overstates a node, and each node knows its own total. */
  lemma {:induction false} RunKeepsInv(s: System, events: seq<Event>)
    requires Inv(s) && EnabledRun(s, events)
    ensures Inv(Run(s, events))
    decreases |events|
  {
    if events != [] {
      StepKeepsInv(s, events[0]);
      RunKeepsInv(Next(s, events[0]), events[1..]);
    }
  }

  // ---------- convergence ----------

  lemma BelowTransitive(a: PNCounterState, b: PNCounterState, c: PNCounterState)
    requires Below(a, b) && Below(b, c)
    ensures Below(a, c)
  {}

  /** Delivering a message makes the receiver absorb it, and keeps what it had absorbed. */
  lemma DeliveryAbsorbs(s: System, r: string, message: PNCounterState)
    requires r in s.replicas && message in s.sent
    ensures Below(message, Next(s, Deliver(r, message)).replicas[r])
    ensures Below(s.replicas[r], Next(s, Deliver(r, message)).replicas[r])
  {
    MergeInflates(s.replicas[r], message);
  }

  predicate Changes(e: Event, n: string) { (e.Add? || e.Take?) && e.node == n }

  /** The node changes nothing from event i on. */
  ghost predicate Quiet(events: seq<Event>, i: nat, n: string)
    requires i <= |events|
  {
    forall k :: i <= k < |events| ==> !Changes(events[k], n)
  }

  /** Event i sent this state of the node's. */
  ghost predicate SentAt(s: System, events: seq<Event>, i: nat, n: string, message: PNCounterState)
    requires i < |events|
  {
    && events[i] == Send(n) && EnabledRun(s, events[..i]) && n in Run(s, events[..i]).replicas
    && message == Run(s, events[..i]).replicas[n]
  }

  /** Within the first k events the node's final state has reached r: it is r's own, or it was in a message that r
      received and that its sender, whoever that was, had heard before sending. A node that changes nothing has
      nothing to tell. */
  ghost predicate Heard(s: System, events: seq<Event>, n: string, r: string, k: nat)
    requires k <= |events|
    decreases k
  {
    || (n == r && Quiet(events, k, n)) || Quiet(events, 0, n)
    || exists i: nat, j: nat, sender, message ::
         && i < j < k && SentAt(s, events, i, sender, message) && events[j] == Deliver(r, message)
         && Heard(s, events, n, sender, i)
  }

  /** The state has all that the node ever did. */
  ghost predicate Tells(log: seq<Event>, m: PNCounterState, n: string) {
    forall adding: bool ::
      Entry(Side(m, adding), n) == TrueTotal(log, n, adding) && (DidChange(log, n, adding) ==> n in Side(m, adding))
  }

  ghost predicate DidChange(log: seq<Event>, n: string, adding: bool) {
    exists k :: 0 <= k < |log| && Changes(log[k], n) && log[k].Add? == adding
  }

  lemma OwnTells(s: System, n: string)
    requires Inv(s) && n in s.replicas
    ensures Tells(s.log, s.replicas[n], n)
  {
    forall adding: bool | DidChange(s.log, n, adding) ensures n in Side(s.replicas[n], adding) {
      var k :| 0 <= k < |s.log| && Changes(s.log[k], n) && s.log[k].Add? == adding;
      assert Recorded(s, s.log[k]);
    }
  }

  lemma TellsAbove(log: seq<Event>, m: PNCounterState, above: PNCounterState, n: string)
    requires Tells(log, m, n) && Below(m, above) && Truthful(log, above)
    ensures Tells(log, above, n)
  {
    forall adding: bool ensures Entry(Side(above, adding), n) == TrueTotal(log, n, adding)
      && (DidChange(log, n, adding) ==> n in Side(above, adding))
    {
      assert CountsBelow(Side(m, adding), Side(above, adding));
      if n !in Side(above, adding) { assert n !in Side(m, adding) && Entry(Side(m, adding), n) == 0; }
    }
  }

  lemma QuietLog(log: seq<Event>, e: Event, n: string, adding: bool)
    requires (e.Add? || e.Take?) && e.amount >= 0 && e.node != n
    ensures TrueTotal(log + [e], n, adding) == TrueTotal(log, n, adding)
    ensures DidChange(log + [e], n, adding) ==> DidChange(log, n, adding)
  {
    LogGrows(log, e);
    if DidChange(log + [e], n, adding) {
      var k :| 0 <= k < |log + [e]| && Changes((log + [e])[k], n) && (log + [e])[k].Add? == adding;
      assert k < |log| && log[k] == (log + [e])[k];
    }
  }

  lemma QuietStep(s: System, e: Event, m: PNCounterState, n: string)
    requires Enabled(s, e) && !Changes(e, n) && Tells(s.log, m, n)
    ensures Tells(Next(s, e).log, m, n)
  {
    if e.Add? || e.Take? {
      forall adding: bool ensures Entry(Side(m, adding), n) == TrueTotal(s.log + [e], n, adding)
        && (DidChange(s.log + [e], n, adding) ==> n in Side(m, adding))
      {
        QuietLog(s.log, e, n, adding);
      }
    }
  }

  lemma {:induction false} QuietRun(s: System, events: seq<Event>, m: PNCounterState, n: string)
    requires EnabledRun(s, events) && Quiet(events, 0, n) && Tells(s.log, m, n)
    ensures Tells(Run(s, events).log, m, n)
    decreases |events|
  {
    if events != [] {
      assert !Changes(events[0], n);
      QuietStep(s, events[0], m, n);
      assert forall k :: 0 <= k < |events[1..]| ==> events[1..][k] == events[k + 1];
      QuietRun(Next(s, events[0]), events[1..], m, n);
    }
  }

  lemma StepForgetsNothing(s: System, e: Event, r: string)
    requires Inv(s) && Enabled(s, e) && r in s.replicas
    ensures r in Next(s, e).replicas && Below(s.replicas[r], Next(s, e).replicas[r])
  {}

  lemma {:induction false} RunForgetsNothing(s: System, events: seq<Event>, r: string)
    requires Inv(s) && EnabledRun(s, events) && r in s.replicas
    ensures r in Run(s, events).replicas && Below(s.replicas[r], Run(s, events).replicas[r])
    decreases |events|
  {
    if events != [] {
      var next := Next(s, events[0]);
      StepForgetsNothing(s, events[0], r);
      StepKeepsInv(s, events[0]);
      RunForgetsNothing(next, events[1..], r);
      BelowTransitive(s.replicas[r], next.replicas[r], Run(next, events[1..]).replicas[r]);
    }
  }

  lemma {:induction false} RunSplits(s: System, events: seq<Event>, i: nat)
    requires EnabledRun(s, events) && i <= |events|
    ensures EnabledRun(s, events[..i]) && EnabledRun(Run(s, events[..i]), events[i..])
    ensures Run(s, events) == Run(Run(s, events[..i]), events[i..])
    decreases i
  {
    if i == 0 {
      assert events[..0] == [] && events[0..] == events;
    } else {
      RunSplits(Next(s, events[0]), events[1..], i - 1);
      assert events[..i][1..] == events[1..][..i - 1] && events[1..][i - 1..] == events[i..];
    }
  }

  lemma {:induction false} TruthKeptOverRun(s: System, events: seq<Event>, m: PNCounterState)
    requires EnabledRun(s, events) && Truthful(s.log, m)
    ensures Truthful(Run(s, events).log, m)
    decreases |events|
  {
    if events != [] {
      if events[0].Add? || events[0].Take? { TruthKept(s.log, events[0], m); }
      TruthKeptOverRun(Next(s, events[0]), events[1..], m);
    }
  }

  /** What a replica held on the way is still true at the end. */
  lemma {:induction false} TruthfulAt(s: System, events: seq<Event>, k: nat, r: string)
    requires Inv(s) && EnabledRun(s, events) && k <= |events| && EnabledRun(s, events[..k]) && r in Run(s, events[..k]).replicas
    ensures Truthful(Run(s, events).log, Run(s, events[..k]).replicas[r])
  {
    RunSplits(s, events, k);
    RunKeepsInv(s, events[..k]);
    TruthKeptOverRun(Run(s, events[..k]), events[k..], Run(s, events[..k]).replicas[r]);
  }

  lemma {:induction false} OwnTellsAt(s: System, events: seq<Event>, k: nat, n: string)
    requires Inv(s) && EnabledRun(s, events) && k <= |events| && Quiet(events, k, n)
    requires EnabledRun(s, events[..k]) && n in Run(s, events[..k]).replicas
    ensures Tells(Run(s, events).log, Run(s, events[..k]).replicas[n], n)
  {
    RunSplits(s, events, k);
    RunKeepsInv(s, events[..k]);
    OwnTells(Run(s, events[..k]), n);
    QuietRun(Run(s, events[..k]), events[k..], Run(s, events[..k]).replicas[n], n);
  }

  lemma DeliveredStays(s: System, events: seq<Event>, j: nat, r: string, message: PNCounterState)
    requires Inv(s) && EnabledRun(s, events) && j < |events| && events[j] == Deliver(r, message)
    ensures r in Run(s, events).replicas && Below(message, Run(s, events).replicas[r])
  {
    RunSplits(s, events, j);
    RunKeepsInv(s, events[..j]);
    var before, rest := Run(s, events[..j]), events[j..];
    assert rest[0] == events[j];
    var after := Next(before, rest[0]);
    DeliveryAbsorbs(before, r, message);
    StepKeepsInv(before, rest[0]);
    RunForgetsNothing(after, rest[1..], r);
    BelowTransitive(message, after.replicas[r], Run(s, events).replicas[r]);
  }

  lemma {:induction false} ReceivedBefore(s: System, events: seq<Event>, j: nat, k: nat, r: string, message: PNCounterState)
    requires Inv(s) && EnabledRun(s, events) && j < k <= |events| && events[j] == Deliver(r, message) && EnabledRun(s, events[..k])
    ensures r in Run(s, events[..k]).replicas && Below(message, Run(s, events[..k]).replicas[r])
  {
    assert events[..k][j] == events[j];
    DeliveredStays(s, events[..k], j, r, message);
  }

  /** Who has heard of a node has all that the node ever did. */
  lemma {:induction false} HeardTells(s: System, events: seq<Event>, n: string, r: string, k: nat)
    requires Initial(s) && EnabledRun(s, events) && k <= |events| && Heard(s, events, n, r, k)
    requires EnabledRun(s, events[..k]) && r in Run(s, events[..k]).replicas
    ensures Tells(Run(s, events).log, Run(s, events[..k]).replicas[r], n)
    decreases k
  {
    InitialInv(s);
    var log, state := Run(s, events).log, Run(s, events[..k]).replicas[r];
    TruthfulAt(s, events, k, r);
    if n == r && Quiet(events, k, n) {
      OwnTellsAt(s, events, k, n);
    } else if Quiet(events, 0, n) {
      QuietRun(s, events, CreateStockCounter(""), n);
      TellsAbove(log, CreateStockCounter(""), state, n);
    } else {
      var i: nat, j: nat, sender, message :|
        && i < j < k && SentAt(s, events, i, sender, message) && events[j] == Deliver(r, message)
        && Heard(s, events, n, sender, i);
      HeardTells(s, events, n, sender, i);
      ReceivedBefore(s, events, j, k, r, message);
      TellsAbove(log, message, state, n);
    }
  }

  ghost function Totals(log: seq<Event>, nodes: set<string>, adding: bool): Counts {
    map n | n in nodes :: TrueTotal(log, n, adding)
  }

  lemma {:induction false} TotalsSum(log: seq<Event>, nodes: set<string>, adding: bool)
    requires forall k :: 0 <= k < |log| && ((adding && log[k].Add?) || (!adding && log[k].Take?)) ==> log[k].node in nodes
    ensures Sum(Totals(log, nodes, adding)) == GrandTotal(log, adding)
  {
    var m := Totals(log, nodes, adding);
    if log == [] {
      SumZero(m);
    } else {
      var front, e := log[..|log| - 1], log[|log| - 1];
      TotalsSum(front, nodes, adding);
      var before := Totals(front, nodes, adding);
      if (adding && e.Add?) || (!adding && e.Take?) {
        assert m == before[e.node := before[e.node] + e.amount];
        SumUpdate(before, e.node, before[e.node] + e.amount);
      } else {
        assert m == before;
      }
    }
  }

  /** The replica has all that any node ever did. */
  ghost predicate Informed(s: System, r: string) {
    r in s.replicas && forall n :: n in s.replicas ==> Tells(s.log, s.replicas[r], n)
  }

  /** Every entry belongs to a replica of the system. */
  ghost predicate KnownNodes(s: System) {
    (forall r, adding: bool, n :: r in s.replicas && n in Side(s.replicas[r], adding) ==> n in s.replicas) &&
    (forall m, adding: bool, n :: m in s.sent && n in Side(m, adding) ==> n in s.replicas)
  }

  lemma StepKeepsKnown(s: System, e: Event)
    requires KnownNodes(s) && Enabled(s, e)
    ensures KnownNodes(Next(s, e)) && Next(s, e).replicas.Keys == s.replicas.Keys
  {
    var own := s.replicas[e.node];
    var t := Next(s, e);
    forall r, adding: bool, n | r in t.replicas && n in Side(t.replicas[r], adding) ensures n in s.replicas {
      if r != e.node || e.Send? {
        assert n in Side(s.replicas[r], adding);
      } else if e.Deliver? {
        assert n in Side(own, adding) || n in Side(e.message, adding);
      } else {
        assert n == e.node || n in Side(own, adding);
      }
    }
    forall m, adding: bool, n | m in t.sent && n in Side(m, adding) ensures n in s.replicas {
      if m !in s.sent { assert m == own; }
    }
  }

  lemma {:induction false} RunKeepsKnown(s: System, events: seq<Event>)
    requires KnownNodes(s) && EnabledRun(s, events)
    ensures KnownNodes(Run(s, events))
    decreases |events|
  {
    if events != [] {
      StepKeepsKnown(s, events[0]);
      RunKeepsKnown(Next(s, events[0]), events[1..]);
    }
  }

  lemma InformedHas(s: System, r: string, adding: bool, k: nat)
    requires Inv(s) && Informed(s, r) && k < |s.log| && ((adding && s.log[k].Add?) || (!adding && s.log[k].Take?))
    ensures s.log[k].node in Side(s.replicas[r], adding)
  {
    assert Recorded(s, s.log[k]) && Changes(s.log[k], s.log[k].node);
    assert DidChange(s.log, s.log[k].node, adding);
    assert Tells(s.log, s.replicas[r], s.log[k].node);
  }

  lemma {:induction false} InformedTotals(s: System, r: string, adding: bool, side: Counts)
    requires KnownNodes(s) && Informed(s, r) && side == Side(s.replicas[r], adding)
    ensures side == Totals(s.log, side.Keys, adding)
  {
    forall n | n in side ensures side[n] == TrueTotal(s.log, n, adding) {
      assert Tells(s.log, s.replicas[r], n);
    }
  }

  lemma {:induction false} InformedSide(s: System, r: string, adding: bool, side: Counts)
    requires Inv(s) && KnownNodes(s) && Informed(s, r) && side == Side(s.replicas[r], adding)
    ensures Sum(side) == GrandTotal(s.log, adding)
  {
    forall k | 0 <= k < |s.log| && ((adding && s.log[k].Add?) || (!adding && s.log[k].Take?)) ensures s.log[k].node in side {
      InformedHas(s, r, adding, k);
    }
    InformedTotals(s, r, adding, side);
    TotalsSum(s.log, side.Keys, adding);
  }

  /** An informed replica reads max(0, everything added - everything taken). */
  lemma InformedReadsTruth(s: System, r: string, added: int, taken: int)
    requires Inv(s) && KnownNodes(s) && Informed(s, r)
    requires added == GrandTotal(s.log, true) && taken == GrandTotal(s.log, false)
    ensures Value(s.replicas[r]) == Max(0, added - taken)
  {
    var state := s.replicas[r];
    InformedSide(s, r, true, state.increments);
    InformedSide(s, r, false, state.decrements);
    ValueFrom(state, added, taken);
  }

  lemma ValueFrom(s: PNCounterState, added: int, taken: int)
    requires Sum(s.increments) == added && Sum(s.decrements) == taken
    ensures Value(s) == Max(0, added - taken)
  {}

  lemma InitialInv(s: System)
    requires Initial(s)
    ensures Inv(s) && KnownNodes(s)
  {}

  /** The whole story, from empty counters, over messages delayed, lost, duplicated and reordered: once every node's
      final state has reached r, straight from the node or through others, replica r reads the true stock, floored
      at zero. Replicas that heard of everyone therefore agree. */
  lemma Convergence(s: System, events: seq<Event>, r: string, t: System, added: int, taken: int)
    requires Initial(s) && EnabledRun(s, events) && t == Run(s, events) && r in t.replicas
    requires forall n :: n in t.replicas ==> Heard(s, events, n, r, |events|)
    requires added == GrandTotal(t.log, true) && taken == GrandTotal(t.log, false)
    ensures forall n, adding: bool :: n in t.replicas ==> Entry(Side(t.replicas[r], adding), n) == TrueTotal(t.log, n, adding)
    ensures Value(t.replicas[r]) == Max(0, added - taken)
  {
    InitialInv(s);
    RunKeepsInv(s, events);
    RunKeepsKnown(s, events);
    assert events[..|events|] == events;
    forall n | n in t.replicas ensures Tells(t.log, t.replicas[r], n) { HeardTells(s, events, n, r, |events|); }
    InformedReadsTruth(t, r, added, taken);
  }
}
