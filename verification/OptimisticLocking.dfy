/** Clients that load, mutate and save one stored item under the version check, interleaved in any order,
    each inside the bounded retry loop. */
module OptimisticLocking {
  import opened Options
  import opened InventoryItems

  // ---------- the retry decorator ----------

  datatype Attempt<+R> = Success(result: R) | Concurrency | OtherError

  function Bound(maxRetries: int): nat { if maxRetries < 0 then 0 else maxRetries }

  /** `wrap`: `execute(i)` is what the i-th run of the use case ends in. Only concurrency errors are retried,
      the outcome is that of the last run, and there are at most maxRetries + 1 runs. */
  method Wrap<R>(execute: nat -> Attempt<R>, maxRetries: int) returns (outcome: Attempt<R>, runs: nat)
    ensures 1 <= runs <= Bound(maxRetries) + 1
    ensures outcome == execute(runs - 1)
    ensures forall i: nat :: i < runs - 1 ==> execute(i) == Concurrency
    ensures outcome.Concurrency? ==> runs == Bound(maxRetries) + 1
  {
    var attempts := 0;
    while true
      invariant 0 <= attempts <= Bound(maxRetries)
      invariant forall i: nat :: i < attempts ==> execute(i) == Concurrency
      decreases Bound(maxRetries) - attempts
    {
      outcome := execute(attempts);
      if outcome.Concurrency? && attempts < maxRetries {
        attempts := attempts + 1;
      } else {
        runs := attempts + 1;
        return;
      }
    }
  }

  // ---------- the protocol ----------

  /** Idle: about to (re)load. Loaded: holds its own copy. Done: saved. Failed: gave up or threw. */
  datatype Phase = Idle | Loaded(copy: ItemState) | Done | Failed

  datatype Client = Client(ops: seq<Mutator>, maxRetries: int, attempts: nat, phase: Phase)

  /** One accepted save. */
  datatype Commit = Commit(client: string, ops: seq<Mutator>, loaded: ItemState, saved: ItemState)

  datatype World = World(stored: ItemState, clients: map<string, Client>, commits: seq<Commit>)

  datatype Event = Load(client: string) | Save(client: string)

  ghost predicate Enabled(w: World, e: Event) {
    e.client in w.clients &&
    match e
    case Load(c) => w.clients[c].phase.Idle?
    case Save(c) => w.clients[c].phase.Loaded?
  }

  ghost function Next(w: World, e: Event): World
    requires Enabled(w, e)
  {
    var c := w.clients[e.client];
    match e
    case Load(id) => w.(clients := w.clients[id := c.(phase := Loaded(w.stored))])
    case Save(id) =>
      var item := ApplyAll(c.phase.copy, c.ops);
      if item.None? then w.(clients := w.clients[id := c.(phase := Failed)])
      else if w.stored.version == item.value.version - 1 then
        World(item.value, w.clients[id := c.(phase := Done)], w.commits + [Commit(id, c.ops, c.phase.copy, item.value)])
      else if c.attempts < c.maxRetries then w.(clients := w.clients[id := c.(attempts := c.attempts + 1, phase := Idle)])
      else w.(clients := w.clients[id := c.(phase := Failed)])
  }

  ghost predicate Legal(w: World, events: seq<Event>)
    decreases |events|
  {
    events == [] || (Enabled(w, events[0]) && Legal(Next(w, events[0]), events[1..]))
  }

  ghost function Run(w: World, events: seq<Event>): World
    requires Legal(w, events)
    decreases |events|
  {
    if events == [] then w else Run(Next(w, events[0]), events[1..])
  }

  ghost predicate Initial(w: World) {
    w.commits == [] && forall c :: c in w.clients ==> w.clients[c].phase.Idle? && w.clients[c].attempts == 0
  }

  /** The stored state after the first k commits. */
  ghost function StoredAfter(start: ItemState, commits: seq<Commit>, k: nat): ItemState
    requires k <= |commits|
  {
    if k == 0 then start else commits[k - 1].saved
  }

  ghost function CommitsOf(commits: seq<Commit>, client: string): nat {
    if commits == [] then 0
    else CommitsOf(commits[..|commits| - 1], client) + if commits[|commits| - 1].client == client then 1 else 0
  }

  /** How often the use case has been started. */
  ghost function Runs(c: Client): nat { if c.phase.Idle? then c.attempts else c.attempts + 1 }

  /** A copy is one of the states stored so far, and its version says which. */
  ghost predicate FromHistory(start: ItemState, commits: seq<Commit>, copy: ItemState) {
    0 <= copy.version - start.version <= |commits| && copy == StoredAfter(start, commits, copy.version - start.version)
  }

  ghost predicate Inv(start: ItemState, w: World) {
    w.stored == StoredAfter(start, w.commits, |w.commits|) &&
    (forall k :: 0 <= k <= |w.commits| ==> StoredAfter(start, w.commits, k).version == start.version + k) &&
    (forall k :: 0 <= k < |w.commits| ==> CommitInv(start, w.commits, k)) &&
    forall id :: id in w.clients ==> ClientInv(start, w, id)
  }

  /** Commit k was computed by its mutators from a state stored earlier: |ops| - 1 commits back. */
  ghost predicate CommitInv(start: ItemState, commits: seq<Commit>, k: nat)
    requires k < |commits|
  {
    var c := commits[k];
    ApplyAll(c.loaded, c.ops) == Some(c.saved) && 1 <= |c.ops| <= k + 1 &&
    c.loaded == StoredAfter(start, commits, k + 1 - |c.ops|)
  }

  ghost predicate ClientInv(start: ItemState, w: World, id: string)
    requires id in w.clients
  {
    var c := w.clients[id];
    (c.phase.Loaded? ==> FromHistory(start, w.commits, c.phase.copy)) &&
    CommitsOf(w.commits, id) == (if c.phase.Done? then 1 else 0) &&
    c.attempts <= Bound(c.maxRetries)
  }

  lemma CommitAppends(start: ItemState, commits: seq<Commit>, c: Commit)
    ensures forall k :: 0 <= k <= |commits| ==> StoredAfter(start, commits + [c], k) == StoredAfter(start, commits, k)
    ensures forall id :: CommitsOf(commits + [c], id) == CommitsOf(commits, id) + if c.client == id then 1 else 0
  {
    assert (commits + [c])[..|commits|] == commits;
  }

  lemma AcceptedSave(start: ItemState, w: World, id: string)
    requires Inv(start, w) && id in w.clients && w.clients[id].phase.Loaded?
    requires var item := ApplyAll(w.clients[id].phase.copy, w.clients[id].ops);
             item.Some? && w.stored.version == item.value.version - 1
    ensures Inv(start, Next(w, Save(id)))
  {
    var c := w.clients[id];
    var copy := c.phase.copy;
    var item := ApplyAll(copy, c.ops).value;
    var commit := Commit(id, c.ops, copy, item);
    var t := Next(w, Save(id));
    CommitAppends(start, w.commits, commit);
    assert FromHistory(start, w.commits, copy);
    assert copy.version - start.version == |w.commits| + 1 - |c.ops|;
    forall k | 0 <= k < |t.commits| ensures CommitInv(start, t.commits, k) {
      if k < |w.commits| {
        assert CommitInv(start, w.commits, k) && t.commits[k] == w.commits[k];
      }
    }
    forall other | other in t.clients ensures ClientInv(start, t, other) {
      assert ClientInv(start, w, other);
    }
  }

  lemma StepKeepsInv(start: ItemState, w: World, e: Event)
    requires Inv(start, w) && Enabled(w, e)
    ensures Inv(start, Next(w, e))
  {
    var t := Next(w, e);
    var c := w.clients[e.client];
    if e.Save? && ApplyAll(c.phase.copy, c.ops).Some? && w.stored.version == ApplyAll(c.phase.copy, c.ops).value.version - 1 {
      AcceptedSave(start, w, e.client);
    } else {
      forall other | other in t.clients ensures ClientInv(start, t, other) {
        assert ClientInv(start, w, other);
      }
    }
  }

  lemma {:induction false} RunKeepsInv(start: ItemState, w: World, events: seq<Event>)
    requires Inv(start, w) && Legal(w, events)
    ensures Inv(start, Run(w, events))
    decreases |events|
  {
    if events != [] {
      StepKeepsInv(start, w, events[0]);
      RunKeepsInv(start, Next(w, events[0]), events[1..]);
    }
  }

  /** Over every interleaving: an accepted save with |ops| mutators discards exactly the |ops| - 1 commits
      made since it loaded; every commit raises the version by one; a client commits at most once and only
      when it is done; and it starts its use case at most maxRetries + 1 times. */
  lemma EveryRun(w: World, events: seq<Event>)
    requires Initial(w) && Legal(w, events)
    ensures var t := Run(w, events);
            Inv(w.stored, t) &&
            forall id :: id in t.clients ==>
              CommitsOf(t.commits, id) <= 1 && Runs(t.clients[id]) <= Bound(t.clients[id].maxRetries) + 1
  {
    RunKeepsInv(w.stored, w, events);
    var t := Run(w, events);
    forall id | id in t.clients
      ensures CommitsOf(t.commits, id) <= 1 && Runs(t.clients[id]) <= Bound(t.clients[id].maxRetries) + 1
    {
      assert ClientInv(w.stored, t, id);
    }
  }

  /** Commit k acts on the state stored just before it. */
  ghost predicate Serial(start: ItemState, commits: seq<Commit>, k: nat)
    requires k < |commits|
  {
    ApplyAll(StoredAfter(start, commits, k), commits[k].ops) == Some(commits[k].saved) &&
    commits[k].loaded == StoredAfter(start, commits, k)
  }

  /** An accepted save is serial if and only if exactly one mutator was applied to its copy. */
  lemma SerialIffOneMutator(start: ItemState, w: World, k: nat)
    requires Inv(start, w) && k < |w.commits|
    ensures Serial(start, w.commits, k) <==> |w.commits[k].ops| == 1
  {
    assert CommitInv(start, w.commits, k);
    var j := k + 1 - |w.commits[k].ops|;
    assert StoredAfter(start, w.commits, j).version == start.version + j;
    assert StoredAfter(start, w.commits, k).version == start.version + k;
  }

  ghost predicate OneMutator(w: World) {
    forall id :: id in w.clients ==> |w.clients[id].ops| == 1
  }

  ghost predicate OpsOfClients(w: World) {
    forall k :: 0 <= k < |w.commits| ==> w.commits[k].client in w.clients && w.commits[k].ops == w.clients[w.commits[k].client].ops
  }

  lemma {:induction false} OpsKept(w: World, events: seq<Event>)
    requires OpsOfClients(w) && OneMutator(w) && Legal(w, events)
    ensures OpsOfClients(Run(w, events)) && OneMutator(Run(w, events))
    decreases |events|
  {
    if events != [] {
      OpsKept(Next(w, events[0]), events[1..]);
    }
  }

  /** The stored state as the commits' single mutators, applied one after the other from the start. */
  ghost function Replay(start: ItemState, commits: seq<Commit>): Option<ItemState> {
    if commits == [] then Some(start)
    else match Replay(start, commits[..|commits| - 1])
      case None => None
      case Some(s) => ApplyAll(s, commits[|commits| - 1].ops)
  }

  lemma {:induction false} ReplaySerial(start: ItemState, commits: seq<Commit>)
    requires forall k :: 0 <= k < |commits| ==> Serial(start, commits, k)
    ensures Replay(start, commits) == Some(StoredAfter(start, commits, |commits|))
  {
    if commits != [] {
      var front := commits[..|commits| - 1];
      forall k | 0 <= k < |front| ensures Serial(start, front, k) {
        assert Serial(start, commits, k);
        assert StoredAfter(start, front, k) == StoredAfter(start, commits, k);
      }
      ReplaySerial(start, front);
      assert Serial(start, commits, |commits| - 1);
      assert StoredAfter(start, front, |front|) == StoredAfter(start, commits, |front|);
    }
  }

  /** When every client applies exactly one mutator, no update is ever lost: the stored item is the
      accepted mutators replayed one by one in commit order. */
  lemma NoLostUpdates(w: World, events: seq<Event>)
    requires Initial(w) && Legal(w, events) && OneMutator(w)
    ensures var t := Run(w, events); Replay(w.stored, t.commits) == Some(t.stored)
  {
    RunKeepsInv(w.stored, w, events);
    OpsKept(w, events);
    var t := Run(w, events);
    forall k | 0 <= k < |t.commits| ensures Serial(w.stored, t.commits, k) {
      SerialIffOneMutator(w.stored, t, k);
    }
    ReplaySerial(w.stored, t.commits);
  }

  lemma RunStep(w: World, e: Event, rest: seq<Event>)
    requires Enabled(w, e) && Legal(Next(w, e), rest)
    ensures Legal(w, [e] + rest) && Run(w, [e] + rest) == Run(Next(w, e), rest)
  {
    assert ([e] + rest)[1..] == rest;
  }

  /** With two mutators the check lets an update be lost: A receives 5 twice on a copy loaded before B's
      receipt of 100, both saves are accepted, and 10 remain where 110 came in. */
  lemma TwoMutatorsLoseAnUpdate()
    ensures var a, b := Client([ReceiveStock(5), ReceiveStock(5)], 3, 0, Idle), Client([ReceiveStock(100)], 3, 0, Idle);
            var w := World(NEW_ITEM, map["A" := a, "B" := b], []);
            var events := [Load("A")] + ([Load("B")] + ([Save("B")] + ([Save("A")] + [])));
            Initial(w) && Legal(w, events) && |Run(w, events).commits| == 2 && Run(w, events).stored.quantity == 10
  {
    var a, b := Client([ReceiveStock(5), ReceiveStock(5)], 3, 0, Idle), Client([ReceiveStock(100)], 3, 0, Idle);
    var w := World(NEW_ITEM, map["A" := a, "B" := b], []);
    var w1 := Next(w, Load("A"));
    var w2 := Next(w1, Load("B"));
    assert ApplyAll(NEW_ITEM, b.ops) == Some(ItemState(100, 0, 0, 2)) by { assert b.ops[1..] == []; }
    var w3 := Next(w2, Save("B"));
    assert ApplyAll(NEW_ITEM, a.ops) == Some(ItemState(10, 0, 0, 3)) by {
      assert a.ops[1..] == [ReceiveStock(5)] && a.ops[1..][1..] == [];
    }
    var w4 := Next(w3, Save("A"));
    RunStep(w3, Save("A"), []);
    RunStep(w2, Save("B"), [Save("A")] + []);
    RunStep(w1, Load("B"), [Save("B")] + ([Save("A")] + []));
    RunStep(w, Load("A"), [Load("B")] + ([Save("B")] + ([Save("A")] + [])));
  }
}
