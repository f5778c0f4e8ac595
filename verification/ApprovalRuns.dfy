/** What holds of every stored approval request over whole runs of the service. */
module ApprovalRuns {
  import opened Options
  import opened Approval

  // ---------- exact counting ----------

  function Need(steps: seq<Step>, step: nat): (r: nat)
    ensures r >= 1
  {
    var required := RequiredCount(steps, step);
    if required > 1 then required else 1
  }

  function NeedUpTo(steps: seq<Step>, n: nat): nat {
    if n == 0 then 0 else NeedUpTo(steps, n - 1) + Need(steps, n - 1)
  }

  /** A workflow without steps still takes one approval. */
  function StepCount(steps: seq<Step>): nat { if steps == [] then 1 else |steps| }

  ghost predicate Settled(steps: seq<Step>, decisions: seq<Decision>, n: nat) {
    forall s: nat :: s < n ==> Approvals(decisions, s) == Need(steps, s)
  }

  ghost predicate AllApproved(decisions: seq<Decision>, last: nat) {
    forall d :: d in decisions ==> d.approved && d.stepIndex <= last
  }

  /** The steps before the current one have exactly the approvals they need, and nothing else was decided. */
  ghost predicate Sound(r: Record, steps: seq<Step>) {
    && r.currentStep < StepCount(steps)
    && |r.decisions| <= NeedUpTo(steps, StepCount(steps))
    && match r.status
       case Pending =>
         && AllApproved(r.decisions, r.currentStep) && Settled(steps, r.decisions, r.currentStep)
         && Approvals(r.decisions, r.currentStep) < Need(steps, r.currentStep)
         && |r.decisions| == NeedUpTo(steps, r.currentStep) + Approvals(r.decisions, r.currentStep)
       case Approved =>
         && AllApproved(r.decisions, r.currentStep) && Settled(steps, r.decisions, StepCount(steps))
         && |r.decisions| == NeedUpTo(steps, StepCount(steps))
       case Rejected =>
         && r.decisions != [] && !r.decisions[|r.decisions| - 1].approved
         && AllApproved(r.decisions[..|r.decisions| - 1], r.currentStep)
         && Settled(steps, r.decisions, r.currentStep)
         && Approvals(r.decisions, r.currentStep) < Need(steps, r.currentStep)
       case Escalated => AllApproved(r.decisions, r.currentStep)
       case Expired => AllApproved(r.decisions, r.currentStep)
  }

  lemma ApprovalsAppend(decisions: seq<Decision>, d: Decision, step: nat)
    ensures Approvals(decisions + [d], step) == Approvals(decisions, step) + if d.stepIndex == step && d.approved then 1 else 0
  {
    assert (decisions + [d])[..|decisions|] == decisions;
  }

  lemma {:induction false} NoneBeyond(decisions: seq<Decision>, last: nat, step: nat)
    requires AllApproved(decisions, last) && step > last
    ensures Approvals(decisions, step) == 0
  {
    if decisions != [] {
      var front := decisions[..|decisions| - 1];
      assert decisions[|decisions| - 1] in decisions && forall d :: d in front ==> d in decisions;
      NoneBeyond(front, last, step);
    }
  }

  lemma {:induction false} NeedGrows(steps: seq<Step>, m: nat, n: nat)
    requires m <= n
    ensures NeedUpTo(steps, m) <= NeedUpTo(steps, n)
  {
    if m < n { NeedGrows(steps, m, n - 1); }
  }

  lemma OneMoreApproval(decisions: seq<Decision>, steps: seq<Step>, d: Decision, c: nat)
    requires AllApproved(decisions, c) && Settled(steps, decisions, c) && d.approved && d.stepIndex == c
    requires |decisions| == NeedUpTo(steps, c) + Approvals(decisions, c) && Approvals(decisions, c) < Need(steps, c)
    ensures var ds := decisions + [d];
            && AllApproved(ds, c) && Settled(steps, ds, c)
            && Approvals(ds, c) == Approvals(decisions, c) + 1
            && |ds| == NeedUpTo(steps, c) + Approvals(ds, c) && |ds| <= NeedUpTo(steps, c + 1)
            && (Approvals(ds, c) >= RequiredCount(steps, c) ==>
                  Settled(steps, ds, c + 1) && |ds| == NeedUpTo(steps, c + 1) && Approvals(ds, c + 1) == 0)
  {
    var ds := decisions + [d];
    forall s: nat | s <= c
      ensures Approvals(ds, s) == if s == c then Approvals(decisions, c) + 1 else Approvals(decisions, s)
    {
      ApprovalsAppend(decisions, d, s);
    }
    assert AllApproved(ds, c);
    NoneBeyond(ds, c, c + 1);
    assert NeedUpTo(steps, c + 1) == NeedUpTo(steps, c) + Need(steps, c);
  }

  lemma ApprovedRecord(r: Record, steps: seq<Step>, d: Decision, ds: seq<Decision>, c: nat, required: int)
    requires r.workflow == Some(steps) && r.status.Pending? && d.stepIndex == r.currentStep == c && ds == r.decisions + [d]
    ensures var next := Approve(r.Loaded(), d, required);
            next.Some? && r.With(next.value) == if Approvals(ds, c) < required then r.(decisions := ds)
                                                 else if c + 1 >= |steps| then r.(decisions := ds, status := Approved)
                                                 else r.(decisions := ds, currentStep := c + 1)
  {}

  lemma StaysOnStep(r: Record, steps: seq<Step>, ds: seq<Decision>, c: nat)
    requires r.status.Pending? && r.currentStep == c < StepCount(steps) && Approvals(ds, c) < RequiredCount(steps, c)
    requires AllApproved(ds, c) && Settled(steps, ds, c) && |ds| == NeedUpTo(steps, c) + Approvals(ds, c)
    requires |ds| <= NeedUpTo(steps, c + 1)
    ensures Sound(r.(decisions := ds), steps)
  {
    NeedGrows(steps, c + 1, StepCount(steps));
  }

  lemma Completes(r: Record, steps: seq<Step>, ds: seq<Decision>, c: nat)
    requires r.currentStep == c < StepCount(steps) && c + 1 >= |steps|
    requires AllApproved(ds, c) && Settled(steps, ds, c + 1) && |ds| == NeedUpTo(steps, c + 1)
    ensures Sound(r.(decisions := ds, status := Approved), steps)
  {}

  lemma MovesOn(r: Record, steps: seq<Step>, ds: seq<Decision>, c: nat)
    requires r.status.Pending? && c + 1 < |steps|
    requires AllApproved(ds, c) && Settled(steps, ds, c + 1) && |ds| == NeedUpTo(steps, c + 1) && Approvals(ds, c + 1) == 0
    ensures Sound(r.(decisions := ds, currentStep := c + 1), steps)
  {
    NeedGrows(steps, c + 1, StepCount(steps));
    assert AllApproved(ds, c + 1);
  }

  lemma ApprovalKeepsSound(r: Record, steps: seq<Step>, d: Decision)
    requires r.workflow == Some(steps) && Sound(r, steps) && r.status.Pending?
    requires d.approved && d.stepIndex == r.currentStep
    ensures var next := Approve(r.Loaded(), d, RequiredCount(steps, r.currentStep)); next.Some? && Sound(r.With(next.value), steps)
  {
    var c, ds, required := r.currentStep, r.decisions + [d], RequiredCount(steps, r.currentStep);
    OneMoreApproval(r.decisions, steps, d, c);
    ApprovedRecord(r, steps, d, ds, c, required);
    if Approvals(ds, c) < required {
      StaysOnStep(r, steps, ds, c);
    } else if c + 1 >= |steps| {
      Completes(r, steps, ds, c);
    } else {
      MovesOn(r, steps, ds, c);
    }
  }

  lemma RejectionKeepsSound(r: Record, steps: seq<Step>, d: Decision)
    requires r.workflow == Some(steps) && Sound(r, steps) && r.status.Pending?
    requires !d.approved && d.stepIndex == r.currentStep
    ensures var next := Reject(r.Loaded(), d); next.Some? && Sound(r.With(next.value), steps)
  {
    var ds, c := r.decisions + [d], r.currentStep;
    forall s: nat ensures Approvals(ds, s) == Approvals(r.decisions, s) { ApprovalsAppend(r.decisions, d, s); }
    NeedGrows(steps, c + 1, StepCount(steps));
    assert ds[..|ds| - 1] == r.decisions;
    assert NeedUpTo(steps, c + 1) == NeedUpTo(steps, c) + Need(steps, c);
  }

  lemma DecisionKeepsSound(r: Record, steps: seq<Step>, deciderId: string, approve: bool)
    requires r.workflow == Some(steps) && Sound(r, steps) && Decided(r, deciderId, approve).Some?
    ensures Sound(Decided(r, deciderId, approve).value, steps)
  {
    var d := Decision(r.currentStep, deciderId, approve);
    if approve { ApprovalKeepsSound(r, steps, d); } else { RejectionKeepsSound(r, steps, d); }
  }

  // ---------- runs ----------

  type Records = map<string, Record>

  datatype Event =
    | Create(id: string, steps: seq<Step>, now: int)
    | Decide(id: string, deciderId: string, approve: bool)
    | CheckExpired(ids: seq<string>, now: int)
    | ForceExpire(id: string)

  /** A new request, with a deadline if its first step has a timeout. */
  function Created(steps: seq<Step>, now: int): Record {
    Record(Pending, 0, [], if steps != [] && steps[0].timeoutHours > 0 then Some(now + steps[0].timeoutHours * HOUR) else None, Some(steps))
  }

  function Expired(r: Record): Record { if r.status.Pending? || r.status.Escalated? then r.(status := Status.Expired) else r }

  ghost predicate Step(a: Records, e: Event, b: Records) {
    match e
    case Create(id, steps, now) => id !in a && b == a[id := Created(steps, now)]
    case Decide(id, deciderId, approve) =>
      b == if id in a && Decided(a[id], deciderId, approve).Some? then a[id := Decided(a[id], deciderId, approve).value] else a
    case CheckExpired(ids, now) => StaleIds(a, ids, now) && b == Sweep(a, ids, now).records
    case ForceExpire(id) => b == if id in a then a[id := Expired(a[id])] else a
  }

  ghost predicate Run(states: seq<Records>, events: seq<Event>) {
    && |states| == |events| + 1 && states[0] == map[]
    && forall i :: 0 <= i < |events| ==> Step(states[i], events[i], states[i + 1])
  }

  ghost predicate SoundRecord(r: Record) { r.workflow.Some? && Sound(r, r.workflow.value) }

  ghost predicate AllSound(records: Records) {
    forall id :: id in records ==> SoundRecord(records[id])
  }

  /** A sweep leaves a request alone, or times it out. */
  lemma {:induction false} SweepTouches(a: Records, ids: seq<string>, now: int, id: string)
    requires (forall x :: x in ids ==> x in a) && id in a
    ensures var b := Sweep(a, ids, now).records;
            && b.Keys == a.Keys
            && (b[id] == a[id] || (id in ids && a[id].workflow.Some? && TimedOut(a[id], now) == Some(b[id])))
  {
    if ids != [] {
      SweepTouches(a, ids[..|ids| - 1], now, id);
    }
  }

  lemma TimeOutKeepsSound(r: Record, steps: seq<Step>, now: int)
    requires r.workflow == Some(steps) && Sound(r, steps) && TimedOut(r, now).Some?
    ensures TimedOut(r, now).value.workflow == Some(steps) && Sound(TimedOut(r, now).value, steps)
  {}

  lemma SweepKeepsSound(a: Records, ids: seq<string>, now: int, id: string)
    requires AllSound(a) && (forall x :: x in ids ==> x in a) && id in a
    ensures var b := Sweep(a, ids, now).records;
            b.Keys == a.Keys && SoundRecord(b[id])
  {
    SweepTouches(a, ids, now, id);
    if a[id].workflow.Some? && TimedOut(a[id], now).Some? {
      TimeOutKeepsSound(a[id], a[id].workflow.value, now);
    }
  }

  lemma StepKeepsSound(a: Records, e: Event, b: Records)
    requires AllSound(a) && Step(a, e, b)
    ensures AllSound(b)
  {
    match e
    case Create(id, steps, now) =>
    case Decide(id, deciderId, approve) =>
      if id in a && Decided(a[id], deciderId, approve).Some? {
        DecisionKeepsSound(a[id], a[id].workflow.value, deciderId, approve);
      }
    case CheckExpired(ids, now) =>
      if ids != [] { SweepTouches(a, ids, now, ids[0]); }
      forall id | id in b ensures SoundRecord(b[id]) {
        SweepKeepsSound(a, ids, now, id);
      }
    case ForceExpire(id) =>
  }

  /** In every reachable state every request is sound. */
  lemma {:induction false} EveryRequestSound(states: seq<Records>, events: seq<Event>, i: nat)
    requires Run(states, events) && i < |states|
    ensures AllSound(states[i])
  {
    if i > 0 {
      EveryRequestSound(states, events, i - 1);
      assert Step(states[i - 1], events[i - 1], states[i]);
      StepKeepsSound(states[i - 1], events[i - 1], states[i]);
    }
  }

  /** An approved request has exactly the approvals every step needs, no rejection, and no decision beyond
      them; no request ever collects more decisions than that. */
  lemma ApprovedMeansApproved(states: seq<Records>, events: seq<Event>, i: nat, id: string, steps: seq<Step>)
    requires Run(states, events) && i < |states| && id in states[i] && states[i][id].workflow == Some(steps)
    ensures var r := states[i][id];
            && |r.decisions| <= NeedUpTo(steps, StepCount(steps))
            && (r.status.Pending? ==> forall s: nat :: s < r.currentStep ==> Approvals(r.decisions, s) == Need(steps, s))
            && (r.status.Approved? ==>
                  && (forall s: nat :: s < StepCount(steps) ==> Approvals(r.decisions, s) == Need(steps, s))
                  && (forall d :: d in r.decisions ==> d.approved)
                  && |r.decisions| == NeedUpTo(steps, StepCount(steps)))
  {
    EveryRequestSound(states, events, i);
  }

  // ---------- escalation ----------

  lemma EscalatedStep(a: Records, e: Event, b: Records, id: string)
    requires Step(a, e, b) && id in a && (a[id].status.Escalated? || a[id].status.Expired?)
    ensures id in b && (b[id] == a[id] || (e == ForceExpire(id) && b[id].status.Expired?))
  {
    match e
    case CheckExpired(ids, now) => SweepTouches(a, ids, now, id);
    case _ =>
  }

  /** A request that was ever escalated is never approved: it stays exactly as it is unless it is expired by
      force, and an expired request never changes. */
  lemma {:induction false} EscalatedNeverApproved(states: seq<Records>, events: seq<Event>, i: nat, j: nat, id: string)
    requires Run(states, events) && i <= j < |states| && id in states[i] && states[i][id].status.Escalated?
    ensures id in states[j] && (states[j][id] == states[i][id] || states[j][id].status.Expired?)
    ensures (forall k :: i <= k < j ==> events[k] != ForceExpire(id)) ==> states[j][id] == states[i][id]
  {
    if i < j {
      EscalatedNeverApproved(states, events, i, j - 1, id);
      EscalatedStep(states[j - 1], events[j - 1], states[j], id);
    }
  }

  /** The requests a sweep throws on: stale, with a workflow, and already escalated. */
  predicate Blocks(r: Record) { r.workflow.Some? && r.status.Escalated? }

  function Count(records: Records, ids: seq<string>): nat
    requires forall id :: id in ids ==> id in records
  {
    if ids == [] then 0
    else Count(records, ids[..|ids| - 1]) + if records[ids[|ids| - 1]].workflow.Some? then 1 else 0
  }

  ghost predicate Distinct(ids: seq<string>) { forall i, j :: 0 <= i < j < |ids| ==> ids[i] != ids[j] }

  ghost predicate Stale(records: Records, ids: seq<string>, now: int) {
    forall i :: 0 <= i < |ids| ==> ids[i] in records && records[ids[i]].IsStale(now)
  }

  ghost predicate Clear(records: Records, ids: seq<string>, n: nat)
    requires n <= |ids| && forall id :: id in ids ==> id in records
  {
    forall i :: 0 <= i < n ==> !Blocks(records[ids[i]])
  }

  /** A sweep completes exactly when no stale request it lists is already escalated; it then reports how many
      requests it timed out. */
  lemma {:induction false} SweepCompletesIff(records: Records, ids: seq<string>, now: int)
    requires Stale(records, ids, now)
    ensures Sweep(records, ids, now).completed <==> Clear(records, ids, |ids|)
    ensures Clear(records, ids, |ids|) ==> Sweep(records, ids, now).processed == Count(records, ids)
  {
    if ids != [] {
      var front := ids[..|ids| - 1];
      assert Stale(records, front, now);
      SweepCompletesIff(records, front, now);
      assert Clear(records, ids, |ids|) <==> Clear(records, front, |front|) && !Blocks(records[ids[|ids| - 1]]);
    }
  }

  lemma LastOutcome(records: Records, ids: seq<string>, now: int, id: string, front: seq<string>)
    requires Stale(records, ids, now) && Distinct(ids) && ids == front + [id] && Stale(records, front, now)
    ensures id in Sweep(records, ids, now).records
    ensures var r, after := records[id], Sweep(records, ids, now).records[id];
            if r.workflow.Some? && Clear(records, ids, |ids|) then TimedOut(r, now) == Some(after) else after == r
  {
    var n := |front|;
    assert ids[..n] == front && ids[n] == id;
    SweepCompletesIff(records, front, now);
    SweepTouches(records, front, now, id);
    assert Clear(records, ids, n + 1) <==> Clear(records, front, n) && !Blocks(records[id]);
    assert id !in front;
  }

  /** A listed request is timed out exactly when it has a workflow and no request up to it in the list is
      already escalated; the requests after the first escalated one are left as they were. */
  lemma {:induction false} SweepOutcome(records: Records, ids: seq<string>, now: int, k: nat)
    requires Stale(records, ids, now) && Distinct(ids) && k < |ids|
    ensures ids[k] in Sweep(records, ids, now).records
    ensures var r, after := records[ids[k]], Sweep(records, ids, now).records[ids[k]];
            if r.workflow.Some? && Clear(records, ids, k + 1) then TimedOut(r, now) == Some(after) else after == r
  {
    var n := |ids| - 1;
    var front := ids[..n];
    assert Stale(records, front, now);
    if k == n {
      LastOutcome(records, ids, now, ids[n], front);
    } else {
      SweepOutcome(records, front, now, k);
      assert front[k] == ids[k] && ids[n] != ids[k];
      assert Clear(records, ids, k + 1) <==> Clear(records, front, k + 1);
    }
  }

  /** Once an escalated request has passed its new deadline, no later sweep ever completes. */
  lemma SweepsStayBlocked(states: seq<Records>, events: seq<Event>, i: nat, j: nat, id: string)
    requires Run(states, events) && i <= j < |events| && events[j].CheckExpired?
    requires id in states[i] && Blocks(states[i][id]) && states[i][id].IsStale(events[j].now)
    requires forall k :: i <= k < j ==> events[k] != ForceExpire(id)
    ensures StaleIds(states[j], events[j].ids, events[j].now)
    ensures !Sweep(states[j], events[j].ids, events[j].now).completed
  {
    EscalatedNeverApproved(states, events, i, j, id);
    var ids, now := events[j].ids, events[j].now;
    assert Step(states[j], events[j], states[j + 1]);
    SweepCompletesIff(states[j], ids, now);
    var k :| 0 <= k < |ids| && ids[k] == id;
    assert Blocks(states[j][ids[k]]);
  }

  lemma SweepOfOne(id: string, r: Record, now: int)
    requires r.workflow.Some?
    ensures Sweep(map[id := r], [id], now)
         == match TimedOut(r, now) case None => Swept(map[id := r], 0, false) case Some(next) => Swept(map[id := next], 1, true)
  {
    assert [id][..0] == [];
    assert Sweep(map[id := r], [id][..0], now) == Swept(map[id := r], 0, true);
  }

  /** Such requests do come up: one that nobody decides on, whose first two steps have timeouts, is escalated by one
      sweep and stops every sweep after its second deadline. */
  lemma UndecidedRequestBlocks(id: string, steps: seq<Step>, start: int, now: int, later: int)
      returns (states: seq<Records>, events: seq<Event>)
    requires |steps| >= 2 && steps[0].timeoutHours > 0 && steps[1].timeoutHours > 0
    requires start + steps[0].timeoutHours * HOUR <= now && now + steps[1].timeoutHours * HOUR <= later
    ensures events == [Create(id, steps, start), CheckExpired([id], now), CheckExpired([id], later)]
    ensures Run(states, events) && states[2].Keys == {id} && Blocks(states[2][id]) && states[2][id].IsStale(later)
    ensures !Sweep(states[2], [id], later).completed
  {
    var created := Created(steps, start);
    var escalated := Record(Escalated, 1, [], Some(now + steps[1].timeoutHours * HOUR), Some(steps));
    SweepOfOne(id, created, now);
    SweepOfOne(id, escalated, later);
    events := [Create(id, steps, start), CheckExpired([id], now), CheckExpired([id], later)];
    states := [map[], map[id := created], map[id := escalated], map[id := escalated]];
  }
}
