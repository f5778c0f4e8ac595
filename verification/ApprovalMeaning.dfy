/** What approval requests go through, on the workflow's configuration and the recorded decisions. */
module ApprovalMeaning {
  import opened Options
  import opened Approval
  import opened ApprovalRuns

  /** The recorded approvals of a step. */
  ghost function ApprovalsAt(decisions: seq<Decision>, step: nat): set<int> {
    set k | 0 <= k < |decisions| && decisions[k].stepIndex == step && decisions[k].approved
  }

  lemma {:induction false} ApprovalsCount(decisions: seq<Decision>, step: nat)
    ensures Approvals(decisions, step) == |ApprovalsAt(decisions, step)|
  {
    if decisions != [] {
      var n := |decisions| - 1;
      var all, before := ApprovalsAt(decisions, step), ApprovalsAt(decisions[..n], step);
      ApprovalsCount(decisions[..n], step);
      if decisions[n].stepIndex == step && decisions[n].approved {
        assert all == before + {n};
      } else {
        assert all == before;
      }
    }
  }

  /** A step with a configured count above 1 has exactly that many approvals, any other step exactly one. */
  ghost predicate ApprovedAsConfigured(steps: seq<Step>, decisions: seq<Decision>, s: nat)
    requires s < |steps|
  {
    match steps[s].requiredCount
    case Some(n) => |ApprovalsAt(decisions, s)| == if n > 1 then n else 1
    case None => |ApprovalsAt(decisions, s)| == 1
  }

  lemma NeededAtStep(steps: seq<Step>, decisions: seq<Decision>, s: nat)
    requires s < |steps|
    ensures Approvals(decisions, s) == Need(steps, s) <==> ApprovedAsConfigured(steps, decisions, s)
  {
    ApprovalsCount(decisions, s);
  }

  /** In every run: an approved request has exactly the configured approvals at every step and no other decision; a
      pending one has them at the steps before its current one, and fewer at that one. */
  lemma RequestsFollowConfiguration(states: seq<Records>, events: seq<Event>, i: nat, id: string, steps: seq<Step>)
    requires Run(states, events) && i < |states| && id in states[i] && states[i][id].workflow == Some(steps)
    ensures var r := states[i][id];
            && (r.status.Approved? ==>
                  && (forall s: nat :: s < |steps| ==> ApprovedAsConfigured(steps, r.decisions, s))
                  && (steps == [] ==> |r.decisions| == 1)
                  && (forall d :: d in r.decisions ==> d.approved && (steps != [] ==> d.stepIndex < |steps|)))
            && (r.status.Pending? ==>
                  && (forall s: nat :: s < r.currentStep && s < |steps| ==> ApprovedAsConfigured(steps, r.decisions, s))
                  && (forall d :: d in r.decisions ==> d.approved && d.stepIndex <= r.currentStep)
                  && (steps != [] ==> r.currentStep < |steps| && !ApprovedAsConfigured(steps, r.decisions, r.currentStep)))
  {
    EveryRequestSound(states, events, i);
    var r := states[i][id];
    forall s: nat | s < |steps|
      ensures Approvals(r.decisions, s) == Need(steps, s) <==> ApprovedAsConfigured(steps, r.decisions, s) {
      NeededAtStep(steps, r.decisions, s);
    }
    if steps == [] { assert NeedUpTo(steps, 1) == NeedUpTo(steps, 0) + Need(steps, 0) == 1; }
  }

  /** The approvals of the current step reach the configured count with one more; a step without a count needs one. */
  ghost predicate OneMoreIsEnough(steps: seq<Step>, decisions: seq<Decision>, step: nat) {
    step < |steps| && steps[step].requiredCount.Some? ==> |ApprovalsAt(decisions, step)| + 1 >= steps[step].requiredCount.value
  }

  lemma ApprovalsAtMore(decisions: seq<Decision>, d: Decision, step: nat)
    ensures |ApprovalsAt(decisions + [d], step)| == |ApprovalsAt(decisions, step)| + if d.stepIndex == step && d.approved then 1 else 0
  {
    ApprovalsCount(decisions, step);
    ApprovalsCount(decisions + [d], step);
    ApprovalsAppend(decisions, d, step);
  }

  /** The aggregate itself refuses what is not pending, an approval of any other step than the current one, and a rejection
      that is an approval; forced expiry also takes what is escalated. */
  lemma RefusedIff(r: Request, d: Decision, requiredCount: int)
    ensures Approve(r, d, requiredCount) == None <==> r.status != Pending || d.stepIndex != r.currentStep
    ensures Reject(r, d) == None <==> r.status != Pending || d.approved
    ensures Escalate(r) == None <==> r.status != Pending
    ensures Expire(r) == (if r.status in {Pending, Escalated} then Some(r.(status := Status.Expired)) else None)
  {}

  /** A decision on a pending request is recorded at its current step. A rejection ends it; an approval that makes the
      configured number moves it to the next step, or approves it after the last; any other changes nothing else.
      Requests that are not pending accept no decision. */
  lemma DecisionMeans(r: Record, steps: seq<Step>, deciderId: string, approve: bool)
    requires r.workflow == Some(steps)
    ensures var next, recorded := Decided(r, deciderId, approve), r.(decisions := r.decisions + [Decision(r.currentStep, deciderId, approve)]);
            if !r.status.Pending? then next == None
            else if !approve then next == Some(recorded.(status := Rejected))
            else if !OneMoreIsEnough(steps, r.decisions, r.currentStep) then next == Some(recorded)
            else if r.currentStep + 1 < |steps| then next == Some(recorded.(currentStep := r.currentStep + 1))
            else next == Some(recorded.(status := Approved))
  {
    var d := Decision(r.currentStep, deciderId, approve);
    ApprovalsCount(r.decisions + [d], r.currentStep);
    ApprovalsAtMore(r.decisions, d, r.currentStep);
    if r.status.Pending? && approve {
      ApprovedRecord(r, steps, d, r.decisions + [d], r.currentStep, RequiredCount(steps, r.currentStep));
    }
  }

  /** A sweep escalates a pending request to its next step, whose timeout, in hours, sets the new deadline if there is
      one; at the last step the request expires. An escalated request cannot be timed out. */
  lemma TimeOutMeans(r: Record, steps: seq<Step>, now: int)
    requires r.workflow == Some(steps)
    ensures var next, step := TimedOut(r, now), r.currentStep + 1;
            if !r.status.Pending? then next == None
            else if step >= |steps| then next == Some(r.(status := Status.Expired, expiresAt := None))
            else next == Some(r.(status := Escalated, currentStep := step,
                                 expiresAt := if steps[step].timeoutHours > 0 then Some(now + steps[step].timeoutHours * 3_600_000) else None))
  {}

  /** When no escalated request is past its deadline, a sweep completes and times out exactly the pending requests whose
      deadline has come. */
  lemma SweepMeans(records: Records, ids: seq<string>, now: int, id: string, steps: seq<Step>)
    requires StaleIds(records, ids, now) && id in records && records[id].workflow == Some(steps)
    requires forall x :: x in records && records[x].status.Escalated? && records[x].expiresAt.Some? ==> records[x].expiresAt.value > now
    ensures Sweep(records, ids, now).completed && id in Sweep(records, ids, now).records
    ensures var r, after, step := records[id], Sweep(records, ids, now).records[id], records[id].currentStep + 1;
            if !r.status.Pending? || r.expiresAt == None || r.expiresAt.value > now then after == r
            else if step >= |steps| then after == r.(status := Status.Expired, expiresAt := None)
            else after == r.(status := Escalated, currentStep := step,
                             expiresAt := if steps[step].timeoutHours > 0 then Some(now + steps[step].timeoutHours * 3_600_000) else None)
  {
    assert Stale(records, ids, now) && Distinct(ids);
    SweepCompletesIff(records, ids, now);
    assert Clear(records, ids, |ids|);
    TimeOutMeans(records[id], steps, now);
    if id in ids {
      var k :| 0 <= k < |ids| && ids[k] == id;
      SweepOutcome(records, ids, now, k);
    } else {
      SweepTouches(records, ids, now, id);
    }
  }
}
