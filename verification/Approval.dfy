/** Multi-step approval: the request aggregate, the service that feeds it decisions, and the sweep that
    escalates requests past their deadline. A request's workflow does not change while it is open. */
module Approval {
  import opened Options

  datatype Status = Pending | Approved | Rejected | Escalated | Expired

  datatype Decision = Decision(stepIndex: nat, deciderId: string, approved: bool)

  datatype Request = Request(status: Status, currentStep: nat, decisions: seq<Decision>, totalSteps: nat)
  {
    predicate IsPending() { status.Pending? || status.Escalated? }

    predicate IsLastStep() { currentStep + 1 >= totalSteps }
  }

  /** Approvals recorded for a step. */
  function Approvals(decisions: seq<Decision>, step: nat): nat {
    if decisions == [] then 0
    else
      var d := decisions[|decisions| - 1];
      Approvals(decisions[..|decisions| - 1], step) + if d.stepIndex == step && d.approved then 1 else 0
  }

  // ---------- transitions; None when the aggregate throws ----------

  function Approve(r: Request, d: Decision, requiredCount: int): Option<Request> {
    if !r.status.Pending? || d.stepIndex != r.currentStep then None
    else
      var decided := r.(decisions := r.decisions + [d]);
      if Approvals(decided.decisions, r.currentStep) < requiredCount then Some(decided)
      else if r.IsLastStep() then Some(decided.(status := Approved))
      else Some(decided.(currentStep := r.currentStep + 1))
  }

  function Reject(r: Request, d: Decision): Option<Request> {
    if !r.status.Pending? || d.approved then None
    else Some(r.(decisions := r.decisions + [d], status := Rejected))
  }

  function Escalate(r: Request): Option<Request> {
    if !r.status.Pending? then None
    else if r.IsLastStep() then Some(r.(status := Expired))
    else Some(r.(currentStep := r.currentStep + 1, status := Escalated))
  }

  function Expire(r: Request): Option<Request> {
    if r.IsPending() then Some(r.(status := Expired)) else None
  }

  class ApprovalRequest {
    var status: Status
    var currentStep: nat
    var decisions: seq<Decision>
    const totalSteps: nat

    constructor (r: Request)
      ensures Value() == r
    {
      status, currentStep, decisions, totalSteps := r.status, r.currentStep, r.decisions, r.totalSteps;
    }

    function Value(): Request
      reads this
    {
      Request(status, currentStep, decisions, totalSteps)
    }

    ghost predicate Becomes(before: Request, next: Option<Request>, ok: bool)
      reads this
    {
      ok == next.Some? && Value() == if ok then next.value else before
    }

    method RecordApproval(d: Decision, requiredCount: int) returns (ok: bool)
      modifies this
      ensures Becomes(old(Value()), Approve(old(Value()), d, requiredCount), ok)
    {
      if status != Pending { return false; }
      if d.stepIndex != currentStep { return false; }
      decisions := decisions + [d];
      var currentStepApprovals := Approvals(decisions, currentStep);
      if currentStepApprovals >= requiredCount {
        if currentStep + 1 >= totalSteps {
          status := Approved;
        } else {
          currentStep := currentStep + 1;
        }
      }
      ok := true;
    }

    method RecordRejection(d: Decision) returns (ok: bool)
      modifies this
      ensures Becomes(old(Value()), Reject(old(Value()), d), ok)
    {
      if status != Pending { return false; }
      if d.approved { return false; }
      decisions := decisions + [d];
      status := Rejected;
      ok := true;
    }

    method TimeOut() returns (ok: bool)
      modifies this
      ensures Becomes(old(Value()), Escalate(old(Value())), ok)
    {
      if status != Pending { return false; }
      if currentStep + 1 >= totalSteps {
        status := Expired;
      } else {
        currentStep := currentStep + 1;
        status := Escalated;
      }
      ok := true;
    }

    method ForceExpire() returns (ok: bool)
      modifies this
      ensures Becomes(old(Value()), Expire(old(Value())), ok)
    {
      if status != Pending && status != Escalated { return false; }
      status := Expired;
      ok := true;
    }
  }

  // ---------- the stored records ----------

  /** `requiredCount` may be missing from a step's configuration. */
  datatype Step = Step(requiredCount: Option<int>, timeoutHours: int)

  datatype Record = Record(status: Status, currentStep: nat, decisions: seq<Decision>, expiresAt: Option<int>,
                           workflow: Option<seq<Step>>)
  {
    /** The status machine as the service rebuilds it. */
    function Loaded(): Request
      requires workflow.Some?
    {
      Request(status, currentStep, decisions, |workflow.value|)
    }

    function With(r: Request): Record {
      this.(status := r.status, currentStep := r.currentStep, decisions := r.decisions)
    }

    predicate IsStale(now: int) {
      (status.Pending? || status.Escalated?) && expiresAt.Some? && expiresAt.value <= now
    }
  }

  const HOUR: int := 3_600_000

  function RequiredCount(steps: seq<Step>, step: nat): int {
    if step < |steps| && steps[step].requiredCount.Some? then steps[step].requiredCount.value else 1
  }

  function Deadline(steps: seq<Step>, r: Request, now: int): Option<int> {
    if r.IsPending() && r.currentStep < |steps| && steps[r.currentStep].timeoutHours > 0
    then Some(now + steps[r.currentStep].timeoutHours * HOUR) else None
  }

  function Decided(record: Record, deciderId: string, approve: bool): Option<Record> {
    if record.workflow.None? then None
    else
      var r := record.Loaded();
      var d := Decision(r.currentStep, deciderId, approve);
      var next := if approve then Approve(r, d, RequiredCount(record.workflow.value, r.currentStep)) else Reject(r, d);
      if next.Some? then Some(record.With(next.value)) else None
  }

  /** The sweep's treatment of one record that has a workflow. */
  function TimedOut(record: Record, now: int): Option<Record>
    requires record.workflow.Some?
  {
    var next := Escalate(record.Loaded());
    if next.Some?
    then Some(record.With(next.value).(expiresAt := Deadline(record.workflow.value, next.value, now)))
    else None
  }

  datatype Swept = Swept(records: map<string, Record>, processed: nat, completed: bool)

  /** The sweep over the stale ids in the order given: each update is stored at once; the first request that
      cannot be escalated ends the sweep with an exception. */
  function Sweep(records: map<string, Record>, ids: seq<string>, now: int): Swept
    requires forall id :: id in ids ==> id in records
  {
    if ids == [] then Swept(records, 0, true)
    else
      var front := Sweep(records, ids[..|ids| - 1], now);
      var id := ids[|ids| - 1];
      var record := records[id];
      if !front.completed || record.workflow.None? then front
      else
        var next := TimedOut(record, now);
        if next.None? then front.(completed := false)
        else Swept(front.records[id := next.value], front.processed + 1, true)
  }

  ghost predicate StaleIds(records: map<string, Record>, ids: seq<string>, now: int) {
    && (forall i, j :: 0 <= i < j < |ids| ==> ids[i] != ids[j])
    && (forall id :: id in ids ==> id in records && records[id].IsStale(now))
    && (forall id :: id in records && records[id].IsStale(now) ==> id in ids)
  }

  class ApprovalWorkflowService {
    var records: map<string, Record>

    constructor ()
      ensures records == map[]
    {
      records := map[];
    }

    method ProcessDecision(requestId: string, deciderId: string, approve: bool) returns (status: Option<Status>)
      modifies this
      ensures var next := if requestId in old(records) then Decided(old(records)[requestId], deciderId, approve) else None;
              && records == (if next.Some? then old(records)[requestId := next.value] else old(records))
              && status == if next.Some? then Some(next.value.status) else None
    {
      if requestId !in records || records[requestId].workflow.None? { return None; }
      var record := records[requestId];
      var steps := record.workflow.value;
      var request := new ApprovalRequest(record.Loaded());
      var decision := Decision(request.currentStep, deciderId, approve);
      var ok;
      if !approve {
        ok := request.RecordRejection(decision);
      } else {
        var requiredCount := 1;
        if request.currentStep < |steps| && steps[request.currentStep].requiredCount.Some? {
          requiredCount := steps[request.currentStep].requiredCount.value;
        }
        ok := request.RecordApproval(decision, requiredCount);
      }
      if !ok { return None; }
      records := records[requestId := record.With(request.Value())];
      status := Some(request.status);
    }

    method FindStaleRequests(now: int) returns (ids: seq<string>)
      ensures StaleIds(records, ids, now)
    {
      ids := [];
      var rest := records.Keys;
      while rest != {}
        invariant rest <= records.Keys
        invariant forall i, j :: 0 <= i < j < |ids| ==> ids[i] != ids[j]
        invariant forall id :: id in ids ==> id in records && id !in rest && records[id].IsStale(now)
        invariant forall id :: id in records && id !in rest && records[id].IsStale(now) ==> id in ids
        decreases |rest|
      {
        var id :| id in rest;
        rest := rest - {id};
        if records[id].IsStale(now) { ids := ids + [id]; }
      }
    }

    /** The loop body: false when the request throws, with nothing stored. */
    method TimeOutRequest(id: string, record: Record, now: int) returns (ok: bool)
      requires record.workflow.Some?
      modifies this
      ensures var next := TimedOut(record, now);
              ok == next.Some? && records == if ok then old(records)[id := next.value] else old(records)
    {
      var request := new ApprovalRequest(record.Loaded());
      ok := request.TimeOut();
      if !ok { return; }
      var steps := record.workflow.value;
      var newExpiresAt := None;
      if request.status == Pending || request.status == Escalated {
        if request.currentStep < |steps| && steps[request.currentStep].timeoutHours > 0 {
          newExpiresAt := Some(now + steps[request.currentStep].timeoutHours * HOUR);
        }
      }
      records := records[id := record.With(request.Value()).(expiresAt := newExpiresAt)];
    }

    /** None when a request throws; the requests before it stay updated. */
    method CheckExpiredRequests(now: int) returns (processed: Option<nat>, ghost ids: seq<string>)
      modifies this
      ensures StaleIds(old(records), ids, now)
      ensures var s := Sweep(old(records), ids, now);
              records == s.records && processed == if s.completed then Some(s.processed) else None
    {
      var staleRequests := FindStaleRequests(now);
      ids := staleRequests;
      var loaded := records;
      ghost var done := [];
      var processedCount := 0;
      for i := 0 to |staleRequests|
        invariant done == staleRequests[..i] && records.Keys == loaded.Keys
        invariant Sweep(loaded, done, now) == Swept(records, processedCount, true)
      {
        var id := staleRequests[i];
        assert (done + [id])[..i] == done;
        done := done + [id];
        if loaded[id].workflow.Some? {
          var ok := TimeOutRequest(id, loaded[id], now);
          if !ok {
            assert staleRequests[..|done|] == done;
            SweepStops(loaded, staleRequests, now, |done|);
            return None, staleRequests;
          }
          processedCount := processedCount + 1;
        }
      }
      assert done == staleRequests;
      processed := Some(processedCount);
    }
  }

  /** Once a request has thrown, the rest of the list changes nothing. */
  lemma {:induction false} SweepStops(records: map<string, Record>, ids: seq<string>, now: int, n: nat)
    requires forall id :: id in ids ==> id in records
    requires n <= |ids| && !Sweep(records, ids[..n], now).completed
    ensures Sweep(records, ids, now) == Sweep(records, ids[..n], now)
  {
    if n < |ids| {
      assert ids[..|ids| - 1][..n] == ids[..n];
      SweepStops(records, ids[..|ids| - 1], now, n);
    } else {
      assert ids[..n] == ids;
    }
  }
}
