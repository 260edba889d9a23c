/** runtime/approval.py: the approval record, its transition table and its history. */
module Approvals {
  import opened Common

  type ApprovalId = nat
  type RunId = nat
  type WorkflowRef = nat

  datatype Status = Pending | Approved | Resumed | Denied | Aborted
  datatype State = Requested | Reached(status: Status)
  datatype Actor = System | Operator
  datatype HistoryEntry = HistoryEntry(state: State, actor: Actor)

  /** The fields an approval is granted for; None stands for a field the action leaves open. */
  datatype Action = Action(
    capability: string, tool: Option<string>, path: Option<string>, command: Option<string>, modelAlias: Option<string>)

  datatype Approval = Approval(
    status: Status, action: Action, workflowId: WorkflowRef, requestedRunId: RunId,
    resumedRunId: Option<RunId>, history: seq<HistoryEntry>)

  datatype Result = Ok(approval: Approval) | NotFound | WrongState

  function Transitions(s: Status): set<Status> {
    match s
    case Pending => {Approved, Denied, Aborted}
    case Approved => {Resumed, Aborted}
    case Resumed | Denied | Aborted => {}
  }

  /** Nothing leads on from here. */
  predicate Settled(s: Status) { s.Resumed? || s.Denied? || s.Aborted? }

  function NewApproval(action: Action, workflowId: WorkflowRef, runId: RunId): Approval {
    Approval(Pending, action, workflowId, runId, None,
             [HistoryEntry(Requested, System), HistoryEntry(Reached(Pending), System)])
  }

  function Updated(a: Approval, status: Status, actor: Actor): Result {
    if status !in Transitions(a.status) then WrongState
    else Ok(a.(status := status, history := a.history + [HistoryEntry(Reached(status), actor)]))
  }

  function MarkedResumed(a: Approval, runId: RunId): Result {
    match Updated(a, Resumed, System)
    case Ok(b) => Ok(b.(resumedRunId := Some(runId)))
    case r => r
  }

  // ---------- the history follows the table ----------

  /** From the request on, the history is a path of the transition table that ends at the status. */
  predicate FollowsTable(a: Approval) {
    && |a.history| >= 2
    && a.history[0] == HistoryEntry(Requested, System) && a.history[1] == HistoryEntry(Reached(Pending), System)
    && (forall i :: 0 < i < |a.history| ==> a.history[i].state.Reached?)
    && (forall i :: 0 < i < |a.history| - 1 ==> a.history[i + 1].state.status in Transitions(a.history[i].state.status))
    && a.history[|a.history| - 1].state == Reached(a.status)
  }

  lemma UpdateFollowsTable(a: Approval, status: Status, actor: Actor)
    requires FollowsTable(a)
    ensures match Updated(a, status, actor)
            case Ok(b) => FollowsTable(b) && b.status == status && b.action == a.action
            case _ => status !in Transitions(a.status)
  {
  }

  /** An approval that was resumed has been pending, then approved, then resumed, and nothing else. */
  lemma ResumedWasApproved(a: Approval)
    requires FollowsTable(a) && a.status.Resumed?
    ensures |a.history| == 4
    ensures a.history[1].state == Reached(Pending) && a.history[2].state == Reached(Approved)
    ensures a.history[3].state == Reached(Resumed)
  {
    var n := |a.history|;
    assert n > 2 by { assert a.history[1].state == Reached(Pending); }
    forall i | 0 < i < n - 1 ensures a.history[i].state.status.Pending? || a.history[i].state.status.Approved? {
      assert a.history[i + 1].state.status in Transitions(a.history[i].state.status);
    }
    assert a.history[2].state.status in Transitions(Pending);
    assert n > 3 ==> a.history[3].state.status in Transitions(Approved);
  }

  /** approve, deny and abort are refused exactly once the approval is settled; a settled one stays. */
  lemma SettledStays(a: Approval, status: Status, actor: Actor)
    requires Settled(a.status)
    ensures Updated(a, status, actor) == WrongState
  {
  }

  // ---------- the store ----------

  class ApprovalStore {
    var approvals: map<ApprovalId, Approval>

    constructor ()
      ensures approvals == map[]
    {
      approvals := map[];
    }

    method CreateApproval(newId: ApprovalId, action: Action, workflowId: WorkflowRef, runId: RunId)
      returns (a: Approval)
      requires newId !in approvals
      modifies this
      ensures a == NewApproval(action, workflowId, runId) && approvals == old(approvals)[newId := a]
    {
      a := NewApproval(action, workflowId, runId);
      approvals := approvals[newId := a];
    }

    method UpdateApprovalStatus(id: ApprovalId, status: Status, actor: Actor) returns (r: Result)
      modifies this
      ensures r == if id in old(approvals) then Updated(old(approvals)[id], status, actor) else NotFound
      ensures approvals == if r.Ok? then old(approvals)[id := r.approval] else old(approvals)
    {
      if id !in approvals {
        return NotFound;
      }
      var approval := approvals[id];
      if status !in Transitions(approval.status) {
        return WrongState;
      }
      approval := approval.(status := status);
      approval := approval.(history := approval.history + [HistoryEntry(Reached(status), actor)]);
      approvals := approvals[id := approval];
      r := Ok(approval);
    }

    method MarkApprovalResumed(id: ApprovalId, runId: RunId) returns (r: Result)
      modifies this
      ensures r == if id in old(approvals) then MarkedResumed(old(approvals)[id], runId) else NotFound
      ensures approvals == if r.Ok? then old(approvals)[id := r.approval] else old(approvals)
    {
      r := UpdateApprovalStatus(id, Resumed, System);
      if r.Ok? {
        r := Ok(r.approval.(resumedRunId := Some(runId)));
        approvals := approvals[id := r.approval];
      }
    }
  }
}
