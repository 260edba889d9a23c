/** The ids of a workflow's steps, and what the operations do to them. */
module WorkflowIds {
  import opened Common
  import opened WorkflowSteps

  function Ids(steps: seq<Step>): set<StepId> { set s | s in steps :: s.id }

  lemma SameIds(steps: seq<Step>, i: nat, step: Step)
    requires i < |steps| && step.id == steps[i].id
    ensures Ids(steps[i := step]) == Ids(steps)
  {
    var t := steps[i := step];
    forall s | s in steps ensures s.id in Ids(t) {
      var k :| 0 <= k < |steps| && steps[k] == s;
      assert t[k] in t;
    }
    forall s | s in t ensures s.id in Ids(steps) {
      var k :| 0 <= k < |t| && t[k] == s;
      assert steps[k] in steps;
    }
  }

  predicate StepReplaced(f: Flow, i: nat, step: Step, g: Flow)
    requires i < |f.steps|
  {
    Ids(g.steps) == Ids(f.steps) && g.workflowId == f.workflowId && |g.steps| == |f.steps| && g.steps[i] == step
  }

  lemma StepsKeepIds()
    ensures forall f: Flow, i: nat, step: Step {:trigger WithStep(f, i, step)} ::
              i < |f.steps| && step.id == f.steps[i].id ==> StepReplaced(f, i, step, WithStep(f, i, step))
  {
    forall f: Flow, i: nat, step: Step | i < |f.steps| && step.id == f.steps[i].id
      ensures StepReplaced(f, i, step, WithStep(f, i, step))
    {
      SameIds(f.steps, i, step);
    }
  }

  lemma InsertAddsId()
    ensures forall steps, step {:trigger InsertedBeforeLast(steps, step)} ::
              Ids(InsertedBeforeLast(steps, step)) == Ids(steps) + {step.id}
  {
    forall steps, step ensures Ids(InsertedBeforeLast(steps, step)) == Ids(steps) + {step.id} {
      if steps == [] {
        assert Ids([step]) == {step.id};
      } else {
        var n := |steps| - 1;
        assert steps == steps[..n] + [steps[n]];
        IdsOfConcat(steps[..n], [steps[n]]);
        IdsOfConcat(steps[..n], [step]);
        IdsOfConcat(steps[..n] + [step], [steps[n]]);
        assert Ids([step]) == {step.id};
      }
    }
  }

  lemma IdsOfConcat(a: seq<Step>, b: seq<Step>)
    ensures Ids(a + b) == Ids(a) + Ids(b)
  {
    forall s | s in a || s in b ensures s in a + b {}
  }

  /** `g` is the same workflow with the same steps. */
  predicate KeepsIds(f: Flow, g: Flow) { Ids(g.steps) == Ids(f.steps) && g.workflowId == f.workflowId }

  lemma ResumesKeepIds(f: Flow, id: ApprovalId)
    ensures KeepsIds(f, ResumeFromApproval(f, id).flow) && KeepsIds(f, ResumeFromRetry(f).flow)
  {
    hide Find, WithStep, Ids, LeaveWait;
    StepsKeepIds();
    LeavingKeepsIds(CompleteWait(f, ApprovalStep(id)).flow);
    LeavingKeepsIds(CompleteWait(f, f.current).flow);
  }

  lemma LeavingKeepsIds(f: Flow)
    ensures KeepsIds(f, LeaveWait(f).flow)
  {
    hide Find, WithStep, Ids;
    StepsKeepIds();
  }

  lemma EndingsKeepIds(f: Flow, fault: Fault)
    ensures KeepsIds(f, MarkActionCompleted(f).flow)
    ensures KeepsIds(f, CompleteFinishStep(f).flow)
    ensures KeepsIds(f, FailWorkflow(f, fault).flow)
  {
    hide Find, WithStep, Ids, MarkActionCompleted, CompleteFinishStep;
    StepsKeepIds();
    ActionEndKeepsIds(f);
    FinishKeepsIds(f);
  }

  lemma ActionEndKeepsIds(f: Flow)
    ensures KeepsIds(f, MarkActionCompleted(f).flow)
  {
    hide Find, WithStep, Ids;
    StepsKeepIds();
  }

  lemma FinishKeepsIds(f: Flow)
    ensures KeepsIds(f, CompleteFinishStep(f).flow)
  {
    hide Find, WithStep, Ids;
    StepsKeepIds();
  }

  lemma WaitsAddTheirId(f: Flow, id: ApprovalId, fault: Fault, now: Time)
    ensures var g := WaitForApproval(f, id).flow;
            Ids(g.steps) <= Ids(f.steps) + {ApprovalStep(id)} && g.workflowId == f.workflowId
    ensures var g := WaitForRetry(f, fault, now).flow;
            g.workflowId == f.workflowId
            && forall s: StepId :: s in Ids(g.steps) && s.ApprovalStep? ==> s in Ids(f.steps)
  {
    hide Find, WithStep, Ids, InsertedBeforeLast;
    StepsKeepIds();
    InsertAddsId();
  }

  // ---------- what the operations leave alone ----------

  /** Everything but the status, the current step, the steps and the retry state. */
  predicate SameBelongings(f: Flow, g: Flow) {
    && g.workflowId == f.workflowId && g.latestRunId == f.latestRunId && g.runType == f.runType
    && g.children == f.children && g.artifacts == f.artifacts && g.memories == f.memories
    && g.retryPolicy == f.retryPolicy
  }

  predicate SameRetries(f: Flow, g: Flow) { SameBelongings(f, g) && g.retryState == f.retryState }

  /** The operations touch nothing that is not theirs. */
  lemma OperationsTouchOnlyTheirs(f: Flow, id: ApprovalId, fault: Fault)
    ensures SameRetries(f, MarkActionCompleted(f).flow) && SameRetries(f, CompleteFinishStep(f).flow)
    ensures SameRetries(f, FailWorkflow(f, fault).flow)
    ensures SameRetries(f, WaitForApproval(f, id).flow) && SameRetries(f, ResumeFromApproval(f, id).flow)
  {
    hide WaitForApproval, ResumeFromApproval, Find, StartStep, MarkActionCompleted;
    PartsTouchOnlyTheirs();
    WaitsTouchOnlyTheirs(f, id);
    ActionEndTouchesOnlyIts(f);
  }

  lemma ActionEndTouchesOnlyIts(f: Flow)
    ensures SameRetries(f, MarkActionCompleted(f).flow)
  {
    hide Find, StartStep;
    PartsTouchOnlyTheirs();
  }

  lemma WaitsTouchOnlyTheirs(f: Flow, id: ApprovalId)
    ensures SameRetries(f, WaitForApproval(f, id).flow) && SameRetries(f, ResumeFromApproval(f, id).flow)
  {
    hide Find, InsertedBeforeLast, BlockAction, EnterWait, LeaveWait, CompleteWait, StartStep, WithRetryStep;
    PartsTouchOnlyTheirs();
  }

  /** The retry operations touch the retry state too, and in this way only. */
  lemma RetriesTouchOnlyTheirs(f: Flow, fault: Fault, now: Time)
    ensures SameBelongings(f, ResumeFromRetry(f).flow) && SameBelongings(f, WaitForRetry(f, fault, now).flow)
    ensures var g := ResumeFromRetry(f);
            g.flow.retryState == (if g.Done? then f.retryState.(nextRetryAt := None) else f.retryState)
    ensures WaitForRetry(f, fault, now).Done? ==>
              WaitForRetry(f, fault, now).flow.retryState
              == RetryState(f.retryState.attemptsUsed + 1,
                            Max(f.retryPolicy.maxAttempts - f.retryState.attemptsUsed - 1, 0),
                            Some(now + f.retryPolicy.backoffSeconds), Some(fault))
  {
    hide Find, InsertedBeforeLast, BlockAction, EnterWait, LeaveWait, CompleteWait, StartStep, WithRetryStep;
    PartsTouchOnlyTheirs();
  }

  lemma PartsTouchOnlyTheirs()
    ensures forall f {:trigger BlockAction(f)} :: SameRetries(f, BlockAction(f).flow)
    ensures forall f {:trigger LeaveWait(f)} :: SameRetries(f, LeaveWait(f).flow)
    ensures forall f, id {:trigger EnterWait(f, id)} :: SameRetries(f, EnterWait(f, id).flow)
    ensures forall f, id {:trigger CompleteWait(f, id)} :: SameRetries(f, CompleteWait(f, id).flow)
    ensures forall f: Flow, k: nat {:trigger StartStep(f, k)} :: k < |f.steps| ==>
              SameRetries(f, StartStep(f, k).flow) && |StartStep(f, k).flow.steps| == |f.steps|
    ensures forall f, k: nat, at, fault {:trigger WithRetryStep(f, k, at, fault)} ::
              SameRetries(f, WithRetryStep(f, k, at, fault))
  {
    hide Find, InsertedBeforeLast;
  }

  // ---------- the current step and the status ----------

  /** A terminal status stays, an open one stays open. */
  predicate StaysOpen(f: Flow, g: Flow) { if f.status.Terminal() then g.status == f.status else !g.status.Terminal() }

  /** A wait or a resume that returns moves to its own step; one that raises stays where it was. None
      opens or closes a workflow. */
  lemma WaitsMove(f: Flow, id: ApprovalId)
    ensures WaitForApproval(f, id).flow.current
            == (if WaitForApproval(f, id).Done? then ApprovalStep(id) else f.current)
    ensures StaysOpen(f, WaitForApproval(f, id).flow)
  {
    hide Find, InsertedBeforeLast, BlockAction, CompleteWait, LeaveWait, StartStep, WithRetryStep;
    PartsMove();
  }

  lemma RetriesMove(f: Flow, fault: Fault, now: Time)
    ensures var r := WaitForRetry(f, fault, now);
            r.flow.current == (if r.Done? then RetryStep(f.retryState.attemptsUsed + 1) else f.current)
            && StaysOpen(f, r.flow)
  {
    hide Find, InsertedBeforeLast, BlockAction, CompleteWait, LeaveWait, StartStep, WithRetryStep;
    PartsMove();
  }

  lemma ResumesMove(f: Flow, id: ApprovalId)
    ensures ResumeFromApproval(f, id).flow.current
            == (if ResumeFromApproval(f, id).Done? then ActionStep(f.runType) else f.current)
    ensures ResumeFromRetry(f).flow.current == (if ResumeFromRetry(f).Done? then ActionStep(f.runType) else f.current)
    ensures StaysOpen(f, ResumeFromApproval(f, id).flow) && StaysOpen(f, ResumeFromRetry(f).flow)
  {
    hide Find, InsertedBeforeLast, BlockAction, CompleteWait, LeaveWait, StartStep, WithRetryStep;
    PartsMove();
  }

  lemma ActionEndMoves(f: Flow)
    ensures MarkActionCompleted(f).flow.current == (if MarkActionCompleted(f).Done? then FinishStep else f.current)
    ensures MarkActionCompleted(f).flow.status == f.status
  {
    hide Find, InsertedBeforeLast, BlockAction, CompleteWait, LeaveWait, StartStep, WithRetryStep;
    PartsMove();
  }

  lemma FinishMoves(f: Flow)
    ensures CompleteFinishStep(f).flow.current == (if CompleteFinishStep(f).Done? then FinishStep else f.current)
    ensures CompleteFinishStep(f).flow.status == (if CompleteFinishStep(f).Done? then Succeeded else f.status)
    ensures CompleteFinishStep(f).Done? ==> !f.status.FailedFlow?
  {
    hide Find, InsertedBeforeLast, BlockAction, CompleteWait, LeaveWait, StartStep, WithRetryStep;
    PartsMove();
  }

  lemma FailureMoves(f: Flow, fault: Fault)
    ensures FailWorkflow(f, fault).flow.current == f.current
    ensures FailWorkflow(f, fault).flow.status
         == (if FailWorkflow(f, fault).Done? && !f.status.Terminal() then FailedFlow else f.status)
  {
    hide Find;
  }

  lemma PartsMove()
    ensures forall f {:trigger BlockAction(f)} ::
              var g := BlockAction(f).flow;
              g.current == f.current && g.status == f.status && g.retryState == f.retryState
    ensures forall f {:trigger LeaveWait(f)} ::
              var g := LeaveWait(f).flow;
              g.current == (if LeaveWait(f).Done? then ActionStep(f.runType) else f.current) && g.runType == f.runType
              && (g.status == f.status || (f.status.Waiting? && g.status.Running?))
    ensures forall f, id {:trigger CompleteWait(f, id)} ::
              var g := CompleteWait(f, id).flow;
              g.current == f.current && g.status == f.status && g.runType == f.runType
    ensures forall f: Flow, k: nat {:trigger StartStep(f, k)} :: k < |f.steps| ==>
              var g := StartStep(f, k).flow; g.current == f.current && g.status == f.status && |g.steps| == |f.steps|
    ensures forall f, k: nat, at, fault {:trigger WithRetryStep(f, k, at, fault)} ::
              var g := WithRetryStep(f, k, at, fault); g.current == f.current && g.status == f.status
  {
    hide Find, InsertedBeforeLast;
  }
}
