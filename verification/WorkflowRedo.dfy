/** The second life of a workflow whose result was lost at the finish by an error that counts as
    retryable: its action is done again although it is completed. Together with the shape this is all a
    workflow can come to, as long as no run begins on one that failed before its finish. */
module WorkflowRedo {
  import opened Common
  import opened WorkflowSteps
  import opened WorkflowShape

  predicate RedoAtAction(f: Flow)
    requires Layout(f)
  {
    && f.current == ActionStep(f.runType) && f.steps[0].status.Completed?
    && WaitsOver(f, Last(f)) && f.steps[Last(f)].status.InProgress?
  }

  predicate RedoAtWait(f: Flow, s: StepStatus)
    requires Layout(f)
  {
    && |f.steps| > 2 && f.current == f.steps[Last(f) - 1].id && f.steps[Last(f) - 1].status == s
    && f.steps[0].status.Completed?
    && WaitsOver(f, Last(f) - 1) && f.steps[Last(f)].status.InProgress?
  }

  predicate RedoPhase(f: Flow)
    requires Layout(f)
  {
    match f.status
    case Running => RedoAtAction(f)
    case Waiting => RedoAtWait(f, InProgress)
    case Succeeded => false
    case FailedFlow => RedoAtAction(f) || RedoAtWait(f, Failed)
  }

  /** The action is completed and the finish begun, but the workflow is back at its action or behind it. */
  predicate Redo(f: Flow) { Layout(f) && RedoPhase(f) && RetriesNumbered(f) }

  /** In order: in its first or in its second life. */
  predicate Order(f: Flow) { Shape(f) || Redo(f) }

  lemma NotBoth(f: Flow)
    requires Redo(f)
    ensures !Shape(f)
  {
  }

  // ---------- the operations in the second life ----------

  lemma RedoUntouched(f: Flow, g: Flow)
    requires Redo(f) && g.steps == f.steps && g.status == f.status && g.current == f.current && g.runType == f.runType
    requires g.retryState.attemptsUsed == f.retryState.attemptsUsed
    requires g.retryState.retriesRemaining == Max(g.retryPolicy.maxAttempts - g.retryState.attemptsUsed, 0)
    ensures Redo(g)
  {
  }

  lemma RedoCurrentIsFound(f: Flow) returns (k: nat)
    requires Redo(f)
    ensures k < |f.steps| && f.steps[k].id == f.current && Find(f.steps, f.current) == Some(k)
    ensures f.current.ActionStep? ==> f.steps[k].status.Completed?
    ensures f.current.Wait() ==> f.steps[k].status == (if f.status.Waiting? then InProgress else Failed)
    ensures f.current.ActionStep? || f.current.Wait()
  {
    hide RetriesNumbered;
    k := if f.current.ActionStep? then 0 else Last(f) - 1;
    FindInLayout(f, k);
  }

  /** The repeated call leads back to the finish, and to the shape. */
  lemma RedoCompletes(f: Flow)
    requires Redo(f) && f.status.Running?
    ensures MarkActionCompleted(f).Done?
    ensures var g := MarkActionCompleted(f).flow; Shape(g) && g.status.Running? && g.current == FinishStep
  {
    hide RetriesNumbered;
    ActionIsFirst(f);
    var g := f.(current := FinishStep);
    StatusesOnly(f, g);
    assert MarkActionCompleted(f) == Done(g);
  }

  lemma RedoAsks(f: Flow, approval: ApprovalId)
    requires Redo(f) && f.status.Running? && !HasStep(f, ApprovalStep(approval))
    ensures WaitForApproval(f, approval).Done?
    ensures var g := WaitForApproval(f, approval).flow;
            Redo(g) && g.status.Waiting? && g.current == ApprovalStep(approval)
  {
    hide RetriesAmong, InsertedBeforeLast;
    var id := ApprovalStep(approval);
    ActionIsFirst(f);
    var step := Step(id, InProgress, None, None, None);
    var h := f.(steps := InsertedBeforeLast(f.steps, step), status := Waiting, current := id);
    InsertWait(f, step, h);
    assert WaitForApproval(f, approval) == Done(h);
  }

  /** A running workflow past its action schedules its retry in front of a begun finish. */
  lemma RetryPastAction(f: Flow, fault: Fault, now: Time)
    requires (Redo(f) && f.status.Running?) || (Shape(f) && f.status.Running? && f.current == FinishStep)
    requires fault.retryable && CanRetry(f)
    ensures WaitForRetry(f, fault, now).Done?
    ensures var g := WaitForRetry(f, fault, now).flow;
            Redo(g) && g.status.Waiting? && g.current == RetryStep(f.retryState.attemptsUsed + 1)
  {
    hide RetriesAmong, InsertedBeforeLast, RetriesNumbered, Shape, Redo, WaitForRetry, Find, RedoAtWait, WaitsOver;
    PastActionSays(f);
    ActionIsFirst(f);
    var attempt, at := f.retryState.attemptsUsed + 1, now + f.retryPolicy.backoffSeconds;
    var step := Step(RetryStep(attempt), InProgress, Some(at), Some(fault), None);
    NextRetryIsNew(f);
    var h := f.(steps := InsertedBeforeLast(f.steps, step), status := Waiting, current := RetryStep(attempt),
                retryState := RetryState(attempt, Max(f.retryPolicy.maxAttempts - attempt, 0), Some(at), Some(fault)));
    InsertWait(f, step, h);
    RetryInserts(f, fault, now);
    BehindBegunFinish(f, step, h);
    WaitingIsRedo(h);
  }

  lemma BehindBegunFinish(f: Flow, step: Step, h: Flow)
    requires Layout(f) && f.steps[0].status.Completed? && f.steps[Last(f)].status.InProgress? && WaitsOver(f, Last(f))
    requires Layout(h) && |h.steps| == |f.steps| + 1 && h.steps[Last(f)] == step && h.steps[Last(h)] == f.steps[Last(f)]
    requires forall i :: 0 <= i < Last(f) ==> h.steps[i] == f.steps[i]
    requires step.status.InProgress? && h.current == step.id
    ensures RedoAtWait(h, InProgress)
  {
  }

  /** Scheduling a retry while the action does not run. */
  lemma RetryInserts(f: Flow, fault: Fault, now: Time)
    requires fault.retryable && CanRetry(f) && f.status.Running? && BlockAction(f) == Done(f)
    requires Find(f.steps, RetryStep(f.retryState.attemptsUsed + 1)).None?
    ensures var attempt, at := f.retryState.attemptsUsed + 1, now + f.retryPolicy.backoffSeconds;
            WaitForRetry(f, fault, now)
            == Done(f.(steps := InsertedBeforeLast(f.steps,
                                                   Step(RetryStep(attempt), InProgress, Some(at), Some(fault), None)),
                       status := Waiting, current := RetryStep(attempt),
                       retryState := RetryState(attempt, Max(f.retryPolicy.maxAttempts - attempt, 0), Some(at),
                                                Some(fault))))
  {
    hide Find, InsertedBeforeLast, BlockAction;
  }

  lemma PastActionSays(f: Flow)
    requires (Redo(f) && f.status.Running?) || (Shape(f) && f.status.Running? && f.current == FinishStep)
    ensures Layout(f) && RetriesNumbered(f) && f.steps[0].status.Completed? && f.steps[Last(f)].status.InProgress?
    ensures WaitsOver(f, Last(f))
  {
  }

  lemma WaitingIsRedo(f: Flow)
    requires Layout(f) && RetriesNumbered(f) && f.status.Waiting? && RedoAtWait(f, InProgress)
    ensures Redo(f)
  {
  }

  lemma RedoResumesApproval(f: Flow, approval: ApprovalId)
    requires Redo(f) && f.status.Waiting? && f.current == ApprovalStep(approval)
    ensures ResumeFromApproval(f, approval).Done?
    ensures var g := ResumeFromApproval(f, approval).flow; Redo(g) && g.status.Running? && g.current.ActionStep?
  {
    hide RetriesNumbered;
    ActionIsFirst(f);
    FindInLayout(f, Last(f) - 1);
    var g := WithStep(f, Last(f) - 1, f.steps[Last(f) - 1].(status := Completed))
             .(status := Running, current := ActionStep(f.runType));
    StatusesOnly(f, g);
    ActionIsFirst(g);
    assert ResumeFromApproval(f, approval) == Done(g);
  }

  lemma RedoResumesRetry(f: Flow)
    requires Redo(f) && f.status.Waiting? && f.current.RetryStep?
    ensures ResumeFromRetry(f).Done?
    ensures var g := ResumeFromRetry(f).flow; Redo(g) && g.status.Running? && g.current.ActionStep?
  {
    hide RetriesNumbered;
    ActionIsFirst(f);
    FindInLayout(f, Last(f) - 1);
    var g := WithStep(f, Last(f) - 1, f.steps[Last(f) - 1].(status := Completed))
             .(status := Running, current := ActionStep(f.runType), retryState := f.retryState.(nextRetryAt := None));
    StatusesOnly(f, g);
    ActionIsFirst(g);
    assert ResumeFromRetry(f) == Done(g);
  }

  lemma RedoFails(f: Flow, fault: Fault)
    requires Redo(f)
    ensures FailWorkflow(f, fault).Done?
    ensures var g := FailWorkflow(f, fault).flow;
            Redo(g) && g.status.FailedFlow? && (f.status.Terminal() ==> g == f)
  {
    hide RetriesNumbered;
    var k := RedoCurrentIsFound(f);
    if !f.status.Terminal() {
      var h := if f.current.ActionStep? then f
               else WithStep(f, k, f.steps[k].(status := Failed, error := Some(fault)));
      var g := h.(status := FailedFlow);
      StatusesOnly(f, g);
      assert FailWorkflow(f, fault) == Done(g);
      assert RedoPhase(g);
    }
  }

  // ---------- the operations in order ----------

  lemma OrderUntouched(f: Flow, g: Flow)
    requires Order(f) && g.steps == f.steps && g.status == f.status && g.current == f.current && g.runType == f.runType
    requires g.retryState.attemptsUsed == f.retryState.attemptsUsed
    requires g.retryState.retriesRemaining == Max(g.retryPolicy.maxAttempts - g.retryState.attemptsUsed, 0)
    ensures Order(g) && (Shape(g) <==> Shape(f))
  {
    hide Shape, Redo;
    if Shape(f) {
      StepsUntouched(f, g);
    } else {
      RedoUntouched(f, g);
      NotBoth(g);
    }
  }

  /** Where a workflow in order stands. */
  lemma OrderPlace(f: Flow)
    requires Order(f)
    ensures Find(f.steps, f.current).Some? && HasStep(f, f.current)
    ensures f.status.Running? ==> f.current.ActionStep? || f.current.FinishStep?
    ensures f.status.Waiting? ==> f.current.Wait()
    ensures f.status.Succeeded? ==> f.current.FinishStep?
  {
    hide RetriesNumbered;
    if Shape(f) {
      var k := CurrentIsFound(f);
    } else {
      var k := RedoCurrentIsFound(f);
    }
  }

  lemma OrderCompletes(f: Flow)
    requires Order(f) && f.status.Running? && f.current.ActionStep?
    ensures MarkActionCompleted(f).Done?
    ensures var g := MarkActionCompleted(f).flow; Shape(g) && g.status.Running? && g.current == FinishStep
  {
    hide Shape, Redo, MarkActionCompleted;
    if Shape(f) { MarkActionCompletedMoves(f); } else { RedoCompletes(f); }
  }

  lemma OrderAtFinish(f: Flow)
    requires Order(f) && f.current == FinishStep
    ensures Shape(f)
  {
  }

  lemma OrderAsks(f: Flow, approval: ApprovalId)
    requires Order(f) && f.status.Running? && f.current.ActionStep? && !HasStep(f, ApprovalStep(approval))
    ensures WaitForApproval(f, approval).Done?
    ensures var g := WaitForApproval(f, approval).flow;
            Order(g) && (Shape(g) <==> Shape(f)) && g.status.Waiting? && g.current == ApprovalStep(approval)
  {
    hide Shape, Redo, WaitForApproval, HasStep;
    if Shape(f) {
      WaitForNewApproval(f, approval);
    } else {
      RedoAsks(f, approval);
      NotBoth(WaitForApproval(f, approval).flow);
    }
  }

  /** While it runs, a workflow in order accepts a retry exactly under the guard of can_schedule_retry;
      scheduled at the finish, the retry begins a second life. */
  lemma OrderRetries(f: Flow, fault: Fault, now: Time)
    requires Order(f) && f.status.Running?
    ensures WaitForRetry(f, fault, now).Done? <==>
              fault.retryable && f.retryPolicy.maxAttempts > 0 && f.retryState.retriesRemaining > 0
    ensures var g := WaitForRetry(f, fault, now).flow;
            Order(g) && if WaitForRetry(f, fault, now).Done?
                        then g.status.Waiting? && g.current == RetryStep(f.retryState.attemptsUsed + 1)
                             && (Shape(g) <==> Shape(f) && f.current.ActionStep?)
                        else g == f
  {
    hide Shape, Redo, RetriesAmong;
    OrderPlace(f);
    BudgetLeft(f);
    if Shape(f) && f.current.ActionStep? {
      WaitForRetryMoves(f, fault, now);
    } else if fault.retryable && CanRetry(f) {
      hide WaitForRetry;
      RetryPastAction(f, fault, now);
      NotBoth(WaitForRetry(f, fault, now).flow);
    }
  }

  lemma BudgetLeft(f: Flow)
    requires Order(f)
    ensures CanRetry(f) <==> f.retryPolicy.maxAttempts > 0 && f.retryState.retriesRemaining > 0
  {
  }

  lemma OrderResumesApproval(f: Flow, approval: ApprovalId)
    requires Order(f) && f.status.Waiting? && f.current == ApprovalStep(approval)
    ensures ResumeFromApproval(f, approval).Done?
    ensures var g := ResumeFromApproval(f, approval).flow;
            Order(g) && (Shape(g) <==> Shape(f)) && g.status.Running? && g.current.ActionStep?
  {
    hide Shape, Redo, ResumeFromApproval;
    if Shape(f) {
      ResumeFromApprovalMoves(f, approval);
    } else {
      RedoResumesApproval(f, approval);
      NotBoth(ResumeFromApproval(f, approval).flow);
    }
  }

  lemma OrderResumesRetry(f: Flow)
    requires Order(f) && f.status.Waiting? && f.current.RetryStep?
    ensures ResumeFromRetry(f).Done?
    ensures var g := ResumeFromRetry(f).flow;
            Order(g) && (Shape(g) <==> Shape(f)) && g.status.Running? && g.current.ActionStep?
  {
    hide Shape, Redo, ResumeFromRetry;
    if Shape(f) {
      ResumeFromRetryMoves(f);
    } else {
      RedoResumesRetry(f);
      NotBoth(ResumeFromRetry(f).flow);
    }
  }

  lemma OrderFails(f: Flow, fault: Fault)
    requires Order(f)
    ensures FailWorkflow(f, fault).Done?
    ensures var g := FailWorkflow(f, fault).flow;
            Order(g) && (Shape(g) <==> Shape(f)) && (if f.status.Terminal() then g == f else g.status.FailedFlow?)
  {
    hide Shape, Redo, FailWorkflow;
    if Shape(f) {
      FailWorkflowMoves(f, fault);
    } else {
      RedoFails(f, fault);
      NotBoth(FailWorkflow(f, fault).flow);
      RedoHasNotSucceeded(f);
    }
  }

  lemma RedoHasNotSucceeded(f: Flow)
    requires Redo(f)
    ensures !f.status.Succeeded? && !f.current.FinishStep?
  {
  }
}
