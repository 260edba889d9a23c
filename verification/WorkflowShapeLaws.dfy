/** For every operation and every shaped workflow, exactly when the operation keeps the shape: conditions
    on the status, the current step and whether the step waited for is already there. */
module WorkflowShapeLaws {
  import opened Common
  import opened WorkflowSteps
  import opened WorkflowShape

  // ---------- how a shape is lost ----------

  /** While it is not the current one, a step in progress betrays a broken shape. */
  lemma StrayStepHasNoShape(f: Flow, i: nat)
    requires i < |f.steps| && f.steps[i].status.InProgress? && (f.status.Terminal() || f.steps[i].id != f.current)
    ensures !Shape(f)
  {
    hide RetriesNumbered;
    if Shape(f) { OneStepInProgress(f, i); }
  }

  /** The current step's status and the action's are what the workflow's status says. */
  lemma ShapeSays(f: Flow)
    requires Shape(f)
    ensures Layout(f) && RetriesNumbered(f)
    ensures f.status.Running? ==> AtAction(f, InProgress) || AtFinish(f, InProgress)
    ensures f.status.Waiting? ==> AtWait(f, InProgress)
    ensures f.status.Succeeded? ==> AtFinish(f, Completed)
    ensures f.status.FailedFlow? ==> AtAction(f, Failed) || AtWait(f, Failed) || AtFinish(f, Failed)
  {
  }

  lemma Places(f: Flow)
    requires Layout(f)
    ensures forall s :: AtAction(f, s) ==> f.current.ActionStep?
    ensures forall s :: AtWait(f, s) ==> f.current.Wait()
    ensures forall s :: AtFinish(f, s) ==> f.current.FinishStep?
  {
  }

  lemma FinishedWaits(f: Flow, i: nat)
    requires Shape(f) && i < |f.steps| && f.steps[i].id.Wait() && f.steps[i].id != f.current
    ensures f.steps[i].status.Completed?
  {
    hide RetriesNumbered;
    assert 0 < i < Last(f);
  }

  // ---------- resuming from an approval ----------

  lemma ResumingElsewhere(f: Flow, approval: ApprovalId)
    requires Shape(f) && HasStep(f, ApprovalStep(approval)) && f.current != ApprovalStep(approval)
    requires !f.current.ActionStep?
    ensures !Shape(ResumeFromApproval(f, approval).flow)
  {
    hide RetriesNumbered, HasStep;
    ShapeSays(f);
    ActionIsFirst(f);
    var k := StepAt(f, ApprovalStep(approval));
    FinishedWaits(f, k);
    var g := ResumeFromApproval(f, approval).flow;
    assert g.current.ActionStep? && |g.steps| == |f.steps| && g.steps[Last(f)] == f.steps[Last(f)];
    if f.status.Waiting? {
      assert g.steps[Last(f) - 1] == f.steps[Last(f) - 1];
      StrayStepHasNoShape(g, Last(f) - 1);
    } else {
      NoActionPlace(g);
    }
  }

  lemma StepAt(f: Flow, id: StepId) returns (k: nat)
    requires Layout(f) && HasStep(f, id)
    ensures k < |f.steps| && f.steps[k].id == id && Find(f.steps, id) == Some(k)
  {
    k :| k < |f.steps| && f.steps[k].id == id;
    FindInLayout(f, k);
  }

  /** At its action a shaped workflow is running or failed, with the finish pending. */
  lemma NoActionPlace(f: Flow)
    requires |f.steps| >= 2 && f.current.ActionStep?
    requires !f.steps[|f.steps| - 1].status.Pending? || !(f.steps[0].status.InProgress? || f.steps[0].status.Failed?)
             || (f.status.FailedFlow? && !f.steps[0].status.Failed?)
    ensures !Shape(f)
  {
  }

  lemma ResumingAtAction(f: Flow, approval: ApprovalId)
    requires Shape(f) && f.current.ActionStep?
    ensures ResumeFromApproval(f, approval).flow == f
  {
    hide RetriesNumbered;
    ShapeSays(f);
    Places(f);
    ActionIsFirst(f);
    if Find(f.steps, ApprovalStep(approval)).Some? {
      FinishedWaits(f, Find(f.steps, ApprovalStep(approval)).value);
    }
  }

  lemma UnknownApproval(f: Flow, approval: ApprovalId)
    requires !HasStep(f, ApprovalStep(approval))
    ensures ResumeFromApproval(f, approval) == Raised(f, UnknownStep)
    ensures Find(f.steps, ApprovalStep(approval)).None?
  {
  }

  lemma ResumingFailedWait(f: Flow, approval: ApprovalId)
    requires Shape(f) && f.status.FailedFlow? && f.current == ApprovalStep(approval)
    ensures !Shape(ResumeFromApproval(f, approval).flow)
  {
    hide Shape;
    ResumingAFailedWaitBreaksShape(f, approval);
  }

  /** Resuming from an approval keeps the shape exactly when the workflow does not know the approval, is at
      its action, or is waiting for this approval. */
  lemma ResumeFromApprovalLaw(f: Flow, approval: ApprovalId)
    requires Shape(f)
    ensures Shape(ResumeFromApproval(f, approval).flow) <==>
              !HasStep(f, ApprovalStep(approval)) || f.current.ActionStep?
              || (f.status.Waiting? && f.current == ApprovalStep(approval))
  {
    hide ResumeFromApproval, HasStep, Layout, RetriesNumbered;
    ShapeSays(f);
    Places(f);
    if !HasStep(f, ApprovalStep(approval)) {
      UnknownApproval(f, approval);
    } else if f.current.ActionStep? {
      ResumingAtAction(f, approval);
    } else if f.current != ApprovalStep(approval) {
      ResumingElsewhere(f, approval);
    } else if f.status.Waiting? {
      ResumeFromApprovalMoves(f, approval);
    } else {
      ResumingFailedWait(f, approval);
    }
  }

  // ---------- resuming from a retry ----------

  lemma NotAtRetry(f: Flow)
    requires Shape(f) && !f.current.RetryStep?
    ensures ResumeFromRetry(f).flow == f
  {
  }

  lemma ResumingUnblocks(f: Flow, k: nat)
    requires f.status.FailedFlow? && f.current.RetryStep? && Find(f.steps, f.current) == Some(k)
    requires k < |f.steps| && f.steps[k].status.Failed? && Action(f) == Some(0) && f.steps[0].status.Blocked?
    ensures var g := ResumeFromRetry(f).flow;
            g.status.FailedFlow? && |g.steps| == |f.steps| && g.steps[0].status.InProgress?
  {
    hide Find;
  }

  lemma ResumingFailedRetry(f: Flow)
    requires Shape(f) && f.status.FailedFlow? && f.current.RetryStep?
    ensures !Shape(ResumeFromRetry(f).flow)
  {
    hide RetriesNumbered, ResumeFromRetry, Find;
    ActionIsFirst(f);
    FindInLayout(f, Last(f) - 1);
    ResumingUnblocks(f, Last(f) - 1);
    StrayStepHasNoShape(ResumeFromRetry(f).flow, 0);
  }

  /** Resuming from a retry keeps the shape exactly when the workflow has not failed at a retry. */
  lemma ResumeFromRetryLaw(f: Flow)
    requires Shape(f)
    ensures Shape(ResumeFromRetry(f).flow) <==> !(f.status.FailedFlow? && f.current.RetryStep?)
  {
    hide ResumeFromRetry, Layout, RetriesNumbered;
    ShapeSays(f);
    Places(f);
    if !f.current.RetryStep? {
      NotAtRetry(f);
    } else if f.status.FailedFlow? {
      ResumingFailedRetry(f);
    } else {
      ResumeFromRetryMoves(f);
    }
  }

  // ---------- completing the action and the finish ----------

  lemma CompletingElsewhere(f: Flow)
    requires Shape(f) && !f.status.Running? && !f.current.Wait()
    ensures MarkActionCompleted(f).flow == f
  {
    hide RetriesNumbered;
    ActionIsFirst(f);
    assert f.steps[0 := f.steps[0]] == f.steps;
  }

  lemma CompletingAtFinish(f: Flow)
    requires Shape(f) && f.status.Running? && f.current.FinishStep?
    ensures MarkActionCompleted(f).flow == f
  {
    hide RetriesNumbered;
    ActionIsFirst(f);
  }

  lemma WaitingIsAtWait(f: Flow)
    requires Shape(f)
    ensures f.status.Waiting? ==> f.current.Wait()
    ensures f.steps[Last(f)].status.Completed? ==> f.steps[0].status.Completed?
  {
  }

  lemma CompletingAtWait(f: Flow)
    requires Shape(f) && f.current.Wait()
    ensures !Shape(MarkActionCompleted(f).flow)
  {
    hide RetriesNumbered;
    ActionIsFirst(f);
    var g := WithStep(f, 0, f.steps[0].(status := Completed));
    SameIdsSameLayout(f, g);
    ActionIsFirst(g);
    var h := MarkActionCompleted(f).flow;
    assert h.steps[Last(f)].status.InProgress? && |h.steps| == |f.steps|;
    assert h.current == FinishStep && h.status == f.status;
    if f.status.FailedFlow? {
      StrayStepHasNoShape(h, Last(f));
    } else {
      if Shape(h) { WaitingIsAtWait(h); }
    }
  }

  /** Completing the action keeps the shape exactly when the workflow is not at a wait. */
  lemma MarkActionCompletedLaw(f: Flow)
    requires Shape(f)
    ensures Shape(MarkActionCompleted(f).flow) <==> !f.current.Wait()
  {
    hide MarkActionCompleted, Layout, RetriesNumbered;
    ShapeSays(f);
    Places(f);
    if f.current.Wait() {
      CompletingAtWait(f);
    } else if !f.status.Running? {
      CompletingElsewhere(f);
    } else if f.current.FinishStep? {
      CompletingAtFinish(f);
    } else {
      MarkActionCompletedMoves(f);
    }
  }

  lemma FinishingStarts(f: Flow)
    requires Layout(f) && f.steps[Last(f)].status.Pending?
    ensures var h := CompleteFinishStep(f).flow;
            |h.steps| == |f.steps| && h.steps[Last(f)].status.Completed? && h.steps[0] == f.steps[0]
  {
    hide Layout, Find;
    assert |f.steps| >= 2 by { LayoutIsLong(f); }
    ActionIsFirst(f);
  }

  lemma FinishingEarly(f: Flow)
    requires Shape(f) && !f.current.FinishStep?
    ensures !Shape(CompleteFinishStep(f).flow)
  {
    hide RetriesNumbered, CompleteFinishStep, Layout, WaitsOver;
    assert |f.steps| >= 2 by { LayoutIsLong(f); }
    FinishingStarts(f);
    var h := CompleteFinishStep(f).flow;
    if Shape(h) { WaitingIsAtWait(h); }
  }

  lemma FinishingFailed(f: Flow)
    requires Shape(f) && f.status.FailedFlow? && f.current.FinishStep?
    ensures CompleteFinishStep(f).flow == f
  {
    hide RetriesNumbered;
    ActionIsFirst(f);
  }

  /** Completing the finish keeps the shape exactly when the workflow is at its finish. */
  lemma CompleteFinishLaw(f: Flow)
    requires Shape(f)
    ensures Shape(CompleteFinishStep(f).flow) <==> f.current.FinishStep?
  {
    hide CompleteFinishStep, Layout, RetriesNumbered;
    if !f.current.FinishStep? {
      FinishingEarly(f);
    } else if f.status.FailedFlow? {
      FinishingFailed(f);
    } else {
      CompleteFinishMoves(f);
    }
  }

  // ---------- waiting for an approval ----------

  lemma ActionNotRunning(f: Flow)
    requires Shape(f) && !(f.status.Running? && f.current.ActionStep?)
    ensures BlockAction(f) == Done(f)
  {
    hide RetriesNumbered;
    ActionIsFirst(f);
  }

  lemma AwaitingKnown(f: Flow, approval: ApprovalId)
    requires Shape(f) && HasStep(f, ApprovalStep(approval)) && !(f.status.Running? && f.current.ActionStep?)
    ensures Shape(WaitForApproval(f, approval).flow) <==> f.status.Terminal() || f.current == ApprovalStep(approval)
  {
    hide BlockAction, HasStep, RetriesNumbered;
    ActionNotRunning(f);
    ShapeSays(f);
    var k := StepAt(f, ApprovalStep(approval));
    var g := WaitForApproval(f, approval).flow;
    if !f.status.Terminal() && f.current != ApprovalStep(approval) {
      FinishedWaits(f, k);
      CompletedCurrentHasNoShape(g, k);
    }
  }

  /** A step inserted where nothing may be inserted leaves a stray step in progress. */
  lemma InsertedAstray(f: Flow, step: Step, g: Flow)
    requires Shape(f) && !(f.status.Running? && f.current.ActionStep?) && step.status.InProgress? && step.id.Wait()
    requires forall i :: 0 <= i < |f.steps| ==> f.steps[i].id != step.id
    requires g.steps == InsertedBeforeLast(f.steps, step)
    requires if f.status.Terminal() then g.status == f.status else g.current == step.id
    ensures !Shape(g)
  {
    hide RetriesNumbered, InsertedBeforeLast, Shape;
    ShapeSays(f);
    InsertedAt(f.steps, step);
    var n := Last(f);
    if f.status.Terminal() {
      StrayStepHasNoShape(g, n);
    } else if f.status.Waiting? {
      assert g.steps[n - 1] == f.steps[n - 1];
      StrayStepHasNoShape(g, n - 1);
    } else {
      Places(f);
      StrayStepHasNoShape(g, n + 1);
    }
  }

  lemma AwaitingNew(f: Flow, approval: ApprovalId)
    requires Shape(f) && !HasStep(f, ApprovalStep(approval)) && !(f.status.Running? && f.current.ActionStep?)
    ensures !Shape(WaitForApproval(f, approval).flow)
  {
    hide BlockAction, Shape, InsertedBeforeLast;
    ActionNotRunning(f);
    UnknownApproval(f, approval);
    var id := ApprovalStep(approval);
    InsertedAstray(f, Step(id, InProgress, None, None, None), WaitForApproval(f, approval).flow);
  }

  /** Waiting for an approval keeps the shape exactly when the approval is new and the action is running, or
      it is known and the workflow has ended or already waits for it. */
  lemma WaitForApprovalLaw(f: Flow, approval: ApprovalId)
    requires Shape(f)
    ensures Shape(WaitForApproval(f, approval).flow) <==>
              if HasStep(f, ApprovalStep(approval)) then f.status.Terminal() || f.current == ApprovalStep(approval)
              else f.status.Running? && f.current.ActionStep?
  {
    hide WaitForApproval, HasStep, Shape;
    if f.status.Running? && f.current.ActionStep? {
      WaitForApprovalMoves(f, approval);
    } else if HasStep(f, ApprovalStep(approval)) {
      AwaitingKnown(f, approval);
    } else {
      AwaitingNew(f, approval);
    }
  }

  // ---------- waiting for a retry ----------

  lemma RetryRefused(f: Flow, fault: Fault, now: Time)
    requires !(fault.retryable && CanRetry(f))
    ensures WaitForRetry(f, fault, now).flow == f
  {
  }

  lemma RetryingAstray(f: Flow, fault: Fault, now: Time)
    requires Shape(f) && fault.retryable && CanRetry(f) && !(f.status.Running? && f.current.ActionStep?)
    ensures !Shape(WaitForRetry(f, fault, now).flow)
  {
    hide BlockAction, Shape, InsertedBeforeLast, RetriesNumbered, Layout, Find;
    ActionNotRunning(f);
    ShapeSays(f);
    NextRetryIsNew(f);
    var attempt, at := f.retryState.attemptsUsed + 1, now + f.retryPolicy.backoffSeconds;
    InsertedAstray(f, Step(RetryStep(attempt), InProgress, Some(at), Some(fault), None),
                   WaitForRetry(f, fault, now).flow);
  }

  /** Scheduling a retry keeps the shape exactly when it is refused or the action is running. */
  lemma WaitForRetryLaw(f: Flow, fault: Fault, now: Time)
    requires Shape(f)
    ensures Shape(WaitForRetry(f, fault, now).flow) <==>
              !(fault.retryable && CanRetry(f)) || (f.status.Running? && f.current.ActionStep?)
  {
    hide WaitForRetry, Shape;
    if !(fault.retryable && CanRetry(f)) {
      RetryRefused(f, fault, now);
    } else if f.status.Running? && f.current.ActionStep? {
      WaitForRetryMoves(f, fault, now);
    } else {
      RetryingAstray(f, fault, now);
    }
  }
}
