/** The shape every workflow keeps from its creation on, and exactly when an operation keeps it. */
module WorkflowShape {
  import opened Common
  import opened WorkflowSteps

  function Last(f: Flow): nat
    requires |f.steps| >= 2
  {
    |f.steps| - 1
  }

  /** Steps are the action, then waits, then the finish step, under distinct ids. */
  predicate Layout(f: Flow) {
    && |f.steps| >= 2
    && f.steps[0].id == ActionStep(f.runType)
    && f.steps[Last(f)].id == FinishStep
    && (forall i :: 0 < i < Last(f) ==> f.steps[i].id.Wait())
    && (forall i, j :: 0 <= i < j < |f.steps| ==> f.steps[i].id != f.steps[j].id)
  }

  /** The waits at positions 1 to n - 1 are over. */
  predicate WaitsOver(f: Flow, n: nat)
    requires n <= |f.steps|
  {
    forall i :: 0 < i < n ==> f.steps[i].status.Completed?
  }

  predicate AtAction(f: Flow, s: StepStatus)
    requires Layout(f)
  {
    && f.current == ActionStep(f.runType) && f.steps[0].status == s
    && WaitsOver(f, Last(f)) && f.steps[Last(f)].status.Pending?
  }

  /** The newest wait is the current step; the action is blocked behind it. */
  predicate AtWait(f: Flow, s: StepStatus)
    requires Layout(f)
  {
    && |f.steps| > 2 && f.current == f.steps[Last(f) - 1].id && f.steps[Last(f) - 1].status == s
    && f.steps[0].status.Blocked?
    && WaitsOver(f, Last(f) - 1) && f.steps[Last(f)].status.Pending?
  }

  predicate AtFinish(f: Flow, s: StepStatus)
    requires Layout(f)
  {
    && f.current == FinishStep && f.steps[0].status.Completed?
    && WaitsOver(f, Last(f)) && f.steps[Last(f)].status == s
  }

  predicate Phase(f: Flow)
    requires Layout(f)
  {
    match f.status
    case Running => AtAction(f, InProgress) || AtFinish(f, InProgress)
    case Waiting => AtWait(f, InProgress)
    case Succeeded => AtFinish(f, Completed)
    case FailedFlow => AtAction(f, Failed) || AtWait(f, Failed) || AtFinish(f, Failed)
  }

  /** How many of the first `n` steps are retry waits. */
  function RetriesAmong(steps: seq<Step>, n: nat): nat
    requires n <= |steps|
  {
    if n == 0 then 0 else RetriesAmong(steps, n - 1) + (if steps[n - 1].id.RetryStep? then 1 else 0)
  }

  /** Retry waits are numbered 1, 2, ... in order, and the retry state counts them. */
  predicate RetriesNumbered(f: Flow) {
    && (forall i :: 0 <= i < |f.steps| && f.steps[i].id.RetryStep? ==>
          f.steps[i].id.attempt == RetriesAmong(f.steps, i) + 1)
    && f.retryState.attemptsUsed == RetriesAmong(f.steps, |f.steps|)
    && f.retryState.retriesRemaining == Max(f.retryPolicy.maxAttempts - f.retryState.attemptsUsed, 0)
  }

  predicate Shape(f: Flow) { Layout(f) && Phase(f) && RetriesNumbered(f) }

  // ---------- reading the shape ----------

  /** While a workflow is not terminal exactly one step is in progress, and it is the current one. */
  lemma OneStepInProgress(f: Flow, i: nat)
    requires Shape(f) && i < |f.steps|
    ensures f.steps[i].status.InProgress? <==> !f.status.Terminal() && f.steps[i].id == f.current
  {
    assert f.status.Waiting? || (f.status.FailedFlow? && AtWait(f, Failed)) ==>
             (0 < i < Last(f) - 1 ==> f.steps[i].status.Completed?);
  }

  lemma FindInLayout(f: Flow, i: nat)
    requires Layout(f) && i < |f.steps|
    ensures Find(f.steps, f.steps[i].id) == Some(i)
  {
  }

  lemma CreatedHasShape(runId: RunId, runType: RunType)
    ensures Shape(CreateWorkflow(runId, runType))
  {
    var f := CreateWorkflow(runId, runType);
    assert RetriesAmong(f.steps, 1) == 0;
  }

  // ---------- changes that do not touch the steps ----------

  lemma StepsUntouched(f: Flow, g: Flow)
    requires Shape(f) && g.steps == f.steps && g.status == f.status && g.current == f.current && g.runType == f.runType
    requires g.retryState.attemptsUsed == f.retryState.attemptsUsed
    requires g.retryState.retriesRemaining == Max(g.retryPolicy.maxAttempts - g.retryState.attemptsUsed, 0)
    ensures Shape(g)
  {
  }

  /** Only statuses of steps change. */
  lemma StatusesOnly(f: Flow, g: Flow)
    requires Layout(f) && RetriesNumbered(f) && |g.steps| == |f.steps| && g.runType == f.runType
    requires forall i :: 0 <= i < |f.steps| ==> g.steps[i].id == f.steps[i].id
    requires g.retryPolicy == f.retryPolicy && g.retryState.attemptsUsed == f.retryState.attemptsUsed
    requires g.retryState.retriesRemaining == f.retryState.retriesRemaining
    ensures Layout(g) && RetriesNumbered(g)
  {
    hide Layout, RetriesNumbered;
    SameIdsSameLayout(f, g);
    SameIdsSameNumbers(f, g);
  }

  lemma SameIdsSameLayout(f: Flow, g: Flow)
    requires Layout(f) && |g.steps| == |f.steps| && g.runType == f.runType
    requires forall i :: 0 <= i < |f.steps| ==> g.steps[i].id == f.steps[i].id
    ensures Layout(g)
  {
  }

  lemma SameIdsSameNumbers(f: Flow, g: Flow)
    requires RetriesNumbered(f) && |g.steps| == |f.steps|
    requires forall i :: 0 <= i < |f.steps| ==> g.steps[i].id == f.steps[i].id
    requires g.retryPolicy == f.retryPolicy && g.retryState.attemptsUsed == f.retryState.attemptsUsed
    requires g.retryState.retriesRemaining == f.retryState.retriesRemaining
    ensures RetriesNumbered(g)
  {
    hide RetriesAmong;
    SameIdsSameRetries(f.steps, g.steps, |f.steps|);
    forall i | 0 <= i < |g.steps| && g.steps[i].id.RetryStep?
      ensures g.steps[i].id.attempt == RetriesAmong(g.steps, i) + 1
    {
      SameIdsSameRetries(f.steps, g.steps, i);
      assert f.steps[i].id.RetryStep?;
    }
  }

  lemma {:induction false} SameIdsSameRetries(a: seq<Step>, b: seq<Step>, n: nat)
    requires n <= |a| && n <= |b| && forall i :: 0 <= i < n ==> a[i].id == b[i].id
    ensures RetriesAmong(a, n) == RetriesAmong(b, n)
  {
    if n > 0 { SameIdsSameRetries(a, b, n - 1); }
  }

  // ---------- inserting a wait ----------

  /** A running workflow at its action, with a new wait put in front of the finish step. */
  lemma InsertWait(f: Flow, step: Step, g: Flow)
    requires Layout(f) && RetriesNumbered(f) && step.id.Wait()
    requires forall i :: 0 <= i < |f.steps| ==> f.steps[i].id != step.id
    requires step.id.RetryStep? ==> step.id.attempt == f.retryState.attemptsUsed + 1
    requires g.steps == InsertedBeforeLast(f.steps, step) && g.runType == f.runType
    requires g.retryState.attemptsUsed == f.retryState.attemptsUsed + (if step.id.RetryStep? then 1 else 0)
    requires g.retryState.retriesRemaining == Max(g.retryPolicy.maxAttempts - g.retryState.attemptsUsed, 0)
    ensures Layout(g) && RetriesNumbered(g)
    ensures |g.steps| == |f.steps| + 1 && g.steps[Last(f)] == step && g.steps[Last(g)] == f.steps[Last(f)]
    ensures forall i :: 0 <= i < Last(f) ==> g.steps[i] == f.steps[i]
  {
    InsertedLayout(f, step, g);
    InsertedNumbers(f, step, g);
  }

  lemma InsertedLayout(f: Flow, step: Step, g: Flow)
    requires Layout(f) && step.id.Wait()
    requires forall i :: 0 <= i < |f.steps| ==> f.steps[i].id != step.id
    requires g.steps == InsertedBeforeLast(f.steps, step) && g.runType == f.runType
    ensures Layout(g)
  {
    hide InsertedBeforeLast;
    var n := Last(f);
    InsertedAt(f.steps, step);
    assert |g.steps| == n + 2 && g.steps[n] == step && g.steps[n + 1] == f.steps[n];
  }

  lemma InsertedAt(steps: seq<Step>, step: Step)
    requires steps != []
    ensures var t, n := InsertedBeforeLast(steps, step), |steps| - 1;
            |t| == n + 2 && t[n] == step && t[n + 1] == steps[n] && forall i :: 0 <= i < n ==> t[i] == steps[i]
  {
  }

  lemma InsertedNumbers(f: Flow, step: Step, g: Flow)
    requires Layout(f) && RetriesNumbered(f) && g.steps == InsertedBeforeLast(f.steps, step)
    requires step.id.RetryStep? ==> step.id.attempt == f.retryState.attemptsUsed + 1
    requires g.retryState.attemptsUsed == f.retryState.attemptsUsed + (if step.id.RetryStep? then 1 else 0)
    requires g.retryState.retriesRemaining == Max(g.retryPolicy.maxAttempts - g.retryState.attemptsUsed, 0)
    ensures RetriesNumbered(g)
  {
    hide RetriesAmong, InsertedBeforeLast;
    var n := Last(f);
    InsertedAt(f.steps, step);
    RetriesStep(f.steps, n);
    RetriesStep(g.steps, n);
    RetriesStep(g.steps, n + 1);
    SameIdsSameRetries(f.steps, g.steps, n);
    forall i | 0 <= i < |g.steps| && g.steps[i].id.RetryStep?
      ensures g.steps[i].id.attempt == RetriesAmong(g.steps, i) + 1
    {
      if i < n {
        SameIdsSameRetries(f.steps, g.steps, i);
        assert f.steps[i].id.RetryStep?;
      }
    }
  }

  lemma RetriesStep(steps: seq<Step>, n: nat)
    requires n < |steps|
    ensures RetriesAmong(steps, n + 1) == RetriesAmong(steps, n) + (if steps[n].id.RetryStep? then 1 else 0)
  {
  }

  lemma AttemptsBounded(f: Flow, i: nat)
    requires RetriesNumbered(f) && i < |f.steps| && f.steps[i].id.RetryStep?
    ensures f.steps[i].id.attempt <= f.retryState.attemptsUsed
  {
    hide RetriesAmong;
    RetriesStep(f.steps, i);
    MoreStepsMoreRetries(f.steps, i + 1, |f.steps|);
  }

  lemma {:induction false} MoreStepsMoreRetries(steps: seq<Step>, m: nat, n: nat)
    requires m <= n <= |steps|
    ensures RetriesAmong(steps, m) <= RetriesAmong(steps, n)
  {
    if m < n { MoreStepsMoreRetries(steps, m, n - 1); }
  }

  // ---------- the operations on shaped workflows ----------

  lemma ActionIsFirst(f: Flow)
    requires Layout(f)
    ensures Action(f) == Some(0) && Find(f.steps, FinishStep) == Some(Last(f))
  {
    FindInLayout(f, 0);
    FindInLayout(f, Last(f));
  }

  lemma MarkActionCompletedMoves(f: Flow)
    requires Shape(f) && f.status.Running? && f.current.ActionStep?
    ensures MarkActionCompleted(f).Done?
    ensures var g := MarkActionCompleted(f).flow; Shape(g) && g.status.Running? && g.current == FinishStep
  {
    hide RetriesNumbered;
    ActionIsFirst(f);
    var g := WithStep(f, 0, f.steps[0].(status := Completed));
    StatusesOnly(f, g);
    ActionIsFirst(g);
    var h := WithStep(g, Last(g), g.steps[Last(g)].(status := InProgress)).(current := FinishStep);
    StatusesOnly(f, h);
    assert MarkActionCompleted(f) == Done(h);
  }

  lemma CompleteFinishMoves(f: Flow)
    requires Shape(f) && f.current == FinishStep && !f.status.FailedFlow?
    ensures CompleteFinishStep(f).Done?
    ensures var g := CompleteFinishStep(f).flow; Shape(g) && g.status.Succeeded? && (f.status.Succeeded? ==> g == f)
  {
    hide RetriesNumbered;
    ActionIsFirst(f);
    if f.status.Running? {
      var g := WithStep(f, Last(f), f.steps[Last(f)].(status := Completed))
               .(status := Succeeded, current := FinishStep);
      StatusesOnly(f, g);
      assert CompleteFinishStep(f) == Done(g);
    }
  }

  /** A step with this id is already there. */
  predicate HasStep(f: Flow, id: StepId) { exists i :: 0 <= i < |f.steps| && f.steps[i].id == id }

  lemma WaitForNewApproval(f: Flow, approval: ApprovalId)
    requires Shape(f) && f.status.Running? && f.current.ActionStep? && !HasStep(f, ApprovalStep(approval))
    ensures WaitForApproval(f, approval).Done?
    ensures var g := WaitForApproval(f, approval).flow;
            Shape(g) && g.status.Waiting? && g.current == ApprovalStep(approval)
  {
    hide RetriesNumbered, InsertedBeforeLast, WaitForApproval, Shape, Find, AtWait;
    var id := ApprovalStep(approval);
    StartOfRun(f);
    ActionIsFirst(f);
    var g := WithStep(f, 0, f.steps[0].(status := Blocked));
    StatusesOnly(f, g);
    var step := Step(id, InProgress, None, None, None);
    forall i | 0 <= i < |g.steps| ensures g.steps[i].id != id {
      assert g.steps[i].id == f.steps[i].id;
    }
    assert Find(g.steps, id).None?;
    var h := g.(steps := InsertedBeforeLast(g.steps, step), status := Waiting, current := id);
    RetriesCounted(g);
    InsertWait(g, step, h);
    ApprovalBlocksAndWaits(f, approval);
    BlockedAtWait(f, h);
    ShapeAtWait(h);
  }

  lemma BlockedAtWait(f: Flow, g: Flow)
    requires Layout(f) && AtAction(f, InProgress) && Layout(g) && |g.steps| == |f.steps| + 1
    requires g.steps[0].status.Blocked? && g.steps[Last(g)] == f.steps[Last(f)]
    requires g.current == g.steps[Last(f)].id && g.steps[Last(f)].status.InProgress?
    requires forall i :: 0 < i < Last(f) ==> g.steps[i] == f.steps[i]
    ensures AtWait(g, InProgress)
  {
    hide Layout;
    assert |f.steps| >= 2 by { LayoutIsLong(f); }
  }

  lemma ShapeAtWait(f: Flow)
    requires Layout(f) && RetriesNumbered(f) && f.status.Waiting? && AtWait(f, InProgress)
    ensures Shape(f)
  {
  }

  lemma RetriesCounted(f: Flow)
    requires RetriesNumbered(f)
    ensures f.retryState.retriesRemaining == Max(f.retryPolicy.maxAttempts - f.retryState.attemptsUsed, 0)
  {
  }

  /** Waiting for an approval while the action runs blocks the action and, unless the approval is known,
      puts its wait in front of the finish. */
  lemma ApprovalBlocksAndWaits(f: Flow, approval: ApprovalId)
    requires f.steps != [] && Action(f) == Some(0) && f.steps[0].status.InProgress? && f.status.Running?
    ensures var g := WithStep(f, 0, f.steps[0].(status := Blocked)); var id := ApprovalStep(approval);
            WaitForApproval(f, approval)
            == Done(g.(steps := if Find(g.steps, id).Some? then g.steps
                                else InsertedBeforeLast(g.steps, Step(id, InProgress, None, None, None)),
                       status := Waiting, current := id))
  {
    hide Find, InsertedBeforeLast;
  }

  lemma StartOfRun(f: Flow)
    requires Shape(f) && f.status.Running? && f.current.ActionStep?
    ensures Layout(f) && RetriesNumbered(f) && AtAction(f, InProgress)
  {
  }

  lemma WaitForKnownApproval(f: Flow, approval: ApprovalId)
    requires Shape(f) && f.status.Running? && f.current.ActionStep? && HasStep(f, ApprovalStep(approval))
    ensures WaitForApproval(f, approval).Done?
    ensures var g := WaitForApproval(f, approval).flow;
            !Shape(g) && g.status.Waiting? && g.current == ApprovalStep(approval)
  {
    hide RetriesNumbered, InsertedBeforeLast, Shape, Find, WaitForApproval;
    StartOfRun(f);
    ActionIsFirst(f);
    var i :| 0 <= i < |f.steps| && f.steps[i].id == ApprovalStep(approval);
    var g := WithStep(f, 0, f.steps[0].(status := Blocked));
    SameIdsSameLayout(f, g);
    FindInLayout(g, i);
    ApprovalBlocksAndWaits(f, approval);
    var h := WaitForApproval(f, approval).flow;
    assert h.steps == g.steps && h.steps[i].status.Completed?;
    CompletedCurrentHasNoShape(h, i);
  }

  lemma CompletedCurrentHasNoShape(f: Flow, i: nat)
    requires i < |f.steps| && f.steps[i].id == f.current && f.steps[i].status.Completed? && f.status.Waiting?
    ensures !Shape(f)
  {
  }

  /** While the action runs, waiting for an approval keeps the shape exactly when the approval is new. */
  lemma WaitForApprovalMoves(f: Flow, approval: ApprovalId)
    requires Shape(f) && f.status.Running? && f.current.ActionStep?
    ensures WaitForApproval(f, approval).Done?
    ensures Shape(WaitForApproval(f, approval).flow) <==> !HasStep(f, ApprovalStep(approval))
  {
    hide Shape, WaitForApproval, HasStep;
    if HasStep(f, ApprovalStep(approval)) { WaitForKnownApproval(f, approval); } else {
      WaitForNewApproval(f, approval);
    }
  }

  /** What a retry, once scheduled, puts in front of the finish step. */
  lemma RetryStepInserted(f: Flow, fault: Fault, now: Time)
    requires Shape(f) && f.status.Running? && f.current.ActionStep? && fault.retryable && CanRetry(f)
    ensures WaitForRetry(f, fault, now).Done?
    ensures var h := WaitForRetry(f, fault, now).flow; var id := RetryStep(f.retryState.attemptsUsed + 1);
            && Layout(h) && RetriesNumbered(h) && h.status.Waiting? && h.current == id && |h.steps| == |f.steps| + 1
            && h.steps[Last(f)] == Step(id, InProgress, Some(now + f.retryPolicy.backoffSeconds), Some(fault), None)
            && h.steps[Last(h)] == f.steps[Last(f)] && h.steps[0].status.Blocked?
            && forall i :: 0 < i < Last(f) ==> h.steps[i] == f.steps[i]
  {
    hide RetriesAmong, InsertedBeforeLast, Shape, RetriesNumbered, WaitForRetry, Find;
    StartOfRun(f);
    ActionIsFirst(f);
    var g := WithStep(f, 0, f.steps[0].(status := Blocked));
    StatusesOnly(f, g);
    var attempt, at := f.retryState.attemptsUsed + 1, now + f.retryPolicy.backoffSeconds;
    var step := Step(RetryStep(attempt), InProgress, Some(at), Some(fault), None);
    NextRetryIsNew(g);
    var h := g.(steps := InsertedBeforeLast(g.steps, step), status := Waiting, current := RetryStep(attempt),
                retryState := RetryState(attempt, Max(g.retryPolicy.maxAttempts - attempt, 0), Some(at), Some(fault)));
    InsertWait(g, step, h);
    RetryBlocksAndInserts(f, fault, now);
  }

  /** Scheduling a retry while the action runs blocks the action and puts the retry in front of the finish. */
  lemma RetryBlocksAndInserts(f: Flow, fault: Fault, now: Time)
    requires f.steps != [] && Action(f) == Some(0) && f.steps[0].status.InProgress? && f.status.Running?
    requires fault.retryable && CanRetry(f)
    requires Find(WithStep(f, 0, f.steps[0].(status := Blocked)).steps, RetryStep(f.retryState.attemptsUsed + 1)).None?
    ensures var attempt, at := f.retryState.attemptsUsed + 1, now + f.retryPolicy.backoffSeconds;
            var g := WithStep(f, 0, f.steps[0].(status := Blocked));
            WaitForRetry(f, fault, now)
            == Done(g.(steps := InsertedBeforeLast(g.steps,
                                                   Step(RetryStep(attempt), InProgress, Some(at), Some(fault), None)),
                       status := Waiting, current := RetryStep(attempt),
                       retryState := RetryState(attempt, Max(g.retryPolicy.maxAttempts - attempt, 0), Some(at),
                                                Some(fault))))
  {
    hide Find, InsertedBeforeLast;
  }

  /** Retry guard agreement: at the action, with the guard of can_schedule_retry satisfied, scheduling a
      retry raises nothing and keeps the shape; without it, it raises and changes nothing. */
  lemma WaitForRetryMoves(f: Flow, fault: Fault, now: Time)
    requires Shape(f) && f.status.Running? && f.current.ActionStep?
    ensures WaitForRetry(f, fault, now).Done? <==>
              fault.retryable && f.retryPolicy.maxAttempts > 0 && f.retryState.retriesRemaining > 0
    ensures var g := WaitForRetry(f, fault, now).flow;
            Shape(g) && if WaitForRetry(f, fault, now).Done?
                        then g.status.Waiting? && g.current == RetryStep(f.retryState.attemptsUsed + 1)
                        else g == f
  {
    hide RetriesAmong, BlockAction, EnterWait, WithRetryStep;
    if fault.retryable && CanRetry(f) {
      RetryStepInserted(f, fault, now);
      hide WaitForRetry;
    }
  }

  /** Outside its action a running workflow loses its shape by scheduling a retry. */
  lemma RetryAtFinishBreaksShape(f: Flow, fault: Fault, now: Time)
    requires Shape(f) && f.status.Running? && f.current == FinishStep && fault.retryable && CanRetry(f)
    ensures WaitForRetry(f, fault, now).Done? && !Shape(WaitForRetry(f, fault, now).flow)
  {
    ActionIsFirst(f);
    NextRetryIsNew(f);
    var g := WaitForRetry(f, fault, now).flow;
    assert g.steps[0] == f.steps[0];
  }

  lemma NextRetryIsNew(f: Flow)
    requires RetriesNumbered(f)
    ensures var id := RetryStep(f.retryState.attemptsUsed + 1);
            Find(f.steps, id).None? && forall i :: 0 <= i < |f.steps| ==> f.steps[i].id != id
  {
    forall i | 0 <= i < |f.steps| ensures f.steps[i].id != RetryStep(f.retryState.attemptsUsed + 1) {
      if f.steps[i].id.RetryStep? { AttemptsBounded(f, i); }
    }
  }

  lemma ResumeFromApprovalMoves(f: Flow, approval: ApprovalId)
    requires Shape(f) && f.status.Waiting? && f.current == ApprovalStep(approval)
    ensures ResumeFromApproval(f, approval).Done?
    ensures var g := ResumeFromApproval(f, approval).flow; Shape(g) && g.status.Running? && g.current.ActionStep?
  {
    hide RetriesNumbered;
    ActionIsFirst(f);
    FindInLayout(f, Last(f) - 1);
    var g := WithStep(f, Last(f) - 1, f.steps[Last(f) - 1].(status := Completed)).(status := Running);
    StatusesOnly(f, g);
    ActionIsFirst(g);
    var h := WithStep(g, 0, g.steps[0].(status := InProgress)).(current := ActionStep(g.runType));
    StatusesOnly(f, h);
    assert ResumeFromApproval(f, approval) == Done(h);
  }

  lemma ResumeFromRetryMoves(f: Flow)
    requires Shape(f) && f.status.Waiting? && f.current.RetryStep?
    ensures ResumeFromRetry(f).Done?
    ensures var g := ResumeFromRetry(f).flow; Shape(g) && g.status.Running? && g.current.ActionStep?
  {
    hide RetriesNumbered;
    ActionIsFirst(f);
    FindInLayout(f, Last(f) - 1);
    var g := WithStep(f, Last(f) - 1, f.steps[Last(f) - 1].(status := Completed)).(status := Running);
    StatusesOnly(f, g);
    ActionIsFirst(g);
    var h := WithStep(g, 0, g.steps[0].(status := InProgress))
             .(current := ActionStep(g.runType), retryState := g.retryState.(nextRetryAt := None));
    StatusesOnly(f, h);
    assert ResumeFromRetry(f) == Done(h);
  }

  lemma CurrentIsFound(f: Flow) returns (k: nat)
    requires Shape(f)
    ensures k < |f.steps| && f.steps[k].id == f.current && Find(f.steps, f.current) == Some(k)
    ensures !f.status.Terminal() ==> f.steps[k].status.InProgress?
    ensures f.status.FailedFlow? ==> f.steps[k].status.Failed?
    ensures f.status.Succeeded? ==> f.steps[k].status.Completed?
  {
    hide RetriesNumbered;
    k := if f.current.ActionStep? then 0 else if f.current.FinishStep? then Last(f) else Last(f) - 1;
    FindInLayout(f, k);
  }

  /** The workflow failed at its step `k`. */
  function FailedAt(f: Flow, k: nat, fault: Fault): Flow
    requires k < |f.steps|
  {
    WithStep(f, k, f.steps[k].(status := Failed, error := Some(fault))).(status := FailedFlow)
  }

  lemma FailingIsFailedAt(f: Flow, k: nat, fault: Fault)
    requires Find(f.steps, f.current) == Some(k) && k < |f.steps| && f.steps[k].status.InProgress?
    requires !f.status.Terminal()
    ensures FailWorkflow(f, fault) == Done(FailedAt(f, k, fault))
  {
    hide Find;
  }

  lemma FailedAtAction(f: Flow, fault: Fault)
    requires Layout(f) && AtAction(f, InProgress) && Layout(FailedAt(f, 0, fault))
    ensures AtAction(FailedAt(f, 0, fault), Failed)
  {
    hide Layout;
    assert |f.steps| >= 2 by { LayoutIsLong(f); }
  }

  lemma FailedAtWait(f: Flow, fault: Fault)
    requires Layout(f) && AtWait(f, InProgress) && Layout(FailedAt(f, Last(f) - 1, fault))
    ensures AtWait(FailedAt(f, Last(f) - 1, fault), Failed)
  {
    hide Layout;
    assert |f.steps| >= 2 by { LayoutIsLong(f); }
  }

  lemma FailedAtFinish(f: Flow, fault: Fault)
    requires Layout(f) && AtFinish(f, InProgress) && Layout(FailedAt(f, Last(f), fault))
    ensures AtFinish(FailedAt(f, Last(f), fault), Failed)
  {
    hide Layout;
    assert |f.steps| >= 2 by { LayoutIsLong(f); }
  }

  /** Failing always works, keeps the shape, and changes nothing once the workflow is terminal. */
  lemma FailWorkflowMoves(f: Flow, fault: Fault)
    requires Shape(f)
    ensures FailWorkflow(f, fault).Done?
    ensures var g := FailWorkflow(f, fault).flow;
            Shape(g) && (if f.status.Terminal() then g == f else g.status.FailedFlow?)
  {
    hide RetriesNumbered, Layout, Find, AtAction, AtWait, AtFinish;
    var k := CurrentIsFound(f);
    if !f.status.Terminal() {
      var g := FailedAt(f, k, fault);
      FailingIsFailedAt(f, k, fault);
      StatusesOnly(f, g);
      FailedPhase(f, k, fault);
    }
  }

  lemma FailedPhase(f: Flow, k: nat, fault: Fault)
    requires Shape(f) && !f.status.Terminal() && k < |f.steps| && Find(f.steps, f.current) == Some(k)
    requires Layout(FailedAt(f, k, fault))
    ensures Phase(FailedAt(f, k, fault))
  {
    hide RetriesNumbered, Layout, Find, FailedAt, WaitsOver;
    assert |f.steps| >= 2 by { LayoutIsLong(f); }
    if f.status.Waiting? {
      FindInLayout(f, Last(f) - 1);
      FailedAtWait(f, fault);
    } else if AtAction(f, InProgress) {
      FirstIsAction(f);
      FindInLayout(f, 0);
      FailedAtAction(f, fault);
    } else {
      FirstIsAction(f);
      FindInLayout(f, Last(f));
      FailedAtFinish(f, fault);
    }
    assert FailedAt(f, k, fault).status.FailedFlow? by { FailedAtFails(f, k, fault); }
  }

  lemma FailedAtFails(f: Flow, k: nat, fault: Fault)
    requires k < |f.steps|
    ensures FailedAt(f, k, fault).status.FailedFlow?
  {
  }

  lemma LayoutIsLong(f: Flow)
    requires Layout(f)
    ensures |f.steps| >= 2
  {
  }

  lemma FirstIsAction(f: Flow)
    requires Layout(f)
    ensures |f.steps| >= 2 && f.steps[0].id == ActionStep(f.runType) && f.steps[Last(f)].id == FinishStep
  {
  }

  /** The failure is recorded at the current step, and the other steps stay as they are. */
  lemma FailWorkflowRecords(f: Flow, fault: Fault, i: nat)
    requires Shape(f) && !f.status.Terminal() && i < |f.steps|
    ensures var g := FailWorkflow(f, fault).flow;
            |g.steps| == |f.steps|
            && g.steps[i] == (if f.steps[i].id == f.current then f.steps[i].(status := Failed, error := Some(fault))
                              else f.steps[i])
  {
    hide Shape, Find;
    var k := CurrentIsFound(f);
    assert Layout(f) by { ShapeHasLayout(f); }
  }

  lemma ShapeHasLayout(f: Flow)
    requires Shape(f)
    ensures Layout(f)
  {
  }

  /** Succeeded and failed are absorbing: no operation at all leaves them. */
  lemma TerminalIsAbsorbing(f: Flow, approval: ApprovalId, fault: Fault, now: Time)
    requires f.status.Terminal()
    ensures MarkActionCompleted(f).flow.status == f.status && CompleteFinishStep(f).flow.status == f.status
    ensures WaitForApproval(f, approval).flow.status == f.status && WaitForRetry(f, fault, now).flow.status == f.status
    ensures ResumeFromApproval(f, approval).flow.status == f.status && ResumeFromRetry(f).flow.status == f.status
    ensures FailWorkflow(f, fault).flow.status == f.status
  {
    hide MarkActionCompleted, CompleteFinishStep, FailWorkflow, WaitForApproval, WaitForRetry, ResumeFromApproval;
    hide ResumeFromRetry;
    EndingKeepsTerminal(f, fault);
    WaitingKeepsTerminal(f, approval, fault, now);
    ResumingKeepsTerminal(f, approval);
  }

  lemma EndingKeepsTerminal(f: Flow, fault: Fault)
    requires f.status.Terminal()
    ensures MarkActionCompleted(f).flow.status == f.status && CompleteFinishStep(f).flow.status == f.status
    ensures FailWorkflow(f, fault).flow.status == f.status
  {
    hide Find, StartStep;
    forall g: Flow, k: nat | g.status == f.status && k < |g.steps| ensures StartStep(g, k).flow.status == f.status {
      PartsKeepTerminal(g, FinishStep, k);
    }
  }

  lemma WaitingKeepsTerminal(f: Flow, approval: ApprovalId, fault: Fault, now: Time)
    requires f.status.Terminal()
    ensures WaitForApproval(f, approval).flow.status == f.status && WaitForRetry(f, fault, now).flow.status == f.status
  {
    hide Find, InsertedBeforeLast, BlockAction, WithRetryStep;
    PartsKeepTerminal(f, FinishStep, 0);
    if WaitForRetry(f, fault, now).flow != f {
      var g := BlockAction(f).flow;
      RetryStepKeepsStatus(g, g.retryState.attemptsUsed + 1, now + g.retryPolicy.backoffSeconds, fault);
    }
  }

  lemma ResumingKeepsTerminal(f: Flow, approval: ApprovalId)
    requires f.status.Terminal()
    ensures ResumeFromApproval(f, approval).flow.status == f.status && ResumeFromRetry(f).flow.status == f.status
  {
    hide Find, CompleteWait, LeaveWait;
    forall g: Flow | g.status == f.status ensures LeaveWait(g).flow.status == f.status {
      PartsKeepTerminal(g, FinishStep, 0);
    }
    forall g: Flow, id | g.status == f.status ensures CompleteWait(g, id).flow.status == f.status {
      PartsKeepTerminal(g, id, 0);
    }
  }

  lemma RetryStepKeepsStatus(f: Flow, attempt: nat, at: Time, fault: Fault)
    ensures WithRetryStep(f, attempt, at, fault).status == f.status
  {
  }

  lemma PartsKeepTerminal(f: Flow, id: StepId, k: nat)
    requires f.status.Terminal()
    ensures BlockAction(f).flow.status == f.status && CompleteWait(f, id).flow.status == f.status
    ensures LeaveWait(f).flow.status == f.status
    ensures k < |f.steps| ==> StartStep(f, k).flow.status == f.status
  {
    hide Find;
  }

  /** The shape does not survive resuming a failed workflow whose wait step failed: its action is
      unblocked although the workflow stays failed. */
  lemma ResumingAFailedWaitBreaksShape(f: Flow, approval: ApprovalId)
    requires Shape(f) && f.status.FailedFlow? && f.current == ApprovalStep(approval)
    ensures ResumeFromApproval(f, approval).Done?
    ensures var g := ResumeFromApproval(f, approval).flow;
            g.status.FailedFlow? && g.steps != [] && g.steps[0].status.InProgress? && !Shape(g)
  {
    ActionIsFirst(f);
    FindInLayout(f, Last(f) - 1);
  }
}
