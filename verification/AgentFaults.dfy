/** What the exception path of a run makes of each thing that can go wrong: only a fault from outside that is
    retryable leads to a retry, and only while the policy has attempts left; everything else fails the workflow. */
module AgentFaults {
  import opened Common
  import opened WorkflowSteps
  import opened WorkflowShape
  import opened WorkflowRedo
  import opened WorkflowEvolution
  import opened WorkflowIds
  import opened AgentSteps
  import opened AgentSafety
  import opened AgentOrder
  import opened AgentHistory
  import opened AgentOutcomes
  import opened AgentTurns

  // ---------- the two operations, step by step ----------

  /** Failed at its current step, unless that step is over, with the fault on record. */
  function FailedHere(f: Flow, k: nat, fault: Fault): Flow
    requires k < |f.steps|
  {
    if f.steps[k].status.Completed? || f.steps[k].status.Failed? then f.(status := FailedFlow)
    else f.(steps := f.steps[k := f.steps[k].(status := StepStatus.Failed, error := Some(fault))], status := FailedFlow)
  }

  lemma FailLaw(f: Flow, fault: Fault)
    requires Find(f.steps, f.current).Some? && !f.status.Terminal()
    ensures FailWorkflow(f, fault) == Done(FailedHere(f, Find(f.steps, f.current).value, fault))
  {
    hide Find;
  }

  /** Waiting for the retry `n`, with its step in front of the last one and the action, if it ran, blocked. */
  predicate WaitsForRetry(f: Flow, g: Flow, fault: Fault, now: Time) {
    var n, at := f.retryState.attemptsUsed + 1, now + f.retryPolicy.backoffSeconds;
    && g == f.(status := Waiting, current := RetryStep(n), steps := g.steps,
               retryState := RetryState(n, Max(f.retryPolicy.maxAttempts - n, 0), Some(at), Some(fault)))
    && |g.steps| == |f.steps| + 1 >= 3
    && g.steps[|f.steps| - 1] == Step(RetryStep(n), InProgress, Some(at), Some(fault), None)
    && g.steps[|f.steps|] == f.steps[|f.steps| - 1]
    && g.steps[0] == (if f.steps[0].status.InProgress? then f.steps[0].(status := Blocked) else f.steps[0])
    && forall i :: 0 < i < |f.steps| - 1 ==> g.steps[i] == f.steps[i]
  }

  lemma OrderLayout(f: Flow)
    requires Order(f)
    ensures Layout(f) && RetriesNumbered(f)
  {
  }

  lemma RetryLaw(f: Flow, fault: Fault, now: Time)
    requires Order(f) && f.status.Running? && fault.retryable && CanRetry(f)
    ensures WaitForRetry(f, fault, now).Done? && WaitsForRetry(f, WaitForRetry(f, fault, now).flow, fault, now)
  {
    hide Shape, Redo, Order, Layout, RetriesNumbered, Find, WaitForRetry, InsertedBeforeLast;
    OrderLayout(f);
    assert |f.steps| >= 2 by { LayoutIsLong(f); }
    ActionIsFirst(f);
    NextRetryIsNew(f);
    var blocked := if f.steps[0].status.InProgress? then f.steps[0].(status := Blocked) else f.steps[0];
    var g := WithStep(f, 0, blocked);
    SameIdsSameNumbers(f, g);
    NextRetryIsNew(g);
    RetryResult(f, g, fault, now);
    InsertedAt(g.steps, Step(RetryStep(f.retryState.attemptsUsed + 1), InProgress,
                             Some(now + f.retryPolicy.backoffSeconds), Some(fault), None));
  }

  lemma RetryResult(f: Flow, g: Flow, fault: Fault, now: Time)
    requires Action(f) == Some(0) && |f.steps| >= 2 && f.status.Running? && fault.retryable && CanRetry(f)
    requires g == WithStep(f, 0, if f.steps[0].status.InProgress? then f.steps[0].(status := Blocked) else f.steps[0])
    requires Find(g.steps, RetryStep(f.retryState.attemptsUsed + 1)).None?
    ensures var n, at := f.retryState.attemptsUsed + 1, now + f.retryPolicy.backoffSeconds;
            WaitForRetry(f, fault, now)
            == Done(g.(steps := InsertedBeforeLast(
                         g.steps, Step(RetryStep(n), InProgress, Some(at), Some(fault), None)),
                       status := Waiting, current := RetryStep(n),
                       retryState := RetryState(n, Max(f.retryPolicy.maxAttempts - n, 0), Some(at), Some(fault))))
  {
    hide Find, InsertedBeforeLast;
    assert BlockAction(f) == Done(g) by {
      if !f.steps[0].status.InProgress? { assert f.steps[0 := f.steps[0]] == f.steps; }
    }
  }

  // ---------- the handler ----------

  /** The fault of a cause that can be retried: one from outside, in a run that got as far as its budget. */
  predicate Retryable(m: Machine) {
    && m.phase.Raising? && m.phase.budgetLoaded && m.phase.cause.Foreign? && m.phase.cause.fault.retryable
    && m.live.retryPolicy.maxAttempts > 0 && m.live.retryState.retriesRemaining > 0
  }

  /** What goes on record as the error of the step that failed. */
  predicate OnRecord(cause: Cause, error: Fault) {
    match cause
    case Foreign(fault) => error == fault
    case DelegationDenied => error.errorType == "DelegationDeniedError" && !error.retryable
    case PolicyDenied => error.errorType == "PolicyDeniedError" && !error.retryable
    case ApprovalDenied => error.errorType == "PolicyDeniedError" && !error.retryable
    case ApprovalState => error.errorType == "ApprovalStateError" && !error.retryable
    case ApprovalMissing => error.errorType == "FileNotFoundError" && !error.retryable
    case NoResult => error.errorType == "TypeError" && !error.retryable
    case WorkflowBroken(_) => error.errorType == "ValueError" && !error.retryable
  }

  /** The handler schedules a retry exactly for a retryable fault from outside while attempts remain. Otherwise the
      workflow has failed at its current step with the fault on record, or had ended and is as it was. The result is
      on file; the run is over; calls and approvals are as they were. */
  lemma HandlerLaw(m: Machine, now: Time)
    requires Inv(m) && m.phase.Raising?
    ensures var n := Handle(m, now);
            && n == m.(live := n.live, file := n.file, phase := Over) && n.file.saved == n.live
            && (if Retryable(m) then WaitsForRetry(m.live, n.live, m.phase.cause.fault, now)
                else if m.live.status.Terminal() then n.live == m.live
                else exists k: nat, fault ::
                       && Find(m.live.steps, m.live.current) == Some(k) && k < |m.live.steps|
                       && OnRecord(m.phase.cause, fault) && n.live == FailedHere(m.live, k, fault))
  {
    hide Good, Order, Shape, WaitForRetry, FailWorkflow, Persist, Find, WaitsForRetry;
    OrderPlace(m.live);
    CatchKeepsInv(m, now);
    var fault := FaultOf(m.phase.cause);
    if Retryable(m) {
      BudgetLeft(m.live);
      RetryLaw(m.live, fault, now);
      PersistSaves(m.(live := WaitForRetry(m.live, fault, now).flow, phase := Over));
    } else {
      PersistSaves(m.(live := FailWorkflow(m.live, fault).flow, phase := Over));
      OrderFails(m.live, fault);
      if !m.live.status.Terminal() {
        FailLaw(m.live, fault);
        assert OnRecord(m.phase.cause, fault);
      }
    }
  }

  /** On any workflow, in order or not: what is tried is a retry exactly then, and otherwise to fail; what works is on
      file, what raises is not. */
  lemma HandlerTries(m: Machine, now: Time)
    requires m.phase.Raising?
    ensures exists fault ::
              && OnRecord(m.phase.cause, fault)
              && Handle(m, now)
                 == match (if Retryable(m) then WaitForRetry(m.live, fault, now) else FailWorkflow(m.live, fault))
                    case Done(f) => m.(live := f, file := Written(m.file, f), phase := Over)
                    case Raised(f, _) => m.(live := f, phase := Over)
  {
    hide WaitForRetry, FailWorkflow, Written;
    assert OnRecord(m.phase.cause, FaultOf(m.phase.cause));
  }

  // ---------- whole turns ----------

  /** What a turn that raised leaves behind once it is caught. */
  predicate FailedOnFile(m: Machine, n: Machine) {
    && n.phase.Over? && n.file.saved == n.live && n.live.status.FailedFlow?
    && n.calls == m.calls && n.approvals == m.approvals
    && n.live.retryState == m.live.retryState && SameIds(m.live, n.live)
  }

  predicate SameIds(f: Flow, g: Flow) {
    |g.steps| == |f.steps| && forall i :: 0 <= i < |f.steps| ==> g.steps[i].id == f.steps[i].id
  }

  lemma CaughtTurnFails(m: Machine, o: Oracle, now: Time)
    requires Inv(m) && m.phase.Looping? && !m.live.status.Terminal()
    requires var r := Dispatch(m, o);
             && r.phase.Raising? && !r.phase.cause.Foreign? && r.live == m.live
             && r.calls == m.calls && r.approvals == m.approvals
    ensures FailedOnFile(m, After(m, [Turn(o), Catch(now)]))
  {
    hide Inv, Dispatch, Handle, Find;
    var r := Dispatch(m, o);
    MoveKeepsInv(m, Turn(o));
    HandlerLaw(r, now);
    TwoMoves(m, Turn(o), Catch(now));
  }

  /** A run whose delegation or policy forbids its action fails the workflow: no call, no retry, no attempt spent. */
  lemma DeniedRunFails(m: Machine, o: Oracle, now: Time)
    requires Inv(m) && m.phase.Looping? && m.live.current.ActionStep? && o.early.None?
    requires !m.terms.delegated || m.terms.policy.Deny?
    ensures FailedOnFile(m, After(m, [Turn(o), Catch(now)]))
  {
    hide Inv, Handle, Persist, Find;
    AtOpenAction(m);
    PersistSaves(m);
    CaughtTurnFails(m, o, now);
  }

  /** So does a run that comes to the finish without a result of its own, if the workflow has not ended. */
  lemma MissingResultFails(m: Machine, o: Oracle, now: Time)
    requires Inv(m) && m.phase.Looping? && m.live.current.FinishStep? && !m.answered && !m.live.status.Terminal()
    ensures FailedOnFile(m, After(m, [Turn(o), Catch(now)]))
  {
    hide Inv, Handle, Find;
    StepIsFound(m);
    CaughtTurnFails(m, o, now);
  }

  lemma StepIsFound(m: Machine)
    requires Inv(m) && m.phase.Looping?
    ensures Find(m.live.steps, m.live.current).Some?
  {
    hide Good;
    LoopPlace(m);
  }

  lemma AtOpenAction(m: Machine)
    requires Inv(m) && m.phase.Looping? && m.live.current.ActionStep?
    ensures Find(m.live.steps, m.live.current).Some? && m.live.status.Running?
  {
    hide Good;
    LoopPlace(m);
  }

  /** A turn that raises a fault from outside: once it is caught, a retry wait is on file exactly if the fault is
      retryable, the policy allows attempts and some remain; otherwise the workflow has failed. */
  lemma WorldFaultLaw(m: Machine, o: Oracle, now: Time)
    requires Inv(m) && m.phase.Looping? && !m.live.status.Terminal()
    requires Dispatch(m, o).phase.Raising? && Dispatch(m, o).phase.cause.Foreign?
    ensures var fault := Dispatch(m, o).phase.cause.fault; var n := After(m, [Turn(o), Catch(now)]);
            && n.phase.Over? && n.file.saved == n.live && n.calls == Dispatch(m, o).calls
            && (if fault.retryable && m.live.retryPolicy.maxAttempts > 0 && m.live.retryState.retriesRemaining > 0
                then && n.live.status.Waiting? && n.live.current == RetryStep(m.live.retryState.attemptsUsed + 1)
                     && n.live.retryState.attemptsUsed == m.live.retryState.attemptsUsed + 1
                     && n.live.retryState.nextRetryAt == Some(now + m.live.retryPolicy.backoffSeconds)
                else n.live.status.FailedFlow? && n.live.retryState == m.live.retryState)
  {
    hide Inv, Dispatch, Handle, Find;
    var r := Dispatch(m, o);
    MoveKeepsInv(m, Turn(o));
    TurnKeepsBudget(m, o);
    HandlerLaw(r, now);
    TwoMoves(m, Turn(o), Catch(now));
  }

  lemma TurnKeepsBudget(m: Machine, o: Oracle)
    requires Inv(m) && m.phase.Looping? && Dispatch(m, o).phase.Raising? && Dispatch(m, o).phase.cause.Foreign?
    ensures var r := Dispatch(m, o);
            && r.live.retryState == m.live.retryState && r.live.retryPolicy == m.live.retryPolicy
            && r.live.status == m.live.status && r.phase.budgetLoaded
  {
    hide Inv, Dispatch, Find, HasApproval, Written;
    match m.live.current
    case RetryStep(_) => RetryTurnLaw(m, o);
    case ApprovalStep(_) => ApprovalTurnLaw(m, o);
    case ActionStep(_) => ActionTurnLaw(m, o);
    case FinishStep => FinishTurnLaw(m, o);
  }

  // ---------- runs that do not begin ----------

  /** A run that fails before its loop begins never leads to a retry. */
  lemma FalseStartFails(m: Machine, id: ApprovalId, run: RunId, start: Start, now: Time)
    requires Inv(m) && Finds(m, id) && !start.Ready?
    ensures var n := After(m, [Resume(id, run, start), Catch(now)]);
            && n.phase.Over? && n.file.saved == n.live && n.calls == m.calls && n.approvals == m.approvals
            && n.live.status == (if m.file.saved.status.Terminal() then m.file.saved.status else FailedFlow)
            && n.live.retryState.attemptsUsed == m.file.saved.retryState.attemptsUsed
  {
    hide Inv, Handle, Find, Resumed;
    var r := Resumed(m, id, run, start);
    MoveKeepsInv(m, Resume(id, run, start));
    ResumeEffect(m, id, run, start);
    FalseStart(m, id, run, start);
    HandlerLaw(r, now);
    TwoMoves(m, Resume(id, run, start), Catch(now));
  }

  lemma FalseStart(m: Machine, id: ApprovalId, run: RunId, start: Start)
    requires Finds(m, id) && !start.Ready?
    ensures var r := Resumed(m, id, run, start);
            && r.phase.Raising? && !r.phase.budgetLoaded && r.phase.cause == Foreign(start.fault)
            && r.approvals == m.approvals
  {
    hide Written;
  }
}
