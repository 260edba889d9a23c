/** What each operation makes of a workflow in order, step by step: which steps change, and that nothing else does. */
module WorkflowResults {
  import opened Common
  import opened WorkflowSteps
  import opened WorkflowShape
  import opened WorkflowRedo

  /** The step under a new status. */
  function Put(steps: seq<Step>, i: nat, status: StepStatus): seq<Step>
    requires i < |steps|
  {
    steps[i := steps[i].(status := status)]
  }

  lemma OrderIsLaidOut(f: Flow)
    requires Order(f)
    ensures Layout(f) && |f.steps| >= 2
  {
  }

  /** At the running action: the action is running, or completed before, and the finish pending, or begun before. */
  lemma RunningActionSays(f: Flow)
    requires Order(f) && f.status.Running? && f.current.ActionStep?
    ensures |f.steps| >= 2 && f.current == ActionStep(f.runType)
    ensures f.steps[0].status.InProgress? || f.steps[0].status.Completed?
    ensures f.steps[Last(f)].status.Pending? || f.steps[Last(f)].status.InProgress?
  {
  }

  /** Completing the action completes its step and starts the finish, unless they are already, and makes the finish
      the current step. */
  lemma ActionCompleted(f: Flow)
    requires Order(f) && f.status.Running? && f.current.ActionStep?
    ensures |f.steps| >= 2
    ensures var n := |f.steps| - 1;
            MarkActionCompleted(f)
            == Done(f.(steps := Put(Put(f.steps, 0, Completed), n, InProgress), current := FinishStep))
  {
    hide Order, Layout, Find;
    OrderIsLaidOut(f);
    RunningActionSays(f);
    ActionIsFirst(f);
    var n := |f.steps| - 1;
    var g := f.(steps := Put(f.steps, 0, Completed));
    SameIdsSameLayout(f, g);
    ActionIsFirst(g);
    CompletingIs(f, g);
  }

  lemma CompletingIs(f: Flow, g: Flow)
    requires |f.steps| >= 2 && Action(f) == Some(0) && g == f.(steps := Put(f.steps, 0, Completed))
    requires f.steps[0].status.InProgress? || f.steps[0].status.Completed?
    requires var n := |f.steps| - 1;
             Find(g.steps, FinishStep) == Some(n) && (f.steps[n].status.Pending? || f.steps[n].status.InProgress?)
    ensures MarkActionCompleted(f)
            == Done(g.(steps := Put(g.steps, |f.steps| - 1, InProgress), current := FinishStep))
  {
    hide Find;
    if f.steps[0].status.Completed? { assert g.steps == f.steps; }
    var n := |f.steps| - 1;
    if g.steps[n].status.InProgress? { assert Put(g.steps, n, InProgress) == g.steps; }
  }

  /** Completing the finish completes its step, and the workflow has succeeded. */
  lemma FinishCompleted(f: Flow)
    requires Shape(f) && f.status.Running? && f.current.FinishStep?
    ensures |f.steps| >= 2
    ensures CompleteFinishStep(f)
            == Done(f.(steps := Put(f.steps, |f.steps| - 1, Completed), status := Succeeded))
  {
    hide Layout, Find, RetriesNumbered;
    assert |f.steps| >= 2 by { LayoutIsLong(f); }
    ActionIsFirst(f);
  }

  /** Waiting for a new approval blocks the action if it ran, puts the wait in front of the last step and makes it the
      current one. */
  lemma ApprovalAwaited(f: Flow, id: ApprovalId)
    requires Order(f) && f.status.Running? && f.current.ActionStep? && !HasStep(f, ApprovalStep(id))
    ensures |f.steps| >= 2
    ensures var n := |f.steps| - 1;
            var blocked := if f.steps[0].status.InProgress? then Put(f.steps, 0, Blocked) else f.steps;
            WaitForApproval(f, id)
            == Done(f.(steps := blocked[..n] + [Step(ApprovalStep(id), InProgress, None, None, None)] + blocked[n..],
                       status := Waiting, current := ApprovalStep(id)))
  {
    hide Order, Layout, Find;
    OrderIsLaidOut(f);
    RunningActionSays(f);
    ActionIsFirst(f);
    var blocked := if f.steps[0].status.InProgress? then Put(f.steps, 0, Blocked) else f.steps;
    assert forall i :: 0 <= i < |blocked| ==> blocked[i].id == f.steps[i].id;
    AskingIs(f, blocked, id);
  }

  lemma AskingIs(f: Flow, blocked: seq<Step>, id: ApprovalId)
    requires |f.steps| >= 2 && Action(f) == Some(0) && f.status.Running?
    requires blocked == if f.steps[0].status.InProgress? then Put(f.steps, 0, Blocked) else f.steps
    requires forall i :: 0 <= i < |blocked| ==> blocked[i].id != ApprovalStep(id)
    ensures var n := |f.steps| - 1;
            WaitForApproval(f, id)
            == Done(f.(steps := blocked[..n] + [Step(ApprovalStep(id), InProgress, None, None, None)] + blocked[n..],
                       status := Waiting, current := ApprovalStep(id)))
  {
    hide Find;
    var n := |f.steps| - 1;
    assert blocked[n..] == [blocked[n]];
    assert Find(blocked, ApprovalStep(id)).None?;
    assert BlockAction(f) == Done(f.(steps := blocked));
  }

  /** Waiting: the current step is the one in front of the finish and in progress; the action is blocked or over. */
  lemma WaitingSays(f: Flow)
    requires Order(f) && f.status.Waiting?
    ensures |f.steps| >= 3 && f.current == f.steps[|f.steps| - 2].id && f.steps[|f.steps| - 2].status.InProgress?
    ensures f.steps[0].status.Blocked? || f.steps[0].status.Completed?
  {
  }

  /** The steps once the wait is over: its own is completed, and the action runs again if it was blocked. */
  function WaitOver(steps: seq<Step>): seq<Step>
    requires |steps| >= 3
  {
    var done := Put(steps, |steps| - 2, Completed);
    if steps[0].status.Blocked? then Put(done, 0, InProgress) else done
  }

  lemma LeavingIs(f: Flow, g: Flow)
    requires |f.steps| >= 3 && f.status.Waiting? && (f.steps[0].status.Blocked? || f.steps[0].status.Completed?)
    requires g == f.(steps := Put(f.steps, |f.steps| - 2, Completed)) && Action(g.(status := Running)) == Some(0)
    ensures LeaveWait(g)
            == Done(f.(steps := WaitOver(f.steps), status := Running, current := ActionStep(f.runType)))
  {
    hide Find;
  }

  /** Resuming from the approval waited for ends the wait and nothing else. */
  lemma ApprovalWaitOver(f: Flow, id: ApprovalId)
    requires Order(f) && f.status.Waiting? && f.current == ApprovalStep(id)
    ensures |f.steps| >= 3
    ensures ResumeFromApproval(f, id)
            == Done(f.(steps := WaitOver(f.steps), status := Running, current := ActionStep(f.runType)))
  {
    hide Order, Layout, Find, LeaveWait, WaitOver;
    OrderIsLaidOut(f);
    WaitingSays(f);
    var k := |f.steps| - 2;
    FindInLayout(f, k);
    var g := f.(steps := Put(f.steps, k, Completed));
    SameIdsSameLayout(f, g.(status := Running));
    ActionIsFirst(g.(status := Running));
    LeavingIs(f, g);
  }

  /** Resuming from the retry waited for ends the wait, and the time of the next retry is open again. */
  lemma RetryWaitOver(f: Flow)
    requires Order(f) && f.status.Waiting? && f.current.RetryStep?
    ensures |f.steps| >= 3
    ensures ResumeFromRetry(f)
            == Done(f.(steps := WaitOver(f.steps), status := Running, current := ActionStep(f.runType),
                       retryState := f.retryState.(nextRetryAt := None)))
  {
    hide Order, Layout, Find, LeaveWait, WaitOver;
    OrderIsLaidOut(f);
    WaitingSays(f);
    var k := |f.steps| - 2;
    FindInLayout(f, k);
    var g := f.(steps := Put(f.steps, k, Completed));
    SameIdsSameLayout(f, g.(status := Running));
    ActionIsFirst(g.(status := Running));
    LeavingIs(f, g);
  }

  // ---------- the two tables ----------

  /** Where a step status may come from: an end from anything that is not one, blocked from pending or running, running
      from pending or blocked, and pending from nothing. */
  lemma StepTableLaw(s: StepStatus, t: StepStatus)
    ensures t in StepNext(s) <==>
              match t
              case Completed => !s.Completed? && !s.Failed?
              case Failed => !s.Completed? && !s.Failed?
              case Blocked => s.Pending? || s.InProgress?
              case InProgress => s.Pending? || s.Blocked?
              case Pending => false
  {
  }

  /** Where a workflow's status may come from: success only from running, failure from running and waiting, and these
      two from each other. */
  lemma StatusTableLaw(s: Status, t: Status)
    ensures t in WorkflowNext(s) <==>
              match t
              case Succeeded => s.Running?
              case FailedFlow => s.Running? || s.Waiting?
              case Waiting => s.Running?
              case Running => s.Waiting?
  {
  }
}
