/** The order a workflow is in while no run begins on one that failed before its finish: its shape, in its
    first or second life, and a loop in which no operation on the workflow raises. */
module AgentOrder {
  import opened Common
  import opened WorkflowSteps
  import opened WorkflowShape
  import opened WorkflowRedo
  import opened WorkflowAudit
  import opened WorkflowEvolution
  import opened WorkflowIds
  import opened AgentSteps
  import opened AgentSafety
  import A = Approvals

  // ---------- the invariant ----------

  predicate Refused(approvals: map<ApprovalId, A.Approval>, id: ApprovalId) {
    id in approvals && (approvals[id].status.Denied? || approvals[id].status.Aborted?)
  }

  /** A run that begins on this workflow can work on it although it has ended: it failed at its action, at a
      retry, or at an approval that was not refused. */
  predicate Restartable(f: Flow, approvals: map<ApprovalId, A.Approval>) {
    && f.status.FailedFlow?
    && match f.current
       case ActionStep(_) => true
       case RetryStep(_) => true
       case ApprovalStep(id) => !Refused(approvals, id)
       case FinishStep => false
  }

  /** A loop on a workflow that has ended finds nothing to do; what raises is never an operation on the
      workflow or a missing approval; and only a running workflow meets retryable errors. */
  predicate PhaseOk(m: Machine) {
    && (m.phase.Looping? && m.live.status.Terminal() ==> !Restartable(m.live, m.approvals) && !m.answered)
    && (m.phase.Raising? ==>
          && !m.phase.cause.WorkflowBroken? && !m.phase.cause.ApprovalMissing?
          && (m.phase.budgetLoaded && FaultOf(m.phase.cause).retryable ==> m.live.status.Running?))
  }

  predicate InOrder(m: Machine) { Order(m.live) && Order(m.file.saved) && PhaseOk(m) }

  ghost predicate Inv(m: Machine) { Good(m) && InOrder(m) }

  /** In its first life, in memory and on disk. */
  predicate Shaped(m: Machine) { Shape(m.live) && Shape(m.file.saved) }

  // ---------- where the loop stands ----------

  lemma LoopPlace(m: Machine)
    requires InOrder(m) && m.phase.Looping?
    ensures Find(m.live.steps, m.live.current).Some? && m.live.current in Ids(m.live.steps)
    ensures m.live.current.ActionStep? ==> m.live.status.Running?
    ensures m.live.current.RetryStep? ==> m.live.status.Waiting?
    ensures m.live.current.ApprovalStep? ==> m.live.status.Waiting? || Refused(m.approvals, m.live.current.approval)
    ensures m.live.current.FinishStep? && m.answered ==> m.live.status.Running?
  {
    hide Order;
    OrderPlace(m.live);
    FoundIsId(m.live, m.live.current);
  }

  lemma HasStepIsId(f: Flow, id: StepId)
    ensures HasStep(f, id) <==> id in Ids(f.steps)
  {
    if HasStep(f, id) {
      var i :| 0 <= i < |f.steps| && f.steps[i].id == id;
      assert f.steps[i] in f.steps;
    }
  }

  // ---------- the turns ----------

  lemma RetryWaitInOrder(m: Machine, now: Time)
    requires InOrder(m) && m.phase.Looping? && m.live.current.RetryStep?
    ensures var n := ExecuteRetryWait(m, now); InOrder(n) && !n.phase.Raising? && (Shaped(m) ==> Shaped(n))
    ensures var n := ExecuteRetryWait(m, now); n.phase.Looping? ==> n.live.current.ActionStep?
  {
    hide Order, Shape, Find, ResumeFromRetry, Persist, Ids;
    LoopPlace(m);
    OrderResumesRetry(m.live);
    PersistSaves(m.(live := ResumeFromRetry(m.live).flow));
  }

  lemma ContinueInOrder(m: Machine)
    requires Order(m.live) && m.phase.Looping? && m.live.status.Waiting? && m.live.current.ApprovalStep?
    ensures var n := Then(m, ResumeFromApproval(m.live, m.live.current.approval));
            && InOrder(n) && n.phase.Looping? && n.live.status.Running? && n.live.current.ActionStep?
            && (Shape(m.live) ==> Shaped(n)) && n.held == m.held && n.approvals == m.approvals && n.terms == m.terms
  {
    hide Order, Shape, ResumeFromApproval, Persist;
    OrderResumesApproval(m.live, m.live.current.approval);
    PersistSaves(m.(live := ResumeFromApproval(m.live, m.live.current.approval).flow));
  }

  /** At an approval wait: a pending approval ends the run, an approved or resumed one leads back to the
      action, a refused one raises. */
  lemma ApprovalWaitInOrder(m: Machine)
    requires Inv(m) && m.phase.Looping? && m.live.current.ApprovalStep?
    ensures var n := ExecuteApprovalWait(m); InOrder(n) && (Shaped(m) ==> Shaped(n))
    ensures var id := m.live.current.approval;
            && id in m.approvals
            && var n := ExecuteApprovalWait(m);
               match m.approvals[id].status
               case Pending => n == m.(phase := Over, held := n.held)
               case Approved =>
                 && n.phase.Looping? && AtRunningAction(n.live)
                 && n.held.Some? && n.held.value.copy.status.Resumed?
               case Resumed => n.phase.Looping? && AtRunningAction(n.live)
               case Denied => n.phase.Raising? && n.live == m.live && n.file == m.file
               case Aborted => n.phase.Raising? && n.live == m.live && n.file == m.file
  {
    hide Good, Order, Shape, Find, Then, A.FollowsTable, OperatorApproved, ResumeFromApproval, A.MarkedResumed, Ids;
    LoopPlace(m);
    var id := m.live.current.approval;
    ApprovalFacts(m, id);
    ResumedSucceeds(m.approvals[id], m.run);
    var found := m.(held := Some(Held(id, m.approvals[id])));
    if m.approvals[id].status.Approved? {
      var a := A.MarkedResumed(m.approvals[id], m.run).approval;
      ContinueInOrder(m.(approvals := m.approvals[id := a], held := Some(Held(id, a))));
    } else if m.approvals[id].status.Resumed? {
      ContinueInOrder(found);
    }
  }

  predicate AtRunningAction(f: Flow) { f.status.Running? && f.current.ActionStep? }

  lemma MakeCallInOrder(m: Machine, approval: Option<ApprovalId>, outcome: CallOutcome)
    requires InOrder(m) && m.phase.Looping? && AtRunningAction(m.live)
    ensures var n := MakeCall(m, approval, outcome);
            && InOrder(n) && (Shaped(m) ==> Shaped(n))
            && (n.phase.Looping? ==> n.live.current == FinishStep)
            && (n.phase.Raising? ==> n.file == m.file && n.live.status.Running?)
    ensures outcome.Answered? && outcome.after.None? ==> MakeCall(m, approval, outcome).phase.Looping?
  {
    hide Order, Shape, MarkActionCompleted, Persist, RegisterMemory;
    if outcome.Answered? {
      var f := if outcome.memory.Some? then RegisterMemory(m.live, outcome.memory.value) else m.live;
      if outcome.memory.Some? { MemoryInOrder(m.live, outcome.memory.value); }
      OrderCompletes(f);
      ShapeIsOrder(MarkActionCompleted(f).flow);
      PersistSaves(m.(calls := m.calls + [Call(m.terms, approval)], answered := true,
                      live := MarkActionCompleted(f).flow));
    }
  }

  lemma ShapeIsOrder(f: Flow)
    requires Shape(f)
    ensures Order(f)
  {
  }

  lemma MemoryInOrder(f: Flow, memory: Memory)
    requires Order(f)
    ensures var g := RegisterMemory(f, memory);
            Order(g) && (Shape(g) <==> Shape(f)) && g.status == f.status && g.current == f.current
  {
    hide Order, Shape;
    OrderNumbers(f);
    OrderUntouched(f, RegisterMemory(f, memory));
  }

  lemma OrderNumbers(f: Flow)
    requires Order(f)
    ensures f.retryState.retriesRemaining == Max(f.retryPolicy.maxAttempts - f.retryState.attemptsUsed, 0)
  {
  }

  lemma RequestInOrder(m: Machine)
    requires Inv(m) && m.phase.Looping? && AtRunningAction(m.live)
    ensures var n := RequestApproval(m);
            && InOrder(n) && (Shaped(m) ==> Shaped(n)) && n.phase.Looping? && n.live.status.Waiting?
            && n.live.current == ApprovalStep(m.nextApproval) && m.nextApproval in n.approvals
            && n.approvals[m.nextApproval] == A.NewApproval(m.terms.action, m.live.workflowId, m.run)
  {
    hide Good, Order, Shape, Ids, HasStep, WaitForApproval, Persist;
    var id, a := m.nextApproval, A.NewApproval(m.terms.action, m.live.workflowId, m.run);
    RequestKeeps(m);
    HasStepIsId(m.live, ApprovalStep(id));
    OrderAsks(m.live, id);
    PersistSaves(m.(approvals := m.approvals[id := a], nextApproval := id + 1, held := Some(Held(id, a)),
                    live := WaitForApproval(m.live, id).flow));
  }

  lemma ApprovedCallInOrder(m: Machine, outcome: CallOutcome)
    requires Inv(m) && m.phase.Looping? && AtRunningAction(m.live) && m.held.Some?
    ensures var n := MakeApprovedCall(m, outcome);
            && InOrder(n) && (Shaped(m) ==> Shaped(n)) && (n.phase.Looping? ==> n.live.current == FinishStep)
            && (n.phase.Raising? ==> n.file == m.file && n.live.status.Running?)
  {
    hide Good, Order, Shape, MakeCall, A.MarkedResumed;
    var id := m.held.value.id;
    ApprovalFacts(m, id);
    MakeCallInOrder(m, Some(id), outcome);
    if A.MarkedResumed(m.approvals[id], m.run).Ok? {
      var a := A.MarkedResumed(m.approvals[id], m.run).approval;
      MakeCallInOrder(m.(approvals := m.approvals[id := a], held := Some(Held(id, a))), Some(id), outcome);
    }
  }

  lemma ActionInOrder(m: Machine, o: Oracle)
    requires Inv(m) && m.phase.Looping? && m.live.current.ActionStep?
    ensures var n := ExecuteAction(m, o); InOrder(n) && (Shaped(m) ==> Shaped(n))
    ensures var n := ExecuteAction(m, o); n.phase.Raising? ==> n.live.status.Running?
  {
    hide Good, Order, Shape, Find, Ids, MakeCall, MakeApprovedCall, RequestApproval, Matches, Persist;
    LoopPlace(m);
    Persists(m);
    PersistSaves(m);
    var p := Persist(m);
    MakeCallInOrder(p, None, o.outcome);
    MatchesHeld(p);
    if Matches(p) { ApprovedCallInOrder(p, o.outcome); } else { RequestInOrder(p); }
  }

  lemma MatchesHeld(m: Machine)
    ensures Matches(m) ==> m.held.Some?
  {
  }

  lemma FinishInOrder(m: Machine, o: Oracle)
    requires InOrder(m) && m.phase.Looping? && m.live.current.FinishStep?
    ensures var n := ExecuteFinish(m, o); InOrder(n) && (Shaped(m) ==> Shaped(n))
    ensures var n := ExecuteFinish(m, o);
            if m.answered && o.lost.None? then n.phase.Over? && n.live.status.Succeeded?
            else n.phase.Raising? && n.live == m.live && n.file == m.file
  {
    hide Order, Shape, Find, Ids, RegisterArtifact, CompleteFinishStep, Persist;
    LoopPlace(m);
    if m.answered && o.lost.None? {
      var g := RegisterArtifact(m.live, o.artifact);
      ArtifactInOrder(m.live, o.artifact);
      OrderAtFinish(g);
      CompleteFinishMoves(g);
      ShapeIsOrder(CompleteFinishStep(g).flow);
      PersistSaves(m.(live := CompleteFinishStep(g).flow));
    }
  }

  lemma ArtifactInOrder(f: Flow, id: ArtifactId)
    requires Order(f)
    ensures var g := RegisterArtifact(f, id);
            Order(g) && (Shape(g) <==> Shape(f)) && g.status == f.status && g.current == f.current
  {
    hide Order, Shape;
    OrderNumbers(f);
    OrderUntouched(f, RegisterArtifact(f, id));
  }

  /** The guards never misfire: whatever a turn raises, it is not an operation on the workflow. */
  lemma TurnKeepsInv(m: Machine, o: Oracle)
    requires Inv(m) && m.phase.Looping?
    ensures Inv(Dispatch(m, o)) && (Shaped(m) ==> Shaped(Dispatch(m, o)))
  {
    hide Good, Order, Shape, Find, ExecuteRetryWait, ExecuteApprovalWait, ExecuteAction, ExecuteFinish, Ids, PhaseOk;
    TurnKeepsGood(m, o);
    LoopPlace(m);
    match m.live.current
    case RetryStep(_) => RetryWaitInOrder(m, o.now);
    case ApprovalStep(_) => ApprovalWaitInOrder(m);
    case ActionStep(_) => ActionInOrder(m, o);
    case FinishStep => FinishInOrder(m, o);
  }

  // ---------- the handler ----------

  /** The handler schedules a retry away from the action. */
  predicate LosesResult(m: Machine) {
    && m.phase.Raising? && m.phase.budgetLoaded && m.live.current.FinishStep?
    && CanScheduleRetry(m.live, FaultOf(m.phase.cause))
  }

  /** The exception handler always succeeds: it schedules a retry exactly when can_schedule_retry holds, and
      then the workflow waits; otherwise the workflow has failed, if it had not ended before. Either way the
      result is on disk. The first life ends exactly when the retry is scheduled at the finish. */
  lemma CatchKeepsInv(m: Machine, now: Time)
    requires Inv(m) && m.phase.Raising?
    ensures var n := Handle(m, now);
            && Inv(n) && n.phase.Over? && n.file.saved == n.live
            && (if m.phase.budgetLoaded && CanScheduleRetry(m.live, FaultOf(m.phase.cause))
                then n.live.status.Waiting? && n.live.current == RetryStep(m.live.retryState.attemptsUsed + 1)
                else if m.live.status.Terminal() then n.live == m.live else n.live.status.FailedFlow?)
    ensures Shaped(Handle(m, now)) <==> Shape(m.live) && !LosesResult(m)
  {
    hide Good, Order, Shape, WaitForRetry, FailWorkflow, Persist;
    CatchKeepsGood(m, now);
    var fault := FaultOf(m.phase.cause);
    OrderPlace(m.live);
    if m.phase.budgetLoaded && CanScheduleRetry(m.live, fault) {
      OrderRetries(m.live, fault, now);
      PersistSaves(m.(live := WaitForRetry(m.live, fault, now).flow, phase := Over));
    } else {
      OrderFails(m.live, fault);
      PersistSaves(m.(live := FailWorkflow(m.live, fault).flow, phase := Over));
    }
  }

  // ---------- the moves around a run ----------

  lemma ConfiguredInOrder(f: Flow, policy: RetryPolicy)
    requires Order(f)
    ensures var g := ConfigureRetryPolicy(f, policy);
            Order(g) && (Shape(g) <==> Shape(f)) && g.status == f.status && g.current == f.current
  {
    hide Order, Shape;
    OrderUntouched(f, ConfigureRetryPolicy(f, policy));
  }

  lemma AttachedInOrder(f: Flow, run: RunId)
    requires Order(f)
    ensures var g := AttachRun(f, run);
            Order(g) && (Shape(g) <==> Shape(f)) && g.status == f.status && g.current == f.current
  {
    hide Order, Shape;
    OrderNumbers(f);
    OrderUntouched(f, AttachRun(f, run));
  }

  lemma EnteredInOrder(m: Machine, start: Start)
    requires Order(m.live) && Order(m.file.saved) && !m.answered
    ensures var n := Entered(m, start);
            && Order(n.live) && Order(n.file.saved) && (Shaped(m) ==> Shaped(n))
            && n.live.status == m.live.status && n.live.current == m.live.current && n.approvals == m.approvals
            && (PhaseOk(n) <==> !(start.Ready? && Restartable(m.live, m.approvals)))
  {
    hide Order, Shape, Persist, ConfigureRetryPolicy;
    if start.Ready? || start.Unbudgeted? {
      ConfiguredInOrder(m.live, start.policy);
      PersistSaves(m.(live := ConfigureRetryPolicy(m.live, start.policy)));
    }
  }

  /** A run begins on a workflow it can work on although it has ended. */
  predicate Restarts(m: Machine, move: Move) {
    move.Resume? && move.start.Ready? && Finds(m, move.approval) && Restartable(m.file.saved, m.approvals)
  }

  lemma ResumeInOrder(m: Machine, id: ApprovalId, run: RunId, start: Start)
    requires InOrder(m)
    ensures var n := Resumed(m, id, run, start);
            && (InOrder(n) <==> !Restarts(m, Resume(id, run, start))) && (Shaped(m) ==> Shaped(n))
            && (Finds(m, id) ==> Order(n.live) && Order(n.file.saved)
                                 && n.live.status == m.file.saved.status && n.live.current == m.file.saved.current
                                 && n.approvals == m.approvals)
  {
    hide Order, Shape, Entered, Persist, AttachRun, Restartable, PhaseOk;
    if Finds(m, id) {
      var n := Loaded(m, id, run);
      AttachedInOrder(n.live, run);
      PersistSaves(n.(live := AttachRun(n.live, run)));
      EnteredInOrder(if start.Misfit? then n else Persist(n.(live := AttachRun(n.live, run))), start);
      SameRestartable(n.live, AttachRun(n.live, run), m.approvals);
    }
  }

  lemma SameRestartable(f: Flow, g: Flow, approvals: map<ApprovalId, A.Approval>)
    requires f.status == g.status && f.current == g.current
    ensures Restartable(f, approvals) <==> Restartable(g, approvals)
  {
  }

  /** Approvals only get further refused. */
  lemma RefusalsStay(m: Machine, move: Move)
    requires Good(m) && (move.Decide? || move.OtherRequest? || move.OtherResume?)
    ensures var n := Next(m, move);
            && n.live == m.live && n.file == m.file && n.phase == m.phase && n.answered == m.answered
            && forall id :: Refused(m.approvals, id) ==> Refused(n.approvals, id)
  {
    hide FlowOk, A.FollowsTable, OperatorApproved;
  }

  lemma RefusedIsNotRestartable(f: Flow, a: map<ApprovalId, A.Approval>, b: map<ApprovalId, A.Approval>)
    requires !Restartable(f, a) && forall id :: Refused(a, id) ==> Refused(b, id)
    ensures !Restartable(f, b)
  {
  }

  lemma AddChildInOrder(m: Machine, child: WorkflowId)
    requires InOrder(m)
    ensures var n := Next(m, AddChild(child)); InOrder(n) && (Shaped(m) ==> Shaped(n))
  {
    hide Order, Shape, Persist;
    OrderNumbers(m.file.saved);
    var f := m.file.saved.(children := m.file.saved.children + [child]);
    OrderUntouched(m.file.saved, f);
    PersistSaves(m.(live := f));
  }

  /** A move keeps the invariant exactly when it does not begin a run on a restartable workflow. */
  lemma MoveKeepsInv(m: Machine, move: Move)
    requires Inv(m)
    ensures Inv(Next(m, move)) <==> !Restarts(m, move)
  {
    hide Good, Order, Shape, Dispatch, Handle, Resumed, Restartable, Refused;
    MoveKeepsGood(m, move);
    match move
    case Turn(o) => if m.phase.Looping? { TurnKeepsInv(m, o); }
    case Catch(now) => if m.phase.Raising? { CatchKeepsInv(m, now); }
    case Resume(id, run, start) => ResumeInOrder(m, id, run, start);
    case AddChild(child) => AddChildInOrder(m, child);
    case Crash =>
    case _ =>
      RefusalsStay(m, move);
      if m.phase.Looping? && m.live.status.Terminal() {
        RefusedIsNotRestartable(m.live, m.approvals, Next(m, move).approvals);
      }
  }

  /** In order and in its first life, a workflow keeps its shape exactly when the move is not the handler
      scheduling a retry at the finish. */
  lemma MoveKeepsShape(m: Machine, move: Move)
    requires Inv(m) && Shaped(m)
    ensures Shaped(Next(m, move)) <==> !(move.Catch? && LosesResult(m))
  {
    hide Good, Order, Shape, Dispatch, Handle, Resumed, PhaseOk;
    match move
    case Turn(o) => if m.phase.Looping? { TurnKeepsInv(m, o); }
    case Catch(now) => if m.phase.Raising? { CatchKeepsInv(m, now); }
    case Resume(id, run, start) => ResumeInOrder(m, id, run, start);
    case AddChild(child) => AddChildInOrder(m, child);
    case Crash =>
    case _ => RefusalsStay(m, move);
  }

  lemma CreatedInOrder(approvals: map<ApprovalId, A.Approval>, nextApproval: ApprovalId, run: RunId, runType: RunType,
                       terms: Terms, start: Start)
    ensures var m := Created(approvals, nextApproval, run, runType, terms, start); InOrder(m) && Shaped(m)
  {
    hide Order, Shape, Entered;
    var f := CreateWorkflow(run, runType);
    CreatedHasShape(run, runType);
    ShapeIsOrder(f);
    EnteredInOrder(Machine(approvals, nextApproval, FirstWrite(f), f, run, None, terms, Over, false, []), start);
  }
}
