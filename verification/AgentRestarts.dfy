/** Runs that begin on a workflow that has ended. start_workflow lets them: they find nothing to do exactly
    when the workflow is not restartable, and otherwise make calls without bound. */
module AgentRestarts {
  import opened Common
  import opened WorkflowSteps
  import opened WorkflowShape
  import opened WorkflowRedo
  import opened WorkflowAudit
  import opened WorkflowEvolution
  import opened WorkflowIds
  import opened AgentSteps
  import opened AgentSafety
  import opened AgentOrder
  import opened AgentHistory
  import opened AgentOutcomes
  import A = Approvals

  // ---------- ended and not restartable ----------

  /** The workflow has ended and no run that begins on it can work on it. */
  ghost predicate Closed(m: Machine) {
    && Inv(m) && m.file.saved.status.Terminal() && !Restartable(m.file.saved, m.approvals)
    && (!m.phase.Over? ==> m.live.status == m.file.saved.status && m.live.current == m.file.saved.current)
  }

  lemma ClosedTurn(m: Machine, o: Oracle)
    requires Closed(m) && m.phase.Looping?
    ensures var n := Dispatch(m, o);
            Closed(n) && n.calls == m.calls && n.live == m.live && n.file == m.file && n.approvals == m.approvals
  {
    hide Good, Order, Find, Ids;
    TurnKeepsInv(m, o);
    LoopPlace(m);
  }

  lemma ClosedMove(m: Machine, move: Move)
    requires Closed(m)
    ensures Closed(Next(m, move)) && Next(m, move).calls == m.calls
  {
    hide Good, InOrder, Dispatch, Handle, Resumed, Restartable, Refused, Persist;
    MoveKeepsInv(m, move);
    match move
    case Turn(o) => if m.phase.Looping? { ClosedTurn(m, o); }
    case Catch(now) =>
      if m.phase.Raising? {
        ClosedCatch(m, now);
        SameRestartable(m.file.saved, Handle(m, now).file.saved, m.approvals);
      }
    case Resume(id, run, start) =>
      ClosedResume(m, id, run, start);
      SameRestartable(m.file.saved, Resumed(m, id, run, start).file.saved, m.approvals);
    case AddChild(child) =>
      ClosedChild(m, child);
      SameRestartable(m.file.saved, Next(m, move).file.saved, m.approvals);
    case Crash =>
    case _ =>
      RefusalsStay(m, move);
      RefusedIsNotRestartable(m.file.saved, m.approvals, Next(m, move).approvals);
  }

  lemma ClosedChild(m: Machine, child: WorkflowId)
    requires Closed(m)
    ensures var n := Next(m, AddChild(child));
            && n.calls == m.calls && n.approvals == m.approvals
            && (!n.phase.Over? ==> n.live.status == m.file.saved.status && n.live.current == m.file.saved.current)
            && n.file.saved.status == m.file.saved.status && n.file.saved.current == m.file.saved.current
  {
    hide Good, InOrder, Restartable, Difference;
  }

  lemma ClosedCatch(m: Machine, now: Time)
    requires Closed(m) && m.phase.Raising?
    ensures var n := Handle(m, now);
            n.live == m.live && n.file.saved == m.live && n.calls == m.calls && n.approvals == m.approvals
  {
    hide Good, Order, Shape, WaitForRetry, FailWorkflow, Persist;
    CatchKeepsInv(m, now);
    HandleStays(m, now);
    PersistSaves(m.(live := FailWorkflow(m.live, FaultOf(m.phase.cause)).flow, phase := Over));
    PersistSaves(m.(live := WaitForRetry(m.live, FaultOf(m.phase.cause), now).flow, phase := Over));
  }

  lemma ClosedResume(m: Machine, id: ApprovalId, run: RunId, start: Start)
    requires Closed(m)
    ensures var n := Resumed(m, id, run, start);
            && n.calls == m.calls && n.approvals == m.approvals
            && n.file.saved.status == m.file.saved.status && n.file.saved.current == m.file.saved.current
            && (!n.phase.Over? ==> n.live.status == m.file.saved.status && n.live.current == m.file.saved.current)
  {
    hide Good, InOrder, Restartable, Entered, Persist;
    ResumeEffect(m, id, run, start);
    ResumedKeepsApprovals(m, id, run, start);
  }

  lemma ResumedKeepsApprovals(m: Machine, id: ApprovalId, run: RunId, start: Start)
    ensures Resumed(m, id, run, start).approvals == m.approvals
  {
  }

  /** Whatever happens further, a closed workflow makes no more calls and stays closed. */
  lemma {:induction false} ClosedForever(m: Machine, moves: seq<Move>)
    requires Closed(m)
    ensures Closed(After(m, moves)) && After(m, moves).calls == m.calls
    decreases |moves|
  {
    hide Closed, Next;
    if moves != [] {
      ClosedForever(m, moves[..|moves| - 1]);
      ClosedMove(After(m, moves[..|moves| - 1]), moves[|moves| - 1]);
    }
  }

  // ---------- restartable: one more call each time ----------

  /** The terms under which a run on this approval makes its call at once. */
  predicate MayCall(m: Machine, id: ApprovalId, terms: Terms) {
    && id in m.approvals && terms.delegated
    && (terms.policy.Allow?
        || (terms.policy.NeedsApproval? && m.approvals[id].status.Resumed?
            && Agrees(terms.action, m.approvals[id].action)))
  }

  /** The workflow failed and stands at its action; a run can begin on it. */
  predicate Stuck(m: Machine, id: ApprovalId) {
    && Finds(m, id) && m.file.saved.status.FailedFlow? && m.file.saved.current.ActionStep?
    && Find(m.file.saved.steps, m.file.saved.current).Some?
  }

  const NO_RETRIES := RetryPolicy(0, 0)

  /** A tool that fails for good, at some time. */
  function FailingAt(now: Time): Oracle { Oracle(now, None, CallOutcome.Failed(Fault("", "", false)), 0, None) }

  lemma ResumedReady(m: Machine, id: ApprovalId, run: RunId, policy: RetryPolicy, terms: Terms)
    requires Finds(m, id)
    ensures var n := Resumed(m, id, run, Ready(policy, terms));
            && n.phase.Looping? && n.terms == terms && n.held == Some(Held(id, m.approvals[id])) && !n.answered
            && n.approvals == m.approvals && n.nextApproval == m.nextApproval && n.calls == m.calls
            && n.live == n.file.saved && n.live.steps == m.file.saved.steps && n.live.runType == m.file.saved.runType
            && n.live.status == m.file.saved.status && n.live.current == m.file.saved.current
            && n.live.workflowId == m.file.saved.workflowId && n.live.retryPolicy == policy
  {
    hide Difference;
  }

  /** A run that stands at its action and may call does so. */
  lemma CallIsMade(m: Machine, now: Time)
    requires m.phase.Looping? && m.live.current.ActionStep? && Find(m.live.steps, m.live.current).Some?
    requires m.held.Some? && MayCall(m, m.held.value.id, m.terms)
    requires m.terms.policy.NeedsApproval? ==> m.held.value.copy == m.approvals[m.held.value.id]
    ensures var n := Dispatch(m, FailingAt(now));
            && OneMoreCall(m, n) && n.phase == Raising(Foreign(Fault("", "", false)), true)
            && n.live == m.live && n.approvals == m.approvals
  {
    hide Find, Agrees, Persist;
    PersistSaves(m);
  }

  /** Failing a failed workflow writes it and leaves it where it stands. */
  lemma FailureIsWritten(m: Machine, now: Time)
    requires m.phase == Raising(Foreign(Fault("", "", false)), true) && m.live.status.FailedFlow?
    requires m.live.current.ActionStep? && Find(m.live.steps, m.live.current).Some?
    ensures var n := Handle(m, now);
            && n.phase.Over? && n.calls == m.calls && n.approvals == m.approvals
            && n.file.saved.status.FailedFlow? && n.file.saved.current == m.live.current
            && n.file.saved.workflowId == m.live.workflowId
            && Find(n.file.saved.steps, n.file.saved.current).Some?
  {
    hide Find, Persist;
    var fault := Fault("", "", false);
    var f := FailWorkflow(m.live, fault).flow;
    assert FailWorkflow(m.live, fault).Done?;
    FailureMoves(m.live, fault);
    EndingsKeepIds(m.live, fault);
    FoundIsId(m.live, m.live.current);
    IdIsFound(f, f.current);
    PersistSaves(m.(live := f, phase := Over));
  }

  lemma IdIsFound(f: Flow, id: StepId)
    requires id in Ids(f.steps)
    ensures Find(f.steps, id).Some?
  {
    var s :| s in f.steps && s.id == id;
    var k :| 0 <= k < |f.steps| && f.steps[k] == s;
  }

  function OneRestart(id: ApprovalId, run: RunId, terms: Terms): seq<Move> {
    [Resume(id, run, Ready(NO_RETRIES, terms)), Turn(FailingAt(0)), Catch(0)]
  }

  /** The same request for the same approval calls again, and fails again, and nothing else changes. */
  lemma StuckRepeats(m: Machine, id: ApprovalId, run: RunId, terms: Terms)
    requires Stuck(m, id) && MayCall(m, id, terms)
    ensures var n := After(m, OneRestart(id, run, terms));
            Stuck(n, id) && MayCall(n, id, terms) && OneMoreCall(m, n)
  {
    hide Resumed, Dispatch, Handle, Find, Agrees;
    var moves := OneRestart(id, run, terms);
    ResumedReady(m, id, run, NO_RETRIES, terms);
    var a := Resumed(m, id, run, Ready(NO_RETRIES, terms));
    CallIsMade(a, 0);
    var b := Dispatch(a, FailingAt(0));
    FailureIsWritten(b, 0);
    ThreeMoves(m, moves[0], moves[1], moves[2]);
  }

  function Restarted(id: ApprovalId, run: RunId, terms: Terms, k: nat): seq<Move> {
    if k == 0 then [] else Restarted(id, run, terms, k - 1) + OneRestart(id, run, terms)
  }

  /** Posting the same request k times makes k more calls. */
  lemma {:induction false} StuckCallsForever(m: Machine, id: ApprovalId, run: RunId, terms: Terms, k: nat)
    requires Stuck(m, id) && MayCall(m, id, terms)
    ensures var n := After(m, Restarted(id, run, terms, k));
            Stuck(n, id) && MayCall(n, id, terms) && |n.calls| == |m.calls| + k
  {
    hide Stuck, MayCall, OneRestart, Next;
    if k > 0 {
      StuckCallsForever(m, id, run, terms, k - 1);
      var n := After(m, Restarted(id, run, terms, k - 1));
      StuckRepeats(n, id, run, terms);
      AfterThen(m, Restarted(id, run, terms, k - 1), OneRestart(id, run, terms));
    }
  }

  // ---------- from any restartable state to the stuck one ----------

  lemma FailedAtWait(f: Flow)
    requires Order(f) && f.status.FailedFlow? && f.current.Wait()
    ensures Find(f.steps, f.current).Some? && f.steps[Find(f.steps, f.current).value].status.Failed? && Action(f).Some?
  {
    hide RetriesNumbered;
    ActionIsFirst(f);
    if Shape(f) {
      var k := CurrentIsFound(f);
    } else {
      var k := RedoCurrentIsFound(f);
    }
  }

  /** Resuming at a failed wait succeeds and leads to the action of the failed workflow. */
  lemma FailedWaitResumes(f: Flow)
    requires Order(f) && f.status.FailedFlow? && f.current.Wait()
    ensures var r := if f.current.RetryStep? then ResumeFromRetry(f) else ResumeFromApproval(f, f.current.approval);
            && r.Done? && r.flow.status.FailedFlow? && r.flow.current.ActionStep?
            && Find(r.flow.steps, r.flow.current).Some?
            && r.flow.workflowId == f.workflowId
  {
    hide Order;
    FailedAtWait(f);
    var id := if f.current.ApprovalStep? then f.current.approval else 0;
    ResumesKeepIds(f, id);
    FoundIsId(f, ActionStep(f.runType));
    hide Find;
    assert f.current.RetryStep? ==> ResumeFromRetry(f).Done?;
    assert f.current.ApprovalStep? ==> ResumeFromApproval(f, id).Done?;
    ResumesMove(f, id);
    IdIsFound(ResumeFromRetry(f).flow, ActionStep(f.runType));
    IdIsFound(ResumeFromApproval(f, id).flow, ActionStep(f.runType));
  }

  const ALLOW_ALL := Terms(A.Action("", None, None, None, None), true, Allow)

  /** A time at which the current wait is due. */
  function DueTime(f: Flow): Time {
    match Find(f.steps, f.current)
    case None => 0
    case Some(k) => if f.steps[k].nextRetryAt.Some? then f.steps[k].nextRetryAt.value else 0
  }

  /** A run stands at the action of a failed workflow under terms that allow everything. */
  predicate ReadyToCall(m: Machine, n: Machine, id: ApprovalId) {
    && n.phase.Looping? && n.terms == ALLOW_ALL && n.calls == m.calls && n.held.Some? && n.held.value.id in n.approvals
    && n.live.status.FailedFlow? && n.live.current.ActionStep? && Find(n.live.steps, n.live.current).Some?
    && n.live.workflowId == m.live.workflowId
    && id in n.approvals && n.approvals[id].workflowId == m.live.workflowId
  }

  lemma FailedRetryTurn(m: Machine, id: ApprovalId)
    requires m.phase.Looping? && Order(m.live) && m.live.status.FailedFlow? && m.live.current.RetryStep?
    requires m.terms == ALLOW_ALL
    requires m.held.Some? && m.held.value.id in m.approvals && id in m.approvals
    requires m.approvals[id].workflowId == m.live.workflowId
    ensures ReadyToCall(m, Dispatch(m, FailingAt(DueTime(m.live))), id)
  {
    hide Order, ResumeFromRetry, Find, Persist;
    FailedWaitResumes(m.live);
    FailedAtWait(m.live);
    PersistSaves(m.(live := ResumeFromRetry(m.live).flow));
  }

  lemma MarkedStays(a: A.Approval, run: RunId)
    ensures a.status.Approved? ==> A.MarkedResumed(a, run).Ok?
    ensures A.MarkedResumed(a, run).Ok? ==> A.MarkedResumed(a, run).approval.workflowId == a.workflowId
  {
  }

  lemma FailedApprovalTurn(m: Machine, id: ApprovalId, now: Time)
    requires m.phase.Looping? && Order(m.live) && m.live.status.FailedFlow? && m.live.current.ApprovalStep?
    requires m.terms == ALLOW_ALL
    requires m.live.current.approval in m.approvals
    requires var s := m.approvals[m.live.current.approval].status; s.Approved? || s.Resumed?
    requires id in m.approvals && m.approvals[id].workflowId == m.live.workflowId
    ensures ReadyToCall(m, Dispatch(m, FailingAt(now)), id)
  {
    hide Order, ResumeFromApproval, Find, Persist, A.MarkedResumed;
    var aid := m.live.current.approval;
    FailedWaitResumes(m.live);
    FailedAtWait(m.live);
    MarkedStays(m.approvals[aid], m.run);
    forall n: Machine | n.live == ResumeFromApproval(m.live, aid).flow
      ensures Persist(n) == n.(file := Persist(n).file) && Persist(n).file.saved == n.live
    {
      PersistSaves(n);
    }
  }

  lemma CallAndFail(m: Machine, n: Machine, id: ApprovalId)
    requires ReadyToCall(m, n, id)
    ensures var x := Handle(Dispatch(n, FailingAt(0)), 0);
            Dispatch(n, FailingAt(0)).phase.Raising? && Stuck(x, id) && OneMoreCall(m, x)
  {
    hide Find, Dispatch, Handle;
    CallIsMade(n, 0);
    FailureIsWritten(Dispatch(n, FailingAt(0)), 0);
  }

  /** What is done to make a restartable workflow call: begin a run, approve what it waits for, and let it
      take two turns. */
  function Provoking(m: Machine, id: ApprovalId, run: RunId): seq<Move> {
    var f := m.file.saved;
    match f.current
    case ActionStep(_) => []
    case RetryStep(_) => [Resume(id, run, Ready(NO_RETRIES, ALLOW_ALL)), Turn(FailingAt(DueTime(f))),
                          Turn(FailingAt(0)), Catch(0)]
    case ApprovalStep(aid) =>
      [Resume(id, run, Ready(NO_RETRIES, ALLOW_ALL)), Decide(aid, Approve), Turn(FailingAt(0)), Turn(FailingAt(0)),
       Catch(0)]
    case FinishStep => []
  }

  lemma FourMoves(m: Machine, a: Move, b: Move, c: Move, d: Move)
    ensures After(m, [a, b, c, d]) == Next(Next(Next(Next(m, a), b), c), d)
  {
    hide Next;
    ThreeMoves(m, a, b, c);
    assert [a, b, c, d][..3] == [a, b, c];
  }

  lemma FiveMoves(m: Machine, a: Move, b: Move, c: Move, d: Move, e: Move)
    ensures After(m, [a, b, c, d, e]) == Next(Next(Next(Next(Next(m, a), b), c), d), e)
  {
    hide Next;
    FourMoves(m, a, b, c, d);
    assert [a, b, c, d, e][..4] == [a, b, c, d];
  }

  lemma SameDueTime(f: Flow, g: Flow)
    requires g.steps == f.steps && g.current == f.current
    ensures DueTime(g) == DueTime(f)
  {
  }

  lemma RestartAtRetry(m: Machine, id: ApprovalId, run: RunId)
    requires Inv(m) && Finds(m, id) && Restartable(m.file.saved, m.approvals) && m.file.saved.current.RetryStep?
    ensures var n := After(m, Provoking(m, id, run)); Stuck(n, id) && OneMoreCall(m, n)
  {
    hide Good, Order, Resumed, Dispatch, Handle, Find, PhaseOk;
    var moves := Provoking(m, id, run);
    ResumedReady(m, id, run, NO_RETRIES, ALLOW_ALL);
    ResumeInOrder(m, id, run, Ready(NO_RETRIES, ALLOW_ALL));
    var a := Resumed(m, id, run, Ready(NO_RETRIES, ALLOW_ALL));
    SameDueTime(m.file.saved, a.live);
    FailedRetryTurn(a, id);
    CallAndFail(a, Dispatch(a, FailingAt(DueTime(a.live))), id);
    FourMoves(m, moves[0], moves[1], moves[2], moves[3]);
  }

  lemma ApprovedNow(m: Machine, aid: ApprovalId)
    requires aid in m.approvals && !Refused(m.approvals, aid)
    ensures var n := Decided(m, aid, Approve);
            && n == m.(approvals := n.approvals) && n.approvals.Keys == m.approvals.Keys
            && (n.approvals[aid].status.Approved? || n.approvals[aid].status.Resumed?)
            && forall id :: id in m.approvals ==> n.approvals[id].workflowId == m.approvals[id].workflowId
  {
  }

  lemma RestartAtApproval(m: Machine, id: ApprovalId, run: RunId)
    requires Inv(m) && Finds(m, id) && Restartable(m.file.saved, m.approvals) && m.file.saved.current.ApprovalStep?
    ensures var n := After(m, Provoking(m, id, run)); Stuck(n, id) && OneMoreCall(m, n)
  {
    hide Good, Order, Resumed, Dispatch, Handle, Find, PhaseOk, Ids, Decided;
    var moves := Provoking(m, id, run);
    var aid := m.file.saved.current.approval;
    OrderPlace(m.file.saved);
    FoundIsId(m.file.saved, m.file.saved.current);
    ApprovalFacts(m, aid);
    ResumedReady(m, id, run, NO_RETRIES, ALLOW_ALL);
    ResumeInOrder(m, id, run, Ready(NO_RETRIES, ALLOW_ALL));
    var a := Resumed(m, id, run, Ready(NO_RETRIES, ALLOW_ALL));
    ApprovedNow(a, aid);
    var b := Decided(a, aid, Approve);
    FailedApprovalTurn(b, id, 0);
    CallAndFail(b, Dispatch(b, FailingAt(0)), id);
    FiveMoves(m, moves[0], moves[1], moves[2], moves[3], moves[4]);
  }

  /** From every restartable state a run leads to the stuck one. */
  lemma RestartGetsStuck(m: Machine, id: ApprovalId, run: RunId)
    requires Inv(m) && Finds(m, id) && Restartable(m.file.saved, m.approvals)
    ensures var n := After(m, Provoking(m, id, run)); Stuck(n, id) && |n.calls| >= |m.calls|
  {
    hide Good, Order, Find, After;
    OrderPlace(m.file.saved);
    match m.file.saved.current
    case ActionStep(_) => assert After(m, []) == m by { NoMoves(m); }
    case RetryStep(_) => RestartAtRetry(m, id, run);
    case ApprovalStep(_) => RestartAtApproval(m, id, run);
  }

  lemma NoMoves(m: Machine)
    ensures After(m, []) == m
  {
  }

  lemma StuckMayCall(m: Machine, id: ApprovalId)
    requires Stuck(m, id)
    ensures MayCall(m, id, ALLOW_ALL)
  {
  }

  /** A restartable workflow makes any number of further calls. */
  lemma RestartsCallForever(m: Machine, id: ApprovalId, run: RunId, k: nat) returns (moves: seq<Move>)
    requires Inv(m) && Finds(m, id) && Restartable(m.file.saved, m.approvals)
    ensures |After(m, moves).calls| >= |m.calls| + k
  {
    hide Inv, Finds, Restartable, Stuck, MayCall, Provoking, Next;
    RestartGetsStuck(m, id, run);
    var n := After(m, Provoking(m, id, run));
    StuckMayCall(n, id);
    StuckCallsForever(n, id, run, ALLOW_ALL, k);
    AfterThen(m, Provoking(m, id, run), Restarted(id, run, ALLOW_ALL, k));
    moves := Provoking(m, id, run) + Restarted(id, run, ALLOW_ALL, k);
  }

  /** An ended workflow that a run can begin on makes no more calls, in every further history, exactly when
      it is not restartable: when it succeeded, or failed at its finish or at a refused approval. */
  lemma CallsStopExactlyWhen(m: Machine, id: ApprovalId)
    requires Inv(m) && Finds(m, id) && m.file.saved.status.Terminal()
    ensures (forall moves :: After(m, moves).calls == m.calls) <==> !Restartable(m.file.saved, m.approvals)
  {
    hide Good, InOrder, Restartable, After;
    if Restartable(m.file.saved, m.approvals) {
      var moves := RestartsCallForever(m, id, 0, 1);
      assert After(m, moves).calls != m.calls;
    } else {
      forall moves ensures After(m, moves).calls == m.calls {
        ClosedForever(m, moves);
      }
    }
  }

  ghost predicate BoundedBy(m: Machine, bound: nat) { forall moves :: |After(m, moves).calls| <= bound }

  /** The number of calls has a bound at all exactly then. */
  lemma CallsBoundedExactlyWhen(m: Machine, id: ApprovalId)
    requires Inv(m) && Finds(m, id) && m.file.saved.status.Terminal()
    ensures (exists bound: nat :: BoundedBy(m, bound)) <==> !Restartable(m.file.saved, m.approvals)
  {
    hide Good, InOrder, Restartable, After;
    if Restartable(m.file.saved, m.approvals) {
      forall bound: nat ensures !BoundedBy(m, bound) {
        var moves := RestartsCallForever(m, id, 0, bound + 1);
        assert |After(m, moves).calls| > bound;
      }
    } else {
      forall moves ensures |After(m, moves).calls| <= |m.calls| {
        ClosedForever(m, moves);
      }
      assert BoundedBy(m, |m.calls|);
    }
  }

  /** On an ended workflow even the handler can raise: a retry is scheduled, which an ended workflow refuses,
      and nothing of it reaches the file. */
  lemma HandlerRaisesOnEnded(m: Machine, now: Time)
    requires m.phase.Raising? && m.live.status.Terminal()
    requires m.phase.budgetLoaded && CanScheduleRetry(m.live, FaultOf(m.phase.cause))
    ensures WaitForRetry(m.live, FaultOf(m.phase.cause), now).Raised?
    ensures Handle(m, now).file == m.file && Handle(m, now).phase.Over?
  {
    hide WaitForRetry;
    RetryNeedsOpen(m.live, FaultOf(m.phase.cause), now);
  }

  // ---------- one run ----------

  /** What happens between the start of a run and the next one. */
  predicate OfOneRun(moves: seq<Move>) {
    forall i :: 0 <= i < |moves| ==> moves[i].Turn? || moves[i].Catch? || moves[i].Decide?
  }

  /** The file stays in order, no operation on the workflow raises, and an ended workflow makes no call. */
  predicate Behaves(m: Machine, n: Machine) {
    && Order(n.file.saved)
    && !(n.phase.Raising? && n.phase.cause.WorkflowBroken?)
    && (m.file.saved.status.Terminal() ==> n.calls == m.calls)
  }

  lemma {:induction false} RunKeepsInv(m: Machine, moves: seq<Move>)
    requires Inv(m) && OfOneRun(moves)
    ensures Inv(After(m, moves))
    decreases |moves|
  {
    hide Inv, Next;
    if moves != [] {
      var n := |moves| - 1;
      RunKeepsInv(m, moves[..n]);
      MoveKeepsInv(After(m, moves[..n]), moves[n]);
    }
  }

  lemma BeginsInv(m: Machine, id: ApprovalId, run: RunId, start: Start)
    requires Inv(m) && Finds(m, id) && !Restartable(m.file.saved, m.approvals)
    ensures Inv(Resumed(m, id, run, start))
  {
    hide Inv, Finds, Restartable, Resumed;
    MoveKeepsInv(m, Resume(id, run, start));
  }

  lemma AfterFirst(m: Machine, first: Move, moves: seq<Move>)
    ensures After(m, [first] + moves) == After(Next(m, first), moves)
  {
    hide Next;
    AfterThen(m, [first], moves);
    assert [first][..0] == [];
  }

  lemma InvBehaves(m: Machine, n: Machine)
    requires Inv(n) && (m.file.saved.status.Terminal() ==> n.calls == m.calls)
    ensures Behaves(m, n)
  {
    hide Order;
  }

  lemma RestartMisbehaves(m: Machine, id: ApprovalId, run: RunId) returns (start: Start, moves: seq<Move>)
    requires Inv(m) && Finds(m, id) && Restartable(m.file.saved, m.approvals)
    ensures OfOneRun(moves) && !Behaves(m, After(Resumed(m, id, run, start), moves))
  {
    hide Good, Order, Find, After, Resumed;
    OrderPlace(m.file.saved);
    start := Ready(NO_RETRIES, ALLOW_ALL);
    var first := Resume(id, run, start);
    var all;
    match m.file.saved.current {
      case ActionStep(_) =>
        StuckMayCall(m, id);
        StuckRepeats(m, id, run, ALLOW_ALL);
        all := OneRestart(id, run, ALLOW_ALL);
      case RetryStep(_) =>
        RestartAtRetry(m, id, run);
        all := Provoking(m, id, run);
      case ApprovalStep(_) =>
        RestartAtApproval(m, id, run);
        all := Provoking(m, id, run);
    }
    moves := all[1..];
    assert all == [first] + moves;
    AfterFirst(m, first, moves);
  }

  /** The law of a run, for a caller to check before it: whatever follows, the file stays in order, no
      operation on the workflow raises, and an ended workflow makes no call, exactly when the stored workflow
      is not restartable. */
  lemma RunBehavesExactlyWhen(m: Machine, id: ApprovalId)
    requires Inv(m) && Finds(m, id)
    ensures (forall run, start, moves :: OfOneRun(moves) ==> Behaves(m, After(Resumed(m, id, run, start), moves)))
            <==> !Restartable(m.file.saved, m.approvals)
  {
    hide Good, InOrder, Restartable, After, Resumed, Behaves, OfOneRun;
    if Restartable(m.file.saved, m.approvals) {
      var start, moves := RestartMisbehaves(m, id, 0);
    } else {
      forall run, start, moves | OfOneRun(moves) ensures Behaves(m, After(Resumed(m, id, run, start), moves)) {
        BeginsInv(m, id, run, start);
        RunKeepsInv(Resumed(m, id, run, start), moves);
        if m.file.saved.status.Terminal() {
          ClosedForever(m, [Resume(id, run, start)] + moves);
          AfterFirst(m, Resume(id, run, start), moves);
        }
        InvBehaves(m, After(Resumed(m, id, run, start), moves));
      }
    }
  }

  /** The same at the end of every undisturbed history of a workflow, for a run on any of its approvals; and
      for a workflow that has ended, whether it can make another call in any further history. */
  lemma NextRunLaw(b: Beginning, moves: seq<Move>, id: ApprovalId)
    requires Sound(b) && Undisturbed(Begun(b), moves) && Finds(History(b, moves), id)
    ensures var m := History(b, moves);
            (forall run, start, more :: OfOneRun(more) ==> Behaves(m, After(Resumed(m, id, run, start), more)))
            <==> !Restartable(m.file.saved, m.approvals)
    ensures var m := History(b, moves);
            m.file.saved.status.Terminal() ==>
              ((forall more :: After(m, more).calls == m.calls) <==> !Restartable(m.file.saved, m.approvals))
  {
    hide Sound, Undisturbed, Inv, History, After, Begun, Finds, Restartable, Behaves, OfOneRun, Resumed;
    UndisturbedHasInv(b, moves);
    RunBehavesExactlyWhen(History(b, moves), id);
    if History(b, moves).file.saved.status.Terminal() { CallsStopExactlyWhen(History(b, moves), id); }
  }
}
