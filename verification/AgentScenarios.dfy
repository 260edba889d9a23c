/** Two histories that happen: a request posted again for a failed workflow calls again, as often as it is
    posted; and a run that takes all five turns. */
module AgentScenarios {
  import opened Common
  import opened WorkflowSteps
  import opened WorkflowShape
  import opened WorkflowRedo
  import opened WorkflowAudit
  import opened WorkflowEvolution
  import opened WorkflowIds
  import opened AgentSteps
  import opened AgentSafety
  import opened AgentOrder
  import opened AgentHistory
  import opened AgentTermination
  import opened AgentOutcomes
  import opened AgentRestarts
  import A = Approvals

  // ---------- the opening: asked, approved, resumed, called, failed ----------

  /** A request that policy lets through with an approval only. */
  function Asking(action: A.Action): Terms { Terms(action, true, NeedsApproval) }

  function Opening(action: A.Action, runType: RunType, policy: RetryPolicy): Beginning {
    Beginning(map[], 0, 1, runType, Asking(action), Ready(policy, Asking(action)))
  }

  function Failing(fault: Fault): Oracle { Oracle(0, None, CallOutcome.Failed(fault), 0, None) }

  function OpeningMoves(action: A.Action, policy: RetryPolicy, fault: Fault): seq<Move> {
    [Turn(Failing(fault)), Turn(Failing(fault)), Decide(0, Approve), Resume(0, 2, Ready(policy, Asking(action))),
     Turn(Failing(fault)), Turn(Failing(fault)), Catch(0)]
  }

  lemma Began(action: A.Action, runType: RunType, policy: RetryPolicy)
    ensures var m := Begun(Opening(action, runType, policy));
            && Sound(Opening(action, runType, policy)) && Inv(m)
            && m.phase.Looping? && m.live.current.ActionStep? && m.terms == Asking(action) && m.held.None?
            && m.nextApproval == 0
            && m.live.retryPolicy == policy && m.calls == [] && m.live.retryState.attemptsUsed == 0
            && !m.live.status.Terminal()
            && m.live.runType == runType
  {
    hide Inv, Difference;
    BegunHasInv(Opening(action, runType, policy));
  }

  /** A run that must ask for its approval does so. */
  lemma Asked(m: Machine, o: Oracle)
    requires Inv(m) && m.phase.Looping? && m.live.current.ActionStep? && MustAsk(m) && o.early.None?
    ensures var n := Dispatch(m, o); var id := m.nextApproval;
            && Inv(n) && n.phase.Looping? && n.live.current == ApprovalStep(id) && n.terms == m.terms
            && n.calls == m.calls
            && id in n.approvals && n.approvals[id].status.Pending? && n.approvals[id].action == m.terms.action
            && n.approvals[id].workflowId == n.live.workflowId && n.live.status.Waiting? && n.live == n.file.saved
            && SameRetries(m.live, n.live)
  {
    hide Good, Order, Shape, Find, RequestApproval, MakeApprovedCall, MakeCall, Ids, Agrees, Persist;
    TurnKeepsInv(m, o);
    LoopPlace(m);
    var p := Persist(m);
    PersistSaves(m);
    Persists(m);
    assert Matches(p) == Matches(m);
    assert Inv(p);
    RequestInOrder(p);
    RequestTurn(p);
    RequestWrites(p);
  }

  lemma RequestWrites(m: Machine)
    requires m.phase.Looping?
    ensures var n := RequestApproval(m);
            && SameRetries(m.live, n.live) && (n.phase.Looping? ==> n.live == n.file.saved) && n.calls == m.calls
  {
    hide WaitForApproval, Written;
    WaitsTouchOnlyTheirs(m.live, m.nextApproval);
    WrittenSaves(m.file, WaitForApproval(m.live, m.nextApproval).flow);
  }

  /** An approved wait is resumed, and the run holds the resumed approval. */
  lemma Continued(m: Machine, o: Oracle)
    requires Inv(m) && m.phase.Looping? && m.live.current.ApprovalStep? && m.live.current.approval in m.approvals
    requires m.approvals[m.live.current.approval].status.Approved?
    ensures var n := Dispatch(m, o); var id := m.live.current.approval;
            && Inv(n) && n.phase.Looping? && AtRunningAction(n.live) && n.terms == m.terms && n.calls == m.calls
            && id in n.approvals && n.held == Some(Held(id, n.approvals[id])) && n.approvals[id].status.Resumed?
            && n.approvals[id].action == m.approvals[id].action
            && n.approvals[id].workflowId == m.approvals[id].workflowId
            && SameRetries(m.live, n.live) && n.nextApproval == m.nextApproval
  {
    hide Good, Order, Shape, Find, ResumeFromApproval, Ids, Persist, A.MarkedResumed;
    TurnKeepsInv(m, o);
    LoopPlace(m);
    ApprovalWaitInOrder(m);
    var id := m.live.current.approval;
    MarkedStays(m.approvals[id], m.run);
    MarkedKeepsAction(m.approvals[id], m.run);
    WaitsTouchOnlyTheirs(m.live, id);
    var f := ResumeFromApproval(m.live, id).flow;
    forall n: Machine | n.live == f ensures Persist(n) == n.(file := Persist(n).file) && Persist(n).file.saved == f {
      PersistSaves(n);
    }
  }

  /** A call the held approval grants is made; the tool fails. */
  lemma CalledInVain(m: Machine, fault: Fault)
    requires Inv(m) && m.phase.Looping? && AtRunningAction(m.live) && m.terms.delegated && m.terms.policy.NeedsApproval?
    requires m.held.Some? && m.held.value.copy.status.Resumed? && Agrees(m.terms.action, m.held.value.copy.action)
    ensures var n := Dispatch(m, Failing(fault));
            && Inv(n) && n.phase == Raising(Foreign(fault), true) && n.live == m.live && n.approvals == m.approvals
            && OneMoreCall(m, n) && n.nextApproval == m.nextApproval && n.held == m.held
  {
    hide Good, Order, Find, Agrees, Persist, Ids;
    TurnKeepsInv(m, Failing(fault));
    LoopPlace(m);
    PersistSaves(m);
  }

  lemma ApprovedByOperator(m: Machine, id: ApprovalId)
    requires id in m.approvals && m.approvals[id].status.Pending?
    ensures var n := Decided(m, id, Approve);
            && n == m.(approvals := n.approvals) && n.approvals.Keys == m.approvals.Keys
            && n.approvals[id].status.Approved? && n.approvals[id].action == m.approvals[id].action
            && n.approvals[id].workflowId == m.approvals[id].workflowId
  {
  }

  lemma ResumedInOrder(m: Machine, id: ApprovalId, run: RunId, policy: RetryPolicy, terms: Terms)
    requires Inv(m) && Finds(m, id) && !m.file.saved.status.Terminal()
    ensures Inv(Resumed(m, id, run, Ready(policy, terms)))
    ensures Spent(Resumed(m, id, run, Ready(policy, terms)).live) == Spent(m.file.saved)
  {
    hide Inv, Finds, Resumed;
    MoveKeepsInv(m, Resume(id, run, Ready(policy, terms)));
    ResumeEffect(m, id, run, Ready(policy, terms));
    assert !Restartable(m.file.saved, m.approvals);
    ResumedReady(m, id, run, policy, terms);
  }

  /** Where the opening leads: the call was made and failed, the run is about to handle it. */
  predicate Called(m: Machine, action: A.Action, policy: RetryPolicy, fault: Fault) {
    && m.phase == Raising(Foreign(fault), true) && AtRunningAction(m.live) && |m.calls| == 1
    && 0 in m.approvals && m.approvals[0].status.Resumed? && m.approvals[0].action == action
    && m.approvals[0].workflowId == m.live.workflowId && m.live.retryPolicy == policy && Spent(m.live) == 0
  }

  /** The first run: it asks, finds the approval pending and ends; the operator approves. */
  lemma FirstRun(action: A.Action, runType: RunType, policy: RetryPolicy, o: Oracle)
    requires o.early.None?
    ensures var m := Decided(Dispatch(Dispatch(Begun(Opening(action, runType, policy)), o), o), 0, Approve);
            && Begun(Opening(action, runType, policy)).phase.Looping?
            && Dispatch(Begun(Opening(action, runType, policy)), o).phase.Looping?
            && Inv(m) && m.phase.Over? && m.calls == [] && 0 in m.approvals && m.approvals[0].status.Approved?
            && m.approvals[0].action == action && m.approvals[0].workflowId == m.file.saved.workflowId
            && m.file.saved.current == ApprovalStep(0) && !m.file.saved.status.Terminal() && Spent(m.file.saved) == 0
  {
    hide Inv, Begun, Dispatch, Decided, Opening;
    Began(action, runType, policy);
    var m := Begun(Opening(action, runType, policy));
    NotHeldMustAsk(m);
    Asked(m, o);
    var n := Dispatch(m, o);
    ApprovalDecides(n, o, 0);
    TurnKeepsInv(n, o);
    var x := Dispatch(n, o);
    ApprovedByOperator(x, 0);
    MoveKeepsInv(x, Decide(0, Approve));
  }

  lemma NotHeldMustAsk(m: Machine)
    ensures m.held.None? && m.terms.delegated && m.terms.policy.NeedsApproval? ==> MustAsk(m)
  {
  }

  /** The second run: it resumes the approval and calls in vain. */
  lemma SecondRun(m: Machine, action: A.Action, policy: RetryPolicy, fault: Fault)
    requires Inv(m) && m.phase.Over? && m.calls == [] && 0 in m.approvals && m.approvals[0].status.Approved?
    requires m.approvals[0].action == action && m.approvals[0].workflowId == m.file.saved.workflowId
    requires m.file.saved.current == ApprovalStep(0) && !m.file.saved.status.Terminal() && Spent(m.file.saved) == 0
    ensures var a := Resumed(m, 0, 2, Ready(policy, Asking(action))); var b := Dispatch(a, Failing(fault));
            var c := Dispatch(b, Failing(fault));
            a.phase.Looping? && b.phase.Looping? && Inv(c) && Called(c, action, policy, fault)
  {
    hide Inv, Resumed, Dispatch, Agrees;
    ResumedReady(m, 0, 2, policy, Asking(action));
    ResumedInOrder(m, 0, 2, policy, Asking(action));
    var a := Resumed(m, 0, 2, Ready(policy, Asking(action)));
    Continued(a, Failing(fault));
    var b := Dispatch(a, Failing(fault));
    AgreesWithItself(action);
    CalledInVain(b, fault);
  }

  lemma SevenMoves(m: Machine, moves: seq<Move>)
    requires |moves| == 7
    ensures After(m, moves)
         == Next(Next(Next(Next(Next(Next(Next(m, moves[0]), moves[1]), moves[2]), moves[3]), moves[4]), moves[5]),
                 moves[6])
  {
    hide Next;
    assert moves == [moves[0], moves[1], moves[2], moves[3]] + [moves[4], moves[5], moves[6]];
    FourMoves(m, moves[0], moves[1], moves[2], moves[3]);
    var n := After(m, [moves[0], moves[1], moves[2], moves[3]]);
    ThreeMoves(n, moves[4], moves[5], moves[6]);
    AfterThen(m, [moves[0], moves[1], moves[2], moves[3]], [moves[4], moves[5], moves[6]]);
  }

  /** After the opening the handler has dealt with the failed call. */
  lemma OpeningLeads(action: A.Action, runType: RunType, policy: RetryPolicy, fault: Fault) returns (m: Machine)
    ensures Sound(Opening(action, runType, policy))
    ensures Inv(m) && Called(m, action, policy, fault)
    ensures History(Opening(action, runType, policy), OpeningMoves(action, policy, fault)) == Handle(m, 0)
  {
    hide Inv, Begun, Dispatch, Decided, Resumed, Handle, Opening;
    Began(action, runType, policy);
    var o, start := Failing(fault), Begun(Opening(action, runType, policy));
    FirstRun(action, runType, policy, o);
    var x := Decided(Dispatch(Dispatch(start, o), o), 0, Approve);
    SecondRun(x, action, policy, fault);
    m := Dispatch(Dispatch(Resumed(x, 0, 2, Ready(policy, Asking(action))), o), o);
    SevenMoves(start, OpeningMoves(action, policy, fault));
  }

  // ---------- posting the same request again ----------

  /** The agent allows no retries, and a call under a resumed approval fails, so the workflow fails. Posting
      the same request for the same approval k more times makes k more calls. */
  lemma RepeatedRequestCallsForever(action: A.Action, runType: RunType, k: nat)
    ensures var b := Opening(action, runType, NO_RETRIES);
            var moves := OpeningMoves(action, NO_RETRIES, Fault("", "", false)) + Restarted(0, 2, Asking(action), k);
            Sound(b) && History(b, moves).file.saved.status.FailedFlow? && |History(b, moves).calls| == k + 1
  {
    hide Inv, Begun, Dispatch, Decided, Resumed, Opening, Handle, OpeningMoves, Agrees, Restarted, Next;
    var fault := Fault("", "", false);
    var m := OpeningLeads(action, runType, NO_RETRIES, fault);
    var n := Handle(m, 0);
    FailedIsStuck(m, action);
    AgreesWithItself(action);
    StuckCallsForever(n, 0, 2, Asking(action), k);
    AfterThen(Begun(Opening(action, runType, NO_RETRIES)), OpeningMoves(action, NO_RETRIES, fault),
              Restarted(0, 2, Asking(action), k));
  }

  lemma FailedIsStuck(m: Machine, action: A.Action)
    requires Inv(m) && Called(m, action, NO_RETRIES, Fault("", "", false))
    ensures var n := Handle(m, 0);
            Stuck(n, 0) && |n.calls| == 1 && n.approvals == m.approvals
  {
    hide Good, Order, Find, WaitForRetry, FailWorkflow, Persist;
    CatchKeepsInv(m, 0);
    HandleStays(m, 0);
    FailureMoves(m.live, Fault("", "", false));
    OperationsTouchOnlyTheirs(m.live, 0, Fault("", "", false));
    PersistSaves(m.(live := FailWorkflow(m.live, Fault("", "", false)).flow, phase := Over));
    OrderPlace(Handle(m, 0).live);
  }

  // ---------- five turns ----------

  const ONE_RETRY := RetryPolicy(1, 0)
  const TRANSIENT := Fault("", "", true)

  /** A turn that succeeds in everything it tries, at time 0. */
  const SMOOTH := Oracle(0, None, Answered(None, None), 0, None)

  /** After the opening the call is to be retried. */
  lemma RetryIsDue(m: Machine, action: A.Action)
    requires Inv(m) && Called(m, action, ONE_RETRY, TRANSIENT)
    ensures var n := Handle(m, 0);
            && Inv(n) && Finds(n, 0) && n.approvals == m.approvals && n.file.saved.current == RetryStep(1)
            && n.file.saved.status.Waiting?
            && ExecuteRetryWait(n.(phase := Looping), 0).live.current.ActionStep?
  {
    hide Good, Order, Shape, Find, WaitForRetry, FailWorkflow, Persist, ExecuteRetryWait;
    BudgetIsThere(m);
    CatchKeepsInv(m, 0);
    RetryWaitsItsBackoff(m, 0, 0);
    RetriesTouchOnlyTheirs(m.live, TRANSIENT, 0);
    PersistSaves(m.(live := WaitForRetry(m.live, TRANSIENT, 0).flow, phase := Over));
  }

  lemma BudgetIsThere(m: Machine)
    requires Inv(m) && m.live.retryPolicy == ONE_RETRY && Spent(m.live) == 0
    ensures m.live.retryState.retriesRemaining == 1
  {
    OrderNumbers(m.live);
  }

  function OtherAlias(alias: Option<string>): string { if alias.Some? then alias.value + "x" else "" }

  /** The terms of the same request once its agent uses another model. */
  function Other(action: A.Action): Terms { Asking(action.(modelAlias := Some(OtherAlias(action.modelAlias)))) }

  lemma OtherDisagrees(action: A.Action)
    ensures !Agrees(Other(action).action, action)
  {
    assert action.modelAlias.Some? ==> |OtherAlias(action.modelAlias)| == |action.modelAlias.value| + 1;
  }

  /** The turn at a due retry, whichever machine it happens on, as long as the workflow is the same. */
  lemma SameRetryTurn(m: Machine, n: Machine)
    requires m.live.steps == n.live.steps && m.live.current == n.live.current && m.live.runType == n.live.runType
    requires m.live.status == n.live.status && m.phase.Looping? && n.phase.Looping? && n.live.current.RetryStep?
    requires ExecuteRetryWait(m, 0).live.current.ActionStep? && Inv(n)
    ensures var x := Dispatch(n, SMOOTH);
            && Inv(x) && x.phase.Looping? && x.live.current.ActionStep? && x.terms == n.terms && x.held == n.held
            && x.nextApproval == n.nextApproval
  {
    hide Good, Order, Find, ResumeFromRetry, Persist, Ids;
    TurnKeepsInv(n, SMOOTH);
    LoopPlace(n);
    RetryWaitInOrder(n, 0);
    ResumesMove(m.live, 0);
    PersistSaves(n.(live := ResumeFromRetry(n.live).flow));
  }

  /** The third run, whose action the held approval does not grant. */
  lemma ThirdRun(m: Machine, action: A.Action)
    requires Inv(m) && Called(m, action, ONE_RETRY, TRANSIENT)
    ensures var x := Resumed(Handle(m, 0), 0, 3, Ready(ONE_RETRY, Other(action))); var y := Dispatch(x, SMOOTH);
            && x.phase.Looping? && Inv(y) && y.phase.Looping? && y.live.current.ActionStep? && MustAsk(y)
  {
    hide Good, Order, Find, Handle, Resumed, Dispatch, Agrees, ExecuteRetryWait, PhaseOk;
    RetryIsDue(m, action);
    var n := Handle(m, 0);
    ResumedReady(n, 0, 3, ONE_RETRY, Other(action));
    ResumedInOrder(n, 0, 3, ONE_RETRY, Other(action));
    var x := Resumed(n, 0, 3, Ready(ONE_RETRY, Other(action)));
    HandledLive(m);
    SameRetryTurn(n.(phase := Looping), x);
    OtherDisagrees(action);
  }

  lemma HandledLive(m: Machine)
    requires Inv(m) && m.phase.Raising?
    ensures Handle(m, 0).live == Handle(m, 0).file.saved
  {
    hide Inv, Handle;
    CatchKeepsInv(m, 0);
  }

  lemma CallAnswered(m: Machine)
    requires Inv(m) && m.phase.Looping? && AtRunningAction(m.live) && m.terms.delegated && m.terms.policy.NeedsApproval?
    requires m.held.Some? && m.held.value.copy.status.Resumed? && Agrees(m.terms.action, m.held.value.copy.action)
    ensures Dispatch(m, SMOOTH).phase.Looping?
  {
    hide Good, Order, Find, Agrees, Persist, Ids, MakeCall;
    LoopPlace(m);
    PersistSaves(m);
    var p := Persist(m);
    MakeCallInOrder(p, Some(p.held.value.id), SMOOTH.outcome);
  }

  /** From a turn that leads to an action that must ask, four more follow if the operator approves at once. */
  lemma FourMoreTurns(m: Machine, y: Machine)
    requires m.phase.Looping? && y == Dispatch(m, SMOOTH)
    requires Inv(y) && y.phase.Looping? && y.live.current.ActionStep? && MustAsk(y)
    ensures var turn, decide := Turn(SMOOTH), Decide(y.nextApproval, Approve);
            Turns(m, [turn, turn, decide, turn, turn, turn]) == 5
  {
    hide Inv, Turns, After, Dispatch, Decided, MustAsk, Agrees;
    var turn, decide := Turn(SMOOTH), Decide(y.nextApproval, Approve);
    NothingYet(m);
    AfterOne(m, [], turn);
    Asked(y, SMOOTH);
    var a := Dispatch(y, SMOOTH);
    AfterOne(m, [turn], turn);
    ApprovedByOperator(a, y.nextApproval);
    var b := Decided(a, y.nextApproval, Approve);
    MoveKeepsInv(a, decide);
    AfterOne(m, [turn, turn], decide);
    Continued(b, SMOOTH);
    var c := Dispatch(b, SMOOTH);
    AfterOne(m, [turn, turn, decide], turn);
    AskingTerms(y);
    AgreesWithItself(y.terms.action);
    CallAnswered(c);
    AfterOne(m, [turn, turn, decide, turn], turn);
    AfterOne(m, [turn, turn, decide, turn, turn], turn);
    SixMoves(turn, decide);
  }

  lemma AskingTerms(m: Machine)
    ensures MustAsk(m) ==> m.terms.delegated && m.terms.policy.NeedsApproval?
  {
  }

  lemma SixMoves(turn: Move, decide: Move)
    ensures [] + [turn] == [turn] && [turn] + [turn] == [turn, turn] && [turn, turn] + [decide] == [turn, turn, decide]
    ensures [turn, turn, decide] + [turn] == [turn, turn, decide, turn]
    ensures [turn, turn, decide, turn] + [turn] == [turn, turn, decide, turn, turn]
    ensures [turn, turn, decide, turn, turn] + [turn] == [turn, turn, decide, turn, turn, turn]
  {
  }

  lemma NothingYet(m: Machine)
    ensures After(m, []) == m && Turns(m, []) == 0
  {
  }

  /** Five turns happen, in a history from the creation of a workflow on: the opening's call fails with a
      transient error and is to be retried; meanwhile the agent is given another model, so the next run resumes
      the retry, has to ask for an approval again, gets it, calls and finishes. */
  lemma FiveTurnsHappen(action: A.Action, runType: RunType) returns (moves: seq<Move>, run: seq<Move>)
    ensures Sound(Opening(action, runType, ONE_RETRY)) && DuringRun(run)
    ensures Turns(History(Opening(action, runType, ONE_RETRY), moves), run) == 5
  {
    hide Inv, Begun, Dispatch, Resumed, Handle, Opening, OpeningMoves, Turns, Other, Next;
    var b, opening := Opening(action, runType, ONE_RETRY), OpeningMoves(action, ONE_RETRY, TRANSIENT);
    var m := OpeningLeads(action, runType, ONE_RETRY, TRANSIENT);
    ThirdRun(m, action);
    var n := Handle(m, 0);
    var third := Resume(0, 3, Ready(ONE_RETRY, Other(action)));
    var x := Resumed(n, 0, 3, Ready(ONE_RETRY, Other(action)));
    var y := Dispatch(x, SMOOTH);
    FourMoreTurns(x, y);
    moves := opening + [third];
    AfterThen(Begun(b), opening, [third]);
    OnlyMove(n, third);
    run := [Turn(SMOOTH), Turn(SMOOTH), Decide(y.nextApproval, Approve), Turn(SMOOTH), Turn(SMOOTH), Turn(SMOOTH)];
  }

  lemma OnlyMove(m: Machine, move: Move)
    ensures After(m, [move]) == Next(m, move)
    ensures move.Resume? ==> Next(m, move) == Resumed(m, move.approval, move.run, move.start)
  {
    assert [move][..0] == [];
  }
}
