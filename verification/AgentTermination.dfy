/** The loop of run_workflow has no bound of its own. It ends after at most five turns even when an
    operator decides approvals meanwhile, and after at most three when nobody does, whatever state the
    workflow is in. */
module AgentTermination {
  import opened Common
  import opened WorkflowSteps
  import opened WorkflowIds
  import opened WorkflowEvolution
  import opened AgentSteps
  import opened AgentSafety
  import A = Approvals

  /** The action will not be called: it has to ask for an approval first. */
  predicate MustAsk(m: Machine) { m.terms.delegated && m.terms.policy.NeedsApproval? && !Matches(m) }

  /** How many turns are left, whatever an operator decides meanwhile. */
  function Rank(m: Machine): nat {
    if !m.phase.Looping? then 0
    else match m.live.current
      case FinishStep => 1
      case ActionStep(_) => if MustAsk(m) then 4 else 2
      case ApprovalStep(id) => if id in m.approvals && Agrees(m.terms.action, m.approvals[id].action) then 3 else 5
      case RetryStep(_) => 5
  }

  /** How many turns are left while nobody decides an approval. */
  function QuietRank(m: Machine): nat {
    if !m.phase.Looping? then 0
    else match m.live.current
      case FinishStep => 1
      case ActionStep(_) => 2
      case ApprovalStep(id) => if id in m.approvals && m.approvals[id].status.Pending? then 1 else 3
      case RetryStep(_) => 3
  }

  lemma RetryTurn(m: Machine, now: Time)
    requires m.phase.Looping? && m.live.current.RetryStep?
    ensures var n := ExecuteRetryWait(m, now); Rank(n) < Rank(m) && QuietRank(n) < QuietRank(m)
  {
    hide Find, ResumeFromRetry, Matches, Written;
    ResumesMove(m.live, 0);
  }

  lemma ContinueTurn(m: Machine, id: ApprovalId)
    requires m.phase.Looping?
    ensures var n := Then(m, ResumeFromApproval(m.live, id));
            && (n.phase.Looping? ==> n.live.current.ActionStep?)
            && n.terms == m.terms && n.held == m.held && n.approvals == m.approvals
  {
    hide ResumeFromApproval, Written;
    ResumesMove(m.live, id);
  }

  lemma MarkedKeepsAction(a: A.Approval, run: RunId)
    ensures A.MarkedResumed(a, run).Ok? ==>
              A.MarkedResumed(a, run).approval.action == a.action && A.MarkedResumed(a, run).approval.status.Resumed?
  {
  }

  lemma ApprovalTurn(m: Machine)
    requires m.phase.Looping? && m.live.current.ApprovalStep?
    ensures var n := ExecuteApprovalWait(m); Rank(n) < Rank(m) && QuietRank(n) < QuietRank(m)
  {
    hide Then, ResumeFromApproval, Agrees, A.MarkedResumed;
    var id := m.live.current.approval;
    if id in m.approvals {
      MarkedKeepsAction(m.approvals[id], m.run);
      ContinueTurn(m.(held := Some(Held(id, m.approvals[id]))), id);
      if A.MarkedResumed(m.approvals[id], m.run).Ok? {
        var a := A.MarkedResumed(m.approvals[id], m.run).approval;
        ContinueTurn(m.(approvals := m.approvals[id := a], held := Some(Held(id, a))), id);
      }
    }
  }

  lemma CallTurn(m: Machine, approval: Option<ApprovalId>, outcome: CallOutcome)
    ensures var n := MakeCall(m, approval, outcome);
            n.phase.Looping? && m.phase.Looping? ==> n.live.current == FinishStep
  {
    hide MarkActionCompleted, RegisterMemory, Written;
    if outcome.Answered? {
      ActionEndMoves(if outcome.memory.Some? then RegisterMemory(m.live, outcome.memory.value) else m.live);
    }
  }

  lemma ApprovedCallTurn(m: Machine, outcome: CallOutcome)
    requires m.phase.Looping? && m.held.Some?
    ensures var n := MakeApprovedCall(m, outcome); n.phase.Looping? ==> n.live.current == FinishStep
  {
    hide MakeCall, A.MarkedResumed;
    var id := m.held.value.id;
    CallTurn(m, Some(id), outcome);
    if id in m.approvals && A.MarkedResumed(m.approvals[id], m.run).Ok? {
      var a := A.MarkedResumed(m.approvals[id], m.run).approval;
      CallTurn(m.(approvals := m.approvals[id := a], held := Some(Held(id, a))), Some(id), outcome);
    }
  }

  /** An asked-for approval is pending and agrees with what was asked. */
  lemma RequestTurn(m: Machine)
    requires m.phase.Looping?
    ensures var n := RequestApproval(m);
            && n.terms == m.terms
            && (n.phase.Looping? ==>
                  && n.live.current == ApprovalStep(m.nextApproval) && m.nextApproval in n.approvals
                  && n.approvals[m.nextApproval].status.Pending?
                  && n.approvals[m.nextApproval].action == m.terms.action)
  {
    hide WaitForApproval, Written;
    WaitsMove(m.live, m.nextApproval);
  }

  lemma AgreesWithItself(a: A.Action)
    ensures Agrees(a, a)
  {
  }

  lemma ActionTurn(m: Machine, o: Oracle)
    requires m.phase.Looping? && m.live.current.ActionStep?
    ensures var n := ExecuteAction(m, o); Rank(n) < Rank(m) && QuietRank(n) < QuietRank(m)
  {
    hide MakeCall, MakeApprovedCall, RequestApproval, Persist, Agrees;
    var p := Persist(m);
    PersistSaves(m);
    assert Matches(p) == Matches(m);
    CallTurn(p, None, o.outcome);
    if Matches(p) {
      ApprovedCallTurn(p, o.outcome);
    } else {
      RequestTurn(p);
      AgreesWithItself(m.terms.action);
    }
  }

  lemma FinishTurn(m: Machine, o: Oracle)
    ensures !ExecuteFinish(m, o).phase.Looping?
  {
  }

  /** Every turn, on any workflow whatever, lowers both ranks or ends the run. */
  lemma TurnLowersRank(m: Machine, o: Oracle)
    requires m.phase.Looping?
    ensures Rank(Dispatch(m, o)) < Rank(m) <= 5 && QuietRank(Dispatch(m, o)) < QuietRank(m) <= 3
  {
    hide Find, ExecuteRetryWait, ExecuteApprovalWait, ExecuteAction, ExecuteFinish, Matches, Agrees;
    match m.live.current
    case RetryStep(_) => RetryTurn(m, o.now);
    case ApprovalStep(_) => ApprovalTurn(m);
    case ActionStep(_) => ActionTurn(m, o);
    case FinishStep => FinishTurn(m, o);
  }

  lemma DecisionKeepsRank(m: Machine, id: ApprovalId, d: Decision)
    ensures Rank(Decided(m, id, d)) == Rank(m)
  {
  }

  // ---------- all histories of one run ----------

  /** What happens while a run loops: its turns, and decisions of operators. */
  predicate DuringRun(moves: seq<Move>) { forall i :: 0 <= i < |moves| ==> moves[i].Turn? || moves[i].Decide? }

  predicate Undecided(moves: seq<Move>) { forall i :: 0 <= i < |moves| ==> moves[i].Turn? }

  /** How many turns the loop makes: moves after it has ended are none. */
  function Turns(m: Machine, moves: seq<Move>): nat
    decreases |moves|
  {
    if moves == [] then 0
    else var n := |moves| - 1;
         Turns(m, moves[..n]) + (if moves[n].Turn? && After(m, moves[..n]).phase.Looping? then 1 else 0)
  }

  lemma {:induction false} TurnsAreBounded(m: Machine, moves: seq<Move>)
    requires DuringRun(moves)
    ensures Turns(m, moves) + Rank(After(m, moves)) <= Rank(m) <= 5
    ensures Undecided(moves) ==> Turns(m, moves) + QuietRank(After(m, moves)) <= QuietRank(m) <= 3
    decreases |moves|
  {
    hide Rank, QuietRank, Dispatch, Decided;
    RanksBounded(m);
    if moves != [] {
      var n := |moves| - 1;
      var front, last := moves[..n], moves[n];
      var before := After(m, front);
      TurnsAreBounded(m, front);
      if last.Turn? && before.phase.Looping? { TurnLowersRank(before, last.o); }
      if last.Decide? { DecisionKeepsRank(before, last.approval, last.decision); }
    }
  }

  lemma RanksBounded(m: Machine)
    ensures Rank(m) <= 5 && QuietRank(m) <= 3
  {
  }

  function TurnMoves(moves: seq<Move>): nat {
    if moves == [] then 0
    else TurnMoves(moves[..|moves| - 1]) + (if moves[|moves| - 1].Turn? then 1 else 0)
  }

  lemma {:induction false} LoopingCountsAll(m: Machine, moves: seq<Move>)
    requires DuringRun(moves) && After(m, moves).phase.Looping?
    ensures Turns(m, moves) == TurnMoves(moves)
    decreases |moves|
  {
    hide Dispatch;
    if moves != [] { LoopingCountsAll(m, moves[..|moves| - 1]); }
  }

  /** From any state whatever: the loop has ended once it was given five turns, and three are enough while
      nobody decides. */
  lemma LoopEnds(m: Machine, moves: seq<Move>)
    requires DuringRun(moves)
    requires TurnMoves(moves) >= 5 || (Undecided(moves) && TurnMoves(moves) >= 3)
    ensures !After(m, moves).phase.Looping?
  {
    hide After, Turns, TurnMoves, Rank, QuietRank;
    TurnsAreBounded(m, moves);
    if After(m, moves).phase.Looping? {
      LoopingCountsAll(m, moves);
      LoopingHasRank(After(m, moves));
    }
  }

  lemma LoopingHasRank(m: Machine)
    requires m.phase.Looping?
    ensures Rank(m) > 0 && QuietRank(m) > 0
  {
  }

  lemma AfterOne(m: Machine, moves: seq<Move>, move: Move)
    ensures After(m, moves + [move]) == Next(After(m, moves), move)
    ensures Turns(m, moves + [move])
            == Turns(m, moves) + (if move.Turn? && After(m, moves).phase.Looping? then 1 else 0)
  {
    assert (moves + [move])[..|moves|] == moves;
  }
}
