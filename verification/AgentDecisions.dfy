/** What an operator's decision means for every history that follows: what was refused or aborted stays so and is
    never called, what was approved was approved by the operator, and the workflow that waits goes on or fails. */
module AgentDecisions {
  import opened Common
  import opened WorkflowSteps
  import opened WorkflowShape
  import opened WorkflowRedo
  import opened AgentSteps
  import opened AgentSafety
  import opened AgentOrder
  import opened AgentHistory
  import opened AgentOutcomes
  import A = Approvals

  // ---------- one decision ----------

  /** The approval as the operator has left it. */
  predicate DecidedTo(a: A.Approval, b: A.Approval, status: A.Status) {
    b == a.(status := status, history := a.history + [A.HistoryEntry(A.Reached(status), A.Operator)])
  }

  /** An operator can approve and refuse what is pending, and abort what is pending or approved; any other decision
      changes nothing, and none changes anything else. */
  lemma DecisionLaw(m: Machine, id: ApprovalId, d: Decision)
    ensures var n := Next(m, Decide(id, d));
            if id in m.approvals
               && (m.approvals[id].status.Pending? || (m.approvals[id].status.Approved? && d.Abort?))
            then && id in n.approvals && n == m.(approvals := m.approvals[id := n.approvals[id]])
                 && match d
                    case Approve => DecidedTo(m.approvals[id], n.approvals[id], A.Approved)
                    case Refuse => DecidedTo(m.approvals[id], n.approvals[id], A.Denied)
                    case Abort => DecidedTo(m.approvals[id], n.approvals[id], A.Aborted)
            else n == m
  {
  }

  // ---------- the histories that follow ----------

  /** A call needs its approval resumed. */
  lemma CalledIsResumed(m: Machine, k: nat)
    requires Good(m) && k < |m.calls| && m.calls[k].approval.Some?
    ensures m.calls[k].approval.value in m.approvals && m.approvals[m.calls[k].approval.value].status.Resumed?
  {
    hide FlowOk, StoreOk, HeldOk, WaitsKnown, Agrees;
    assert Gated(m, m.calls[k]);
  }

  /** From a decision on: the histories in between, and the approval's at the end. */
  lemma AfterDecision(m: Machine, moves: seq<Move>, i: nat, id: ApprovalId)
    requires Good(m) && i < |moves| && moves[i].Decide? && id in After(m, moves[..i + 1]).approvals
    ensures Good(After(m, moves[..i])) && Good(After(m, moves[..i + 1])) && Good(After(m, moves))
    ensures After(m, moves[..i + 1]) == Next(After(m, moves[..i]), moves[i])
    ensures id in After(m, moves).approvals
    ensures Aged(After(m, moves[..i + 1]).approvals[id], After(m, moves).approvals[id])
  {
    hide Good, Next, Aged;
    HistoriesKeepGood(m, moves[..i]);
    HistoriesKeepGood(m, moves[..i + 1]);
    HistoriesKeepGood(m, moves);
    OneMove(m, moves, i);
    assert moves == moves[..i + 1] + moves[i + 1..];
    AfterThen(m, moves[..i + 1], moves[i + 1..]);
    HistoriesGrow(After(m, moves[..i + 1]), moves[i + 1..]);
  }

  /** What was refused while pending is denied by the operator for good, and there is no call for it, ever. */
  lemma RefusalIsFinal(b: Beginning, moves: seq<Move>, i: nat, id: ApprovalId)
    requires Sound(b) && i < |moves| && moves[i] == Decide(id, Refuse)
    requires var m := History(b, moves[..i]); id in m.approvals && m.approvals[id].status.Pending?
    ensures var m, n := History(b, moves[..i]), History(b, moves);
            && id in n.approvals && DecidedTo(m.approvals[id], n.approvals[id], A.Denied)
            && forall k :: 0 <= k < |n.calls| ==> n.calls[k].approval != Some(id)
  {
    hide Good, Sound, After, Next, Begun;
    BegunIsGood(b);
    HistoriesKeepGood(Begun(b), moves[..i]);
    OneMove(Begun(b), moves, i);
    DecisionLaw(History(b, moves[..i]), id, Refuse);
    AfterDecision(Begun(b), moves, i, id);
    NoCallFor(History(b, moves), id);
  }

  /** What was aborted while pending or approved is aborted by the operator for good, and there is no call for it. */
  lemma AbortIsFinal(b: Beginning, moves: seq<Move>, i: nat, id: ApprovalId)
    requires Sound(b) && i < |moves| && moves[i] == Decide(id, Abort)
    requires var m := History(b, moves[..i]);
             id in m.approvals && (m.approvals[id].status.Pending? || m.approvals[id].status.Approved?)
    ensures var m, n := History(b, moves[..i]), History(b, moves);
            && id in n.approvals && DecidedTo(m.approvals[id], n.approvals[id], A.Aborted)
            && forall k :: 0 <= k < |n.calls| ==> n.calls[k].approval != Some(id)
  {
    hide Good, Sound, After, Next, Begun;
    BegunIsGood(b);
    HistoriesKeepGood(Begun(b), moves[..i]);
    OneMove(Begun(b), moves, i);
    DecisionLaw(History(b, moves[..i]), id, Abort);
    AfterDecision(Begun(b), moves, i, id);
    NoCallFor(History(b, moves), id);
  }

  lemma NoCallFor(m: Machine, id: ApprovalId)
    requires Good(m) && id in m.approvals && !m.approvals[id].status.Resumed?
    ensures forall k :: 0 <= k < |m.calls| ==> m.calls[k].approval != Some(id)
  {
    hide Good;
    forall k | 0 <= k < |m.calls| ensures m.calls[k].approval != Some(id) {
      if m.calls[k].approval.Some? { CalledIsResumed(m, k); }
    }
  }

  /** What was approved while pending has the operator's approval in its history for good; it is then resumed or
      aborted, or nothing has come of it yet. */
  lemma ApprovalStands(b: Beginning, moves: seq<Move>, i: nat, id: ApprovalId)
    requires Sound(b) && i < |moves| && moves[i] == Decide(id, Approve)
    requires var m := History(b, moves[..i]); id in m.approvals && m.approvals[id].status.Pending?
    ensures var m, u, n := History(b, moves[..i]), History(b, moves[..i + 1]), History(b, moves);
            && id in u.approvals && DecidedTo(m.approvals[id], u.approvals[id], A.Approved)
            && id in n.approvals && u.approvals[id].history <= n.approvals[id].history
            && n.approvals[id].action == m.approvals[id].action
            && (n.approvals[id].status.Approved? || n.approvals[id].status.Resumed? || n.approvals[id].status.Aborted?)
  {
    hide Good, Sound, After, Next, Begun;
    BegunIsGood(b);
    HistoriesKeepGood(Begun(b), moves[..i]);
    OneMove(Begun(b), moves, i);
    DecisionLaw(History(b, moves[..i]), id, Approve);
    AfterDecision(Begun(b), moves, i, id);
    var u, n := History(b, moves[..i + 1]), History(b, moves);
    GoodApproval(u, id);
    GoodApproval(n, id);
    ApprovedLeadsOn(u.approvals[id], n.approvals[id]);
  }

  lemma GoodApproval(m: Machine, id: ApprovalId)
    requires Good(m) && id in m.approvals
    ensures A.FollowsTable(m.approvals[id])
  {
  }

  lemma ApprovedLeadsOn(a: A.Approval, b: A.Approval)
    requires A.FollowsTable(a) && A.FollowsTable(b) && a.status.Approved? && a.history <= b.history
    ensures b.status.Approved? || b.status.Resumed? || b.status.Aborted?
  {
    var n := |a.history|;
    assert b.history[n - 1] == a.history[n - 1];
    if |b.history| > n {
      assert b.history[n].state.status in A.Transitions(b.history[n - 1].state.status);
      if |b.history| > n + 1 { LeadsOn(b, n); }
    }
  }

  lemma LeadsOn(a: A.Approval, k: nat)
    requires A.FollowsTable(a) && 0 < k < |a.history| - 1
    ensures !A.Settled(a.history[k].state.status)
  {
    assert a.history[k + 1].state.status in A.Transitions(a.history[k].state.status);
  }

  // ---------- the workflow that waits ----------

  /** The loop stands at the wait for this approval, and nobody has decided yet. */
  predicate Awaits(m: Machine, id: ApprovalId) {
    && m.phase.Looping? && m.live.current == ApprovalStep(id)
    && id in m.approvals && m.approvals[id].status.Pending?
  }

  /** Refused or aborted: the next turn of the run fails the workflow, without a call. */
  lemma RefusedWaitFails(m: Machine, id: ApprovalId, d: Decision, o: Oracle, now: Time)
    requires Inv(m) && Awaits(m, id) && !d.Approve?
    ensures var n := After(m, [Decide(id, d), Turn(o), Catch(now)]);
            n.file.saved.status.FailedFlow? && n.calls == m.calls && n.phase.Over?
  {
    hide Inv, Dispatch, Handle, Decided;
    var decided := Next(m, Decide(id, d));
    DecisionLaw(m, id, d);
    MoveKeepsInv(m, Decide(id, d));
    var turned := Next(decided, Turn(o));
    ApprovalDecides(decided, o, now);
    TurnHasEffect(decided, o);
    HandleStays(turned, now);
    ThreeMoves(m, Decide(id, d), Turn(o), Catch(now));
  }

  /** Approved: the next turn marks the approval resumed by this run and goes on to the action. */
  lemma ApprovedWaitGoesOn(m: Machine, id: ApprovalId, o: Oracle)
    requires Inv(m) && Awaits(m, id)
    ensures var n := After(m, [Decide(id, Approve), Turn(o)]);
            && n.phase.Looping? && AtRunningAction(n.live) && n.calls == m.calls
            && id in n.approvals && n.approvals[id].status.Resumed? && n.approvals[id].resumedRunId == Some(m.run)
            && n.held == Some(Held(id, n.approvals[id]))
  {
    hide Inv, Dispatch, Decided, Find;
    var decided := Next(m, Decide(id, Approve));
    DecisionLaw(m, id, Approve);
    MoveKeepsInv(m, Decide(id, Approve));
    ApprovalDecides(decided, o, 0);
    TurnHasEffect(decided, o);
    AtAWait(decided);
    ApprovedTurn(decided, o);
    TwoMoves(m, Decide(id, Approve), Turn(o));
  }

  /** An approved approval is marked resumed by the run that comes to it. */
  lemma ApprovedTurn(m: Machine, o: Oracle)
    requires m.live.current.ApprovalStep? && Find(m.live.steps, m.live.current).Some?
    requires m.live.current.approval in m.approvals && m.approvals[m.live.current.approval].status.Approved?
    ensures var id, n := m.live.current.approval, Dispatch(m, o);
            && id in n.approvals && n.approvals == m.approvals[id := n.approvals[id]]
            && n.held == Some(Held(id, n.approvals[id]))
            && var a := m.approvals[id];
               n.approvals[id] == a.(status := A.Resumed, resumedRunId := Some(m.run),
                                     history := a.history + [A.HistoryEntry(A.Reached(A.Resumed), A.System)])
  {
    hide Find, ResumeFromApproval, Persist;
    var id := m.live.current.approval;
    var a := A.MarkedResumed(m.approvals[id], m.run).approval;
    var marked := m.(approvals := m.approvals[id := a], held := Some(Held(id, a)));
    PersistSaves(marked.(live := ResumeFromApproval(m.live, id).flow));
  }

  lemma AtAWait(m: Machine)
    requires Inv(m) && m.phase.Looping?
    ensures Find(m.live.steps, m.live.current).Some?
  {
    hide Good;
    LoopPlace(m);
  }
}
