/** What a workflow costs and what its end means: how many calls it can make, that it does not succeed
    without one, that its end is final, when its retries may begin, and what a decision leads to. */
module AgentOutcomes {
  import opened Common
  import opened WorkflowSteps
  import opened WorkflowShape
  import opened WorkflowRedo
  import opened WorkflowAudit
  import opened WorkflowEvolution
  import opened WorkflowIds
  import opened AgentSteps
  import opened AgentSafety
  import opened AgentOrder
  import opened AgentHistory
  import A = Approvals

  // ---------- the effect of one turn, on any workflow ----------

  predicate OneMoreCall(m: Machine, n: Machine) { |n.calls| == |m.calls| + 1 }

  function Spent(f: Flow): nat { f.retryState.attemptsUsed }

  /** A turn makes a call only at the action, and then raises or leaves the action completed. It spends
      no attempt. What it does not raise over, it has written, if all was written before. */
  predicate TurnEffect(m: Machine, n: Machine) {
    && Spent(n.live) == Spent(m.live) && n.live.retryPolicy == m.live.retryPolicy
    && (n.calls == m.calls
        || (m.live.current.ActionStep? && OneMoreCall(m, n) && (n.phase.Raising? || n.live.current.FinishStep?)))
    && (m.live == m.file.saved && !n.phase.Raising? ==> n.live == n.file.saved)
    && (n.live.current.FinishStep? ==> m.live.current.FinishStep? || OneMoreCall(m, n))
    && (n.file.saved.current.FinishStep? ==>
          m.file.saved.current.FinishStep? || m.live.current.FinishStep? || OneMoreCall(m, n))
    && (m.live.current.FinishStep? ==> n.live.current.FinishStep?)
    && (SameBudget(n.file.saved, m.file.saved) || SameBudget(n.file.saved, m.live))
  }

  predicate SameBudget(f: Flow, g: Flow) { Spent(f) == Spent(g) && f.retryPolicy == g.retryPolicy }

  /** The result of an operation on the workflow, with everything else as it was or one more call. */
  lemma ThenEffect(m: Machine, n: Machine, attempt: Attempt)
    requires n.live == m.live && n.file == m.file && m.phase.Looping? && n.phase.Looping?
    requires Spent(attempt.flow) == Spent(m.live) && attempt.flow.retryPolicy == m.live.retryPolicy
    requires n.calls == m.calls && !m.live.current.FinishStep? && !attempt.flow.current.FinishStep?
    ensures TurnEffect(m, Then(n, attempt))
  {
    hide Persist;
    PersistSaves(n.(live := attempt.flow));
  }

  lemma RaiseEffect(m: Machine, n: Machine)
    requires n.live == m.live && n.file == m.file && n.calls == m.calls
    ensures TurnEffect(m, n)
  {
  }

  lemma RetryWaitEffect(m: Machine, now: Time)
    requires m.phase.Looping? && m.live.current.RetryStep?
    ensures TurnEffect(m, ExecuteRetryWait(m, now))
  {
    hide Find, ResumeFromRetry, Then, TurnEffect;
    RaiseEffect(m, m);
    RaiseEffect(m, m.(phase := Over));
    RaiseEffect(m, Raise(m, WorkflowBroken(UnknownStep)));
    RetriesTouchOnlyTheirs(m.live, Fault("", "", false), now);
    ResumesMove(m.live, 0);
    ThenEffect(m, m, ResumeFromRetry(m.live));
  }

  lemma ApprovalWaitEffect(m: Machine)
    requires m.phase.Looping? && m.live.current.ApprovalStep?
    ensures TurnEffect(m, ExecuteApprovalWait(m))
  {
    hide Find, ResumeFromApproval, Then, A.MarkedResumed, TurnEffect;
    var id := m.live.current.approval;
    WaitsTouchOnlyTheirs(m.live, id);
    ResumesMove(m.live, id);
    var n := ExecuteApprovalWait(m);
    if id in m.approvals && m.approvals[id].status.Approved? && A.MarkedResumed(m.approvals[id], m.run).Ok? {
      var a := A.MarkedResumed(m.approvals[id], m.run).approval;
      ThenEffect(m, m.(approvals := m.approvals[id := a], held := Some(Held(id, a))), ResumeFromApproval(m.live, id));
    } else if id in m.approvals && m.approvals[id].status.Resumed? {
      ThenEffect(m, m.(held := Some(Held(id, m.approvals[id]))), ResumeFromApproval(m.live, id));
    } else {
      RaiseEffect(m, n);
    }
  }

  lemma MakeCallEffect(m: Machine, approval: Option<ApprovalId>, outcome: CallOutcome)
    requires m.phase.Looping? && m.live.current.ActionStep?
    ensures TurnEffect(m, MakeCall(m, approval, outcome))
  {
    hide MarkActionCompleted, Persist;
    if outcome.Answered? {
      var f := if outcome.memory.Some? then RegisterMemory(m.live, outcome.memory.value) else m.live;
      ActionEndTouchesOnlyIts(f);
      ActionEndMoves(f);
      PersistSaves(m.(calls := m.calls + [Call(m.terms, approval)], answered := true,
                      live := MarkActionCompleted(f).flow));
    }
  }

  lemma EffectIgnoresApprovals(m: Machine, p: Machine, n: Machine)
    requires p.live == m.live && p.calls == m.calls && p.file == m.file && TurnEffect(p, n)
    ensures TurnEffect(m, n)
  {
  }

  lemma ApprovedCallEffect(m: Machine, outcome: CallOutcome)
    requires m.phase.Looping? && m.live.current.ActionStep? && m.held.Some?
    ensures TurnEffect(m, MakeApprovedCall(m, outcome))
  {
    hide MakeCall, TurnEffect, A.MarkedResumed;
    var id := m.held.value.id;
    RaiseEffect(m, Raise(m, ApprovalMissing));
    RaiseEffect(m, Raise(m, ApprovalState));
    MakeCallEffect(m, Some(id), outcome);
    if id in m.approvals && A.MarkedResumed(m.approvals[id], m.run).Ok? {
      var a := A.MarkedResumed(m.approvals[id], m.run).approval;
      var n := m.(approvals := m.approvals[id := a], held := Some(Held(id, a)));
      MakeCallEffect(n, Some(id), outcome);
      EffectIgnoresApprovals(m, n, MakeCall(n, Some(id), outcome));
    }
  }

  lemma RequestEffect(m: Machine)
    requires m.phase.Looping? && m.live.current.ActionStep?
    ensures TurnEffect(m, RequestApproval(m))
  {
    hide WaitForApproval, Then, TurnEffect;
    var id, a := m.nextApproval, A.NewApproval(m.terms.action, m.live.workflowId, m.run);
    WaitsTouchOnlyTheirs(m.live, id);
    WaitsMove(m.live, id);
    ThenEffect(m, m.(approvals := m.approvals[id := a], nextApproval := id + 1, held := Some(Held(id, a))),
               WaitForApproval(m.live, id));
  }

  /** A turn that starts by writing the workflow has the effect of what follows. */
  lemma EffectAfterPersist(m: Machine, n: Machine)
    requires m.live.current.ActionStep? && TurnEffect(Persist(m), n)
    ensures TurnEffect(m, n)
  {
    hide Written;
    PersistSaves(m);
  }

  lemma ActionEffect(m: Machine, o: Oracle)
    requires m.phase.Looping? && m.live.current.ActionStep?
    ensures TurnEffect(m, ExecuteAction(m, o))
  {
    hide MakeCall, MakeApprovedCall, RequestApproval, Matches, Persist, TurnEffect;
    var p := Persist(m);
    PersistSaves(m);
    RaiseEffect(p, Raise(p, DelegationDenied));
    RaiseEffect(p, Raise(p, PolicyDenied));
    MakeCallEffect(p, None, o.outcome);
    MatchesHeld(p);
    if Matches(p) { ApprovedCallEffect(p, o.outcome); } else { RequestEffect(p); }
    if o.early.None? { EffectAfterPersist(m, ExecuteAction(m, o)); } else { RaiseEffect(m, ExecuteAction(m, o)); }
  }

  lemma FinishEffect(m: Machine, o: Oracle)
    requires m.phase.Looping? && m.live.current.FinishStep?
    ensures TurnEffect(m, ExecuteFinish(m, o))
  {
    hide CompleteFinishStep, Persist;
    var g := RegisterArtifact(m.live, o.artifact);
    OperationsTouchOnlyTheirs(g, 0, Fault("", "", false));
    FinishMoves(g);
    PersistSaves(m.(live := CompleteFinishStep(g).flow));
  }

  lemma TurnHasEffect(m: Machine, o: Oracle)
    requires m.phase.Looping?
    ensures TurnEffect(m, Dispatch(m, o))
  {
    hide Find, ExecuteRetryWait, ExecuteApprovalWait, ExecuteAction, ExecuteFinish, TurnEffect;
    if Find(m.live.steps, m.live.current).None? {
      RaiseEffect(m, Dispatch(m, o));
    } else {
      match m.live.current
      case RetryStep(_) => RetryWaitEffect(m, o.now);
      case ApprovalStep(_) => ApprovalWaitEffect(m);
      case ActionStep(_) => ActionEffect(m, o);
      case FinishStep => FinishEffect(m, o);
    }
  }

  // ---------- no success without a call ----------

  /** Past its action a workflow has made a call. */
  predicate Earned(m: Machine) { m.live.current.FinishStep? || m.file.saved.current.FinishStep? ==> m.calls != [] }

  lemma HandleStays(m: Machine, now: Time)
    requires m.phase.Raising?
    ensures var n := Handle(m, now);
            && n.calls == m.calls && n.phase.Over? && n.live.retryPolicy == m.live.retryPolicy
            && (n.file == m.file || n.file.saved == n.live)
            && (n.live.current.FinishStep? ==> m.live.current.FinishStep?)
  {
    hide WaitForRetry, FailWorkflow, Persist;
    var fault := FaultOf(m.phase.cause);
    RetriesMove(m.live, fault, now);
    FailureMoves(m.live, fault);
    RetriesTouchOnlyTheirs(m.live, fault, now);
    OperationsTouchOnlyTheirs(m.live, 0, fault);
    PersistSaves(m.(live := WaitForRetry(m.live, fault, now).flow, phase := Over));
    PersistSaves(m.(live := FailWorkflow(m.live, fault).flow, phase := Over));
  }

  lemma ResumeEffect(m: Machine, id: ApprovalId, run: RunId, start: Start)
    ensures var n := Resumed(m, id, run, start);
            && n.calls == m.calls
            && (n != m ==>
                  && m.phase.Over? && !n.phase.Over? && (n.phase.Looping? ==> n.live == n.file.saved)
                  && n.live.current == m.file.saved.current && n.live.status == m.file.saved.status
                  && n.file.saved.current == m.file.saved.current && n.file.saved.status == m.file.saved.status
                  && Spent(n.live) == Spent(m.file.saved) && Spent(n.file.saved) == Spent(m.file.saved)
                  && n.live.retryPolicy
                  == (if start.Ready? || start.Unbudgeted? then start.policy else m.file.saved.retryPolicy)
                  && n.file.saved.retryPolicy in {n.live.retryPolicy, m.file.saved.retryPolicy})
  {
    hide Difference;
  }

  lemma AddChildEffect(m: Machine, child: WorkflowId)
    ensures var n := Next(m, AddChild(child));
            && n.calls == m.calls && n.phase == m.phase
            && (n != m ==>
                  && m.phase.Over? && n.live == n.file.saved && n.live.current == m.file.saved.current
                  && n.live.status == m.file.saved.status && n.live.retryState == m.file.saved.retryState
                  && n.live.retryPolicy == m.file.saved.retryPolicy)
  {
    hide Difference;
  }

  lemma MoveKeepsEarned(m: Machine, move: Move)
    requires Earned(m)
    ensures Earned(Next(m, move))
  {
    hide Dispatch, Handle, Resumed, Persist;
    match move
    case Turn(o) => if m.phase.Looping? { TurnHasEffect(m, o); }
    case Catch(now) => if m.phase.Raising? { HandleStays(m, now); }
    case Resume(id, run, start) => ResumeEffect(m, id, run, start);
    case AddChild(child) => AddChildEffect(m, child);
    case _ =>
  }

  lemma {:induction false} HistoriesKeepEarned(m: Machine, moves: seq<Move>)
    requires Earned(m)
    ensures Earned(After(m, moves))
    decreases |moves|
  {
    hide Earned, Next;
    if moves != [] {
      var front := moves[..|moves| - 1];
      HistoriesKeepEarned(m, front);
      MoveKeepsEarned(After(m, front), moves[|moves| - 1]);
    }
  }

  // ---------- the end is the end ----------

  /** Memory and disk agree on whether and how the workflow has ended; who has succeeded is at the finish. */
  predicate EndsAgree(m: Machine) {
    && (m.live.status.Terminal() || m.file.saved.status.Terminal() ==> m.live.status == m.file.saved.status)
    && (m.live.status.Succeeded? ==> m.live.current.FinishStep? && m.file.saved.current.FinishStep?)
  }

  /** A move leaves an ended workflow ended. */
  predicate EndStays(m: Machine, n: Machine) {
    EndsAgree(m) ==> EndsAgree(n) && (m.file.saved.status.Terminal() ==> n.file.saved.status == m.file.saved.status)
  }

  lemma OpenStepStays(m: Machine, n: Machine, attempt: Attempt)
    requires n.live == m.live && n.file == m.file && StaysOpen(m.live, attempt.flow)
    requires m.live.current.FinishStep? ==> attempt.flow.current.FinishStep?
    requires !m.live.current.FinishStep?
    ensures EndStays(m, Then(n, attempt))
  {
    hide Persist;
    PersistSaves(n.(live := attempt.flow));
  }

  lemma SameEnd(m: Machine, n: Machine)
    requires n.live.status == m.live.status && n.live.current == m.live.current
    requires n.file == m.file || n.file.saved == m.live || n.file.saved == n.live
    ensures EndStays(m, n)
  {
  }

  lemma RetryWaitEnd(m: Machine, now: Time)
    requires m.live.current.RetryStep?
    ensures EndStays(m, ExecuteRetryWait(m, now))
  {
    hide Find, ResumeFromRetry, Then, EndStays;
    SameEnd(m, m.(phase := Over));
    SameEnd(m, Raise(m, WorkflowBroken(UnknownStep)));
    ResumesMove(m.live, 0);
    OpenStepStays(m, m, ResumeFromRetry(m.live));
  }

  lemma ApprovalWaitEnd(m: Machine)
    requires m.live.current.ApprovalStep?
    ensures EndStays(m, ExecuteApprovalWait(m))
  {
    hide Find, ResumeFromApproval, Then, A.MarkedResumed, EndStays;
    var id := m.live.current.approval;
    ResumesMove(m.live, id);
    if id in m.approvals && m.approvals[id].status.Approved? && A.MarkedResumed(m.approvals[id], m.run).Ok? {
      var a := A.MarkedResumed(m.approvals[id], m.run).approval;
      OpenStepStays(m, m.(approvals := m.approvals[id := a], held := Some(Held(id, a))),
                    ResumeFromApproval(m.live, id));
    } else if id in m.approvals && m.approvals[id].status.Resumed? {
      OpenStepStays(m, m.(held := Some(Held(id, m.approvals[id]))), ResumeFromApproval(m.live, id));
    } else {
      SameEnd(m, ExecuteApprovalWait(m));
    }
  }

  lemma MakeCallEnd(m: Machine, approval: Option<ApprovalId>, outcome: CallOutcome)
    requires m.live.current.ActionStep?
    ensures EndStays(m, MakeCall(m, approval, outcome))
  {
    hide MarkActionCompleted, Persist;
    if outcome.Answered? {
      var f := if outcome.memory.Some? then RegisterMemory(m.live, outcome.memory.value) else m.live;
      ActionEndMoves(f);
      PersistSaves(m.(calls := m.calls + [Call(m.terms, approval)], answered := true,
                      live := MarkActionCompleted(f).flow));
    }
  }

  lemma ApprovedCallEnd(m: Machine, outcome: CallOutcome)
    requires m.live.current.ActionStep? && m.held.Some?
    ensures EndStays(m, MakeApprovedCall(m, outcome))
  {
    hide MakeCall, EndStays, A.MarkedResumed;
    var id := m.held.value.id;
    SameEnd(m, Raise(m, ApprovalMissing));
    SameEnd(m, Raise(m, ApprovalState));
    MakeCallEnd(m, Some(id), outcome);
    if id in m.approvals && A.MarkedResumed(m.approvals[id], m.run).Ok? {
      var a := A.MarkedResumed(m.approvals[id], m.run).approval;
      var n := m.(approvals := m.approvals[id := a], held := Some(Held(id, a)));
      MakeCallEnd(n, Some(id), outcome);
      EndIgnoresRest(m, n, MakeCall(n, Some(id), outcome));
    }
  }

  lemma EndIgnoresRest(m: Machine, p: Machine, n: Machine)
    requires p.live == m.live && p.file == m.file && EndStays(p, n)
    ensures EndStays(m, n)
  {
  }

  lemma EndThrough(m: Machine, p: Machine, n: Machine)
    requires EndStays(m, p) && EndStays(p, n)
    ensures EndStays(m, n)
  {
  }

  lemma RequestEnd(m: Machine)
    requires m.live.current.ActionStep?
    ensures EndStays(m, RequestApproval(m))
  {
    hide WaitForApproval, Then, EndStays;
    var id, a := m.nextApproval, A.NewApproval(m.terms.action, m.live.workflowId, m.run);
    WaitsMove(m.live, id);
    OpenStepStays(m, m.(approvals := m.approvals[id := a], nextApproval := id + 1, held := Some(Held(id, a))),
                  WaitForApproval(m.live, id));
  }

  lemma ActionEnd(m: Machine, o: Oracle)
    requires m.live.current.ActionStep?
    ensures EndStays(m, ExecuteAction(m, o))
  {
    hide MakeCall, MakeApprovedCall, RequestApproval, Matches, Persist, EndStays;
    var p := Persist(m);
    PersistSaves(m);
    SameEnd(m, p);
    SameEnd(p, Raise(p, DelegationDenied));
    SameEnd(p, Raise(p, PolicyDenied));
    MakeCallEnd(p, None, o.outcome);
    MatchesHeld(p);
    if Matches(p) { ApprovedCallEnd(p, o.outcome); } else { RequestEnd(p); }
    if o.early.None? { EndThrough(m, p, ExecuteAction(m, o)); } else { SameEnd(m, ExecuteAction(m, o)); }
  }

  lemma FinishEnd(m: Machine, o: Oracle)
    requires m.live.current.FinishStep?
    ensures EndStays(m, ExecuteFinish(m, o))
  {
    hide CompleteFinishStep, Persist;
    var g := RegisterArtifact(m.live, o.artifact);
    FinishMoves(g);
    PersistSaves(m.(live := CompleteFinishStep(g).flow));
  }

  lemma TurnEnd(m: Machine, o: Oracle)
    ensures EndStays(m, Dispatch(m, o))
  {
    hide Find, ExecuteRetryWait, ExecuteApprovalWait, ExecuteAction, ExecuteFinish, EndStays;
    if Find(m.live.steps, m.live.current).None? {
      SameEnd(m, Dispatch(m, o));
    } else {
      match m.live.current
      case RetryStep(_) => RetryWaitEnd(m, o.now);
      case ApprovalStep(_) => ApprovalWaitEnd(m);
      case ActionStep(_) => ActionEnd(m, o);
      case FinishStep => FinishEnd(m, o);
    }
  }

  lemma HandleEnd(m: Machine, now: Time)
    requires m.phase.Raising?
    ensures EndStays(m, Handle(m, now))
  {
    hide WaitForRetry, FailWorkflow, Persist;
    var fault := FaultOf(m.phase.cause);
    RetriesMove(m.live, fault, now);
    FailureMoves(m.live, fault);
    RetryNeedsOpen(m.live, fault, now);
    PersistSaves(m.(live := WaitForRetry(m.live, fault, now).flow, phase := Over));
    PersistSaves(m.(live := FailWorkflow(m.live, fault).flow, phase := Over));
  }

  lemma RetryNeedsOpen(f: Flow, fault: Fault, now: Time)
    ensures WaitForRetry(f, fault, now).Done? ==> !f.status.Terminal()
  {
    hide Find, InsertedBeforeLast, BlockAction, WithRetryStep;
    PartsMove();
  }

  lemma MoveKeepsEnd(m: Machine, move: Move)
    ensures EndStays(m, Next(m, move))
  {
    hide Dispatch, Handle, Resumed, Persist;
    match move
    case Turn(o) => if m.phase.Looping? { TurnEnd(m, o); }
    case Catch(now) => if m.phase.Raising? { HandleEnd(m, now); }
    case Resume(id, run, start) => ResumeEffect(m, id, run, start);
    case AddChild(child) => AddChildEffect(m, child);
    case _ =>
  }

  lemma {:induction false} EndIsFinal(m: Machine, moves: seq<Move>)
    requires EndsAgree(m)
    ensures EndStays(m, After(m, moves)) && EndsAgree(After(m, moves))
    decreases |moves|
  {
    hide Next;
    if moves != [] {
      var front := moves[..|moves| - 1];
      EndIsFinal(m, front);
      MoveKeepsEnd(After(m, front), moves[|moves| - 1]);
    }
  }

  lemma BegunAgrees(b: Beginning)
    ensures EndsAgree(Begun(b)) && Earned(Begun(b))
  {
    hide Difference;
  }

  /** In every history, restarts included, a stored success or failure is final. */
  lemma StoredEndIsFinal(b: Beginning, moves: seq<Move>, more: seq<Move>)
    requires History(b, moves).file.saved.status.Terminal()
    ensures After(History(b, moves), more).file.saved.status == History(b, moves).file.saved.status
  {
    hide After, Begun;
    BegunAgrees(b);
    EndIsFinal(Begun(b), moves);
    EndIsFinal(History(b, moves), more);
  }

  /** In every history, restarts included, a workflow that has succeeded made a call, and that call was
      behind the gate. */
  lemma SuccessNeedsAGatedCall(b: Beginning, moves: seq<Move>)
    requires Sound(b)
    requires History(b, moves).live.status.Succeeded? || History(b, moves).file.saved.status.Succeeded?
    ensures History(b, moves).calls != [] && Gated(History(b, moves), History(b, moves).calls[0])
  {
    hide Sound, After, Begun, Gated, Good, EndStays;
    EveryHistoryIsGood(b, moves);
    BegunAgrees(b);
    HistoriesKeepEarned(Begun(b), moves);
    EndIsFinal(Begun(b), moves);
    assert CallsGated(History(b, moves)) by { GoodIsGated(History(b, moves)); }
  }

  lemma GoodIsGated(m: Machine)
    requires Good(m)
    ensures CallsGated(m)
  {
  }

  // ---------- how many calls a workflow makes ----------

  /** One call more than the attempts spent has been made once the action is over. */
  predicate ActionOver(f: Flow) { f.current.FinishStep? || f.status.Terminal() }

  /** Calls are matched by spent attempts and crashes, but for the last one. */
  predicate Thrifty(m: Machine, limit: nat, crashes: nat) {
    && Spent(m.file.saved) <= limit && m.file.saved.retryPolicy.maxAttempts <= limit
    && (m.phase.Looping? ==> m.live == m.file.saved)
    && (m.phase.Raising? ==> Spent(m.live) == Spent(m.file.saved) && m.live.retryPolicy.maxAttempts <= limit)
    && |m.calls| <= Spent(m.file.saved) + crashes + (if m.phase.Raising? || ActionOver(m.file.saved) then 1 else 0)
  }

  /** Every run is configured with at most `limit` retries. */
  predicate Orderly(move: Move, limit: nat) {
    move.Resume? && (move.start.Ready? || move.start.Unbudgeted?) ==> move.start.policy.maxAttempts <= limit
  }

  function Crashes(moves: seq<Move>): nat {
    if moves == [] then 0 else Crashes(moves[..|moves| - 1]) + CrashOf(moves[|moves| - 1])
  }

  function CrashOf(move: Move): nat { if move.Crash? then 1 else 0 }

  lemma HandleEffect(m: Machine, now: Time)
    requires Inv(m) && m.phase.Raising?
    ensures var n := Handle(m, now);
            && n.live == n.file.saved
            && if n.live.status.Terminal() then Spent(n.live) == Spent(m.live)
               else Spent(n.live) == Spent(m.live) + 1 && Spent(n.live) <= m.live.retryPolicy.maxAttempts
  {
    hide Good, Order, Shape, WaitForRetry, FailWorkflow, Written;
    CatchKeepsInv(m, now);
    var fault := FaultOf(m.phase.cause);
    RetriesTouchOnlyTheirs(m.live, fault, now);
    OperationsTouchOnlyTheirs(m.live, 0, fault);
    if m.phase.budgetLoaded && CanScheduleRetry(m.live, fault) {
      OrderRetries(m.live, fault, now);
      BudgetLeft(m.live);
    }
  }

  lemma LoopingOpenOrIdle(m: Machine, o: Oracle)
    requires Inv(m) && m.phase.Looping? && m.live.status.Terminal()
    ensures Dispatch(m, o).calls == m.calls
  {
    hide Good, Order, Find, ExecuteApprovalWait, ExecuteFinish, Ids;
    LoopPlace(m);
    TurnHasEffect(m, o);
  }

  lemma MoveKeepsThrifty(m: Machine, move: Move, limit: nat, crashes: nat)
    requires Inv(m) && EndsAgree(m) && Thrifty(m, limit, crashes) && Orderly(move, limit) && !Restarts(m, move)
    ensures Thrifty(Next(m, move), limit, crashes + CrashOf(move))
  {
    hide Good, Order, Dispatch, Handle, Resumed, Explained, Restarts;
    match move
    case Turn(o) =>
      if m.phase.Looping? {
        TurnHasEffect(m, o);
        if m.live.status.Terminal() { LoopingOpenOrIdle(m, o); }
        TurnStaysOver(m, o);
      }
    case Catch(now) =>
      if m.phase.Raising? {
        HandleEffect(m, now);
        HandleStays(m, now);
      }
    case Resume(id, run, start) => ResumeEffect(m, id, run, start);
    case AddChild(child) => AddChildEffect(m, child);
    case _ =>
  }

  /** A turn on an ended workflow leaves it ended. */
  lemma TurnStaysOver(m: Machine, o: Oracle)
    ensures EndsAgree(m) && m.live.status.Terminal() ==> Dispatch(m, o).live.status == m.live.status
  {
    hide Dispatch;
    TurnEnd(m, o);
  }

  lemma {:induction false} HistoriesKeepThrifty(m: Machine, moves: seq<Move>, limit: nat)
    requires Inv(m) && EndsAgree(m) && Thrifty(m, limit, 0) && Undisturbed(m, moves)
    requires forall i :: 0 <= i < |moves| ==> Orderly(moves[i], limit)
    ensures Thrifty(After(m, moves), limit, Crashes(moves)) && Inv(After(m, moves))
    decreases |moves|
  {
    hide Inv, Next, Orderly, Thrifty, Restarts, EndsAgree, EndStays;
    if moves != [] {
      var n := |moves| - 1;
      var front := moves[..n];
      UndisturbedFront(m, moves);
      HistoriesKeepThrifty(m, front, limit);
      EndIsFinal(m, front);
      MoveKeepsThrifty(After(m, front), moves[n], limit, Crashes(front));
      MoveKeepsInv(After(m, front), moves[n]);
    }
  }

  /** Over every undisturbed history, however many runs, decisions and approvals it has, a workflow whose
      runs allow at most `limit` retries makes at most `limit + 1` calls, and one more for each crash. */
  lemma CallsAreBounded(b: Beginning, moves: seq<Move>, limit: nat)
    requires Sound(b) && Undisturbed(Begun(b), moves)
    requires b.start.Ready? || b.start.Unbudgeted? ==> b.start.policy.maxAttempts <= limit
    requires forall i :: 0 <= i < |moves| ==> Orderly(moves[i], limit)
    ensures |History(b, moves).calls| <= limit + 1 + Crashes(moves)
  {
    hide Sound, After, Begun, Inv, Orderly, Undisturbed, Crashes;
    BegunHasInv(b);
    BegunAgrees(b);
    BegunIsThrifty(b, limit);
    HistoriesKeepThrifty(Begun(b), moves, limit);
  }

  lemma BegunIsThrifty(b: Beginning, limit: nat)
    requires b.start.Ready? || b.start.Unbudgeted? ==> b.start.policy.maxAttempts <= limit
    ensures Thrifty(Begun(b), limit, 0)
  {
    hide Difference;
  }

  // ---------- waits ----------

  /** A scheduled retry spends one attempt, and a later turn resumes it exactly from its backoff on. */
  lemma RetryWaitsItsBackoff(m: Machine, now: Time, later: Time)
    requires Inv(m) && m.phase.Raising? && m.phase.budgetLoaded && CanScheduleRetry(m.live, FaultOf(m.phase.cause))
    ensures var n := Handle(m, now).(phase := Looping);
            && Spent(n.live) == Spent(m.live) + 1 && n.live.retryState.lastError == Some(FaultOf(m.phase.cause))
            && (if later < now + m.live.retryPolicy.backoffSeconds
                then ExecuteRetryWait(n, later) == n.(phase := Over)
                else AtRunningAction(ExecuteRetryWait(n, later).live) && ExecuteRetryWait(n, later).phase.Looping?)
  {
    hide Good, Order, Shape, WaitForRetry, FailWorkflow, Written, ResumeFromRetry, Find;
    var fault := FaultOf(m.phase.cause);
    CatchKeepsInv(m, now);
    OrderRetries(m.live, fault, now);
    RetriesTouchOnlyTheirs(m.live, fault, now);
    RetryStepHoldsTime(m.live, fault, now);
    OrderPlace(Handle(m, now).live);
    OrderResumesRetry(Handle(m, now).live);
  }

  lemma RetryStepHoldsTime(f: Flow, fault: Fault, now: Time)
    requires Order(f) && f.status.Running? && WaitForRetry(f, fault, now).Done?
    ensures var g := WaitForRetry(f, fault, now).flow; var k := Find(g.steps, g.current);
            k.Some? ==> g.steps[k.value].nextRetryAt == Some(now + f.retryPolicy.backoffSeconds)
  {
    RetryAllowed(f, fault, now);
    hide Shape, Redo, Find, WaitForRetry, InsertedBeforeLast;
    OrderPlace(f);
    var g := WaitForRetry(f, fault, now).flow;
    if f.current.ActionStep? && Shape(f) {
      RetryStepInserted(f, fault, now);
      FindInLayout(g, Last(f));
    } else {
      RetryPastAction(f, fault, now);
      PastRetryHoldsTime(f, fault, now);
    }
  }

  lemma PastRetryHoldsTime(f: Flow, fault: Fault, now: Time)
    requires (Redo(f) && f.status.Running?) || (Shape(f) && f.status.Running? && f.current == FinishStep)
    requires fault.retryable && CanRetry(f)
    ensures var g := WaitForRetry(f, fault, now).flow; var k := Find(g.steps, g.current);
            k.Some? ==> g.steps[k.value].nextRetryAt == Some(now + f.retryPolicy.backoffSeconds)
  {
    hide Shape, Redo, Find, WaitForRetry, InsertedBeforeLast, RetriesNumbered, Layout;
    PastActionSays(f);
    RetryPastAction(f, fault, now);
    ActionIsFirst(f);
    NextRetryIsNew(f);
    RetryInserts(f, fault, now);
    var g := WaitForRetry(f, fault, now).flow;
    var step := Step(RetryStep(f.retryState.attemptsUsed + 1), InProgress, Some(now + f.retryPolicy.backoffSeconds),
                     Some(fault), None);
    assert |f.steps| >= 2 by { LayoutIsLong(f); }
    InsertedAt(f.steps, step);
    RedoHasLayout(g);
    FindInLayout(g, |f.steps| - 1);
  }

  lemma RedoHasLayout(f: Flow)
    requires Redo(f)
    ensures Layout(f)
  {
  }

  lemma RetryAllowed(f: Flow, fault: Fault, now: Time)
    requires WaitForRetry(f, fault, now).Done?
    ensures fault.retryable && CanRetry(f)
  {
  }

  /** What a turn at an approval leads to: nothing while it is pending, the action if it is approved or
      resumed, a failed workflow if it is denied or aborted. */
  predicate Decides(status: A.Status, m: Machine, n: Machine, now: Time) {
    match status
    case Pending => n == m.(phase := Over, held := n.held)
    case Approved => n.phase.Looping? && AtRunningAction(n.live) && n.held.Some? && n.held.value.copy.status.Resumed?
    case Resumed => n.phase.Looping? && AtRunningAction(n.live)
    case Denied => n.phase.Raising? && Handle(n, now).file.saved.status.FailedFlow?
    case Aborted => n.phase.Raising? && Handle(n, now).file.saved.status.FailedFlow?
  }

  lemma ApprovalDecides(m: Machine, o: Oracle, now: Time)
    requires Inv(m) && m.phase.Looping? && m.live.current.ApprovalStep?
    ensures m.live.current.approval in m.approvals
    ensures Decides(m.approvals[m.live.current.approval].status, m, Dispatch(m, o), now)
  {
    hide Good, Order, Find, ExecuteApprovalWait, Handle, Ids;
    LoopPlace(m);
    ApprovalWaitInOrder(m);
    TurnKeepsInv(m, o);
    var n := Dispatch(m, o);
    if n.phase.Raising? {
      CatchKeepsInv(n, now);
      RefusedIsNonretryable(m);
      OrderPlace(m.live);
    }
  }

  lemma RefusedIsNonretryable(m: Machine)
    requires m.live.current.ApprovalStep? && Refused(m.approvals, m.live.current.approval)
    ensures ExecuteApprovalWait(m).phase.Raising? && !FaultOf(ExecuteApprovalWait(m).phase.cause).retryable
  {
  }
}
