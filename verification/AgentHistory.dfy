/** Whole histories of a workflow: any number of runs, begun on it in any state, operator decisions at any
    time, crashes between steps. */
module AgentHistory {
  import opened Common
  import opened WorkflowSteps
  import opened WorkflowShape
  import opened WorkflowRedo
  import opened WorkflowAudit
  import opened WorkflowEvolution
  import opened WorkflowIds
  import opened AgentSteps
  import opened AgentSafety
  import opened AgentOrder
  import A = Approvals

  /** What a workflow starts from: the approvals there are, and its first run. */
  datatype Beginning = Beginning(
    approvals: map<ApprovalId, A.Approval>, nextApproval: ApprovalId, run: RunId, runType: RunType, terms: Terms,
        start: Start)

  /** The approvals there are have proper histories, and new ones get new ids. */
  predicate Sound(b: Beginning) {
    forall id :: id in b.approvals ==>
      id < b.nextApproval && A.FollowsTable(b.approvals[id]) && OperatorApproved(b.approvals[id])
  }

  function Begun(b: Beginning): Machine { Created(b.approvals, b.nextApproval, b.run, b.runType, b.terms, b.start) }

  /** The machine after a workflow was started and the moves have happened. */
  function History(b: Beginning, moves: seq<Move>): Machine { After(Begun(b), moves) }

  lemma BegunIsGood(b: Beginning)
    requires Sound(b)
    ensures Good(Begun(b))
  {
    hide Good, Entered;
    var f := CreateWorkflow(b.run, b.runType);
    CreatedIsGood(b.approvals, b.nextApproval, b.run, b.runType, b.terms);
    EnteredKeeps(Machine(b.approvals, b.nextApproval, FirstWrite(f), f, b.run, None, b.terms, Over, false, []),
                 b.start);
  }

  // ---------- what holds after every history ----------

  lemma {:induction false} HistoriesKeepGood(m: Machine, moves: seq<Move>)
    requires Good(m)
    ensures Good(After(m, moves))
    decreases |moves|
  {
    hide Good, Next;
    if moves != [] {
      HistoriesKeepGood(m, moves[..|moves| - 1]);
      MoveKeepsGood(After(m, moves[..|moves| - 1]), moves[|moves| - 1]);
    }
  }

  lemma EveryHistoryIsGood(b: Beginning, moves: seq<Move>)
    requires Sound(b)
    ensures Good(History(b, moves))
  {
    hide Good, After, Begun;
    BegunIsGood(b);
    HistoriesKeepGood(Begun(b), moves);
  }

  /** Requested, then pending, then approved by an operator, then resumed; nothing else. */
  predicate Granted(a: A.Approval) {
    && |a.history| == 4 && a.status.Resumed?
    && a.history[0].state == A.Requested && a.history[1].state == A.Reached(A.Pending)
    && a.history[2] == A.HistoryEntry(A.Reached(A.Approved), A.Operator) && a.history[3].state == A.Reached(A.Resumed)
  }

  /** The call has an approval of this workflow that was granted and agrees with it on every field it fills in. */
  predicate HasGrant(m: Machine, call: Call) {
    && call.approval.Some? && call.approval.value in m.approvals
    && var a := m.approvals[call.approval.value];
       && a.workflowId == m.live.workflowId && Granted(a)
       && var asked, given := call.terms.action, a.action;
          && given.capability == asked.capability
          && (asked.tool.Some? ==> given.tool == asked.tool) && (asked.path.Some? ==> given.path == asked.path)
          && (asked.command.Some? ==> given.command == asked.command)
          && (asked.modelAlias.Some? ==> given.modelAlias == asked.modelAlias)
  }

  lemma GatedIsGranted(m: Machine, call: Call)
    requires StoreOk(m) && Gated(m, call) && call.terms.policy.NeedsApproval?
    ensures HasGrant(m, call)
  {
    A.ResumedWasApproved(m.approvals[call.approval.value]);
  }

  /** The approval gate over every history: each call passed the delegation check, and policy allowed it
      or it has a grant. */
  lemma ApprovalGate(b: Beginning, moves: seq<Move>, i: nat)
    requires Sound(b) && i < |History(b, moves).calls|
    ensures var n := History(b, moves); var call := n.calls[i];
            call.terms.delegated
            && ((call.terms.policy.Allow? && call.approval.None?)
                || (call.terms.policy.NeedsApproval? && HasGrant(n, call)))
  {
    hide Sound, History, FlowOk, Agrees, HasGrant, StoreOk;
    EveryHistoryIsGood(b, moves);
    var n := History(b, moves);
    assert Gated(n, n.calls[i]);
    if n.calls[i].terms.policy.NeedsApproval? { GatedIsGranted(n, n.calls[i]); }
  }

  /** At the end of every history the file's log replays to the file's snapshot and records only moves
      in the closure of the step table. */
  lemma HistoryReplays(b: Beginning, moves: seq<Move>)
    requires Sound(b)
    ensures var n := History(b, moves);
            && Replay(n.file.created, n.file.log) == ViewOf(n.file.saved)
            && (forall i :: 0 <= i < |n.file.log| ==> FollowsTable(n.file.log[i]))
  {
    hide Sound, History, Replay, ViewOf, FollowsTable;
    EveryHistoryIsGood(b, moves);
  }

  // ---------- what holds while no run restarts the workflow ----------

  /** No run begins on the workflow while it is restartable. */
  predicate Undisturbed(m: Machine, moves: seq<Move>) {
    forall i :: 0 <= i < |moves| ==> !Restarts(After(m, moves[..i]), moves[i])
  }

  lemma UndisturbedFront(m: Machine, moves: seq<Move>)
    requires moves != []
    ensures var n := |moves| - 1;
            Undisturbed(m, moves) <==> Undisturbed(m, moves[..n]) && !Restarts(After(m, moves[..n]), moves[n])
  {
    hide Restarts, After;
    var n := |moves| - 1;
    forall i | 0 <= i < n
      ensures moves[..n][..i] == moves[..i] && moves[..n][i] == moves[i]
    {
    }
    if Undisturbed(m, moves) {
      forall i | 0 <= i < n ensures !Restarts(After(m, moves[..n][..i]), moves[..n][i]) {
        assert moves[..n][..i] == moves[..i];
      }
    }
    if Undisturbed(m, moves[..n]) && !Restarts(After(m, moves[..n]), moves[n]) {
      forall i | 0 <= i < |moves| ensures !Restarts(After(m, moves[..i]), moves[i]) {
        if i < n {
          assert moves[..n][..i] == moves[..i];
          assert !Restarts(After(m, moves[..n][..i]), moves[..n][i]);
        }
      }
    }
  }

  /** The invariant holds at every point of a history exactly when the history is undisturbed. */
  lemma {:induction false} HistoriesKeepInv(m: Machine, moves: seq<Move>)
    requires Inv(m)
    ensures Undisturbed(m, moves) <==> forall i :: 0 <= i <= |moves| ==> Inv(After(m, moves[..i]))
    decreases |moves|
  {
    hide Inv, Next, Restarts, Undisturbed;
    if moves == [] {
      assert Undisturbed(m, moves) by { NothingDisturbs(m); }
      assert moves[..0] == moves;
    } else {
      var n := |moves| - 1;
      var front := moves[..n];
      HistoriesKeepInv(m, front);
      UndisturbedFront(m, moves);
      forall i | 0 <= i <= n ensures front[..i] == moves[..i] {}
      assert moves[..n + 1] == moves && front[..n] == front;
      assert (forall i :: 0 <= i <= n ==> Inv(After(m, front[..i]))) <==>
            (forall i :: 0 <= i <= n ==> Inv(After(m, moves[..i]))) by {
        forall i | 0 <= i <= n ensures Inv(After(m, front[..i])) <==> Inv(After(m, moves[..i])) {
          assert front[..i] == moves[..i];
        }
      }
      if Inv(After(m, front)) { MoveKeepsInv(After(m, front), moves[n]); }
      LastOrNot(m, moves);
    }
  }

  lemma NothingDisturbs(m: Machine)
    ensures Undisturbed(m, [])
  {
  }

  lemma LastOrNot(m: Machine, moves: seq<Move>)
    requires moves != []
    ensures var n := |moves| - 1;
            (forall i :: 0 <= i <= |moves| ==> Inv(After(m, moves[..i])))
            <==> (forall i :: 0 <= i <= n ==> Inv(After(m, moves[..i]))) && Inv(After(m, moves))
  {
    hide Inv, After;
    assert moves[..|moves|] == moves;
    assert forall i :: 0 <= i <= |moves| ==> i <= |moves| - 1 || moves[..i] == moves;
  }

  lemma BegunHasInv(b: Beginning)
    requires Sound(b)
    ensures Inv(Begun(b)) && Shaped(Begun(b))
  {
    hide Good, InOrder, Created, Shape;
    BegunIsGood(b);
    CreatedInOrder(b.approvals, b.nextApproval, b.run, b.runType, b.terms, b.start);
  }

  lemma UndisturbedHasInv(b: Beginning, moves: seq<Move>)
    requires Sound(b) && Undisturbed(Begun(b), moves)
    ensures Inv(History(b, moves))
  {
    hide Inv, After, Begun, Undisturbed;
    BegunHasInv(b);
    HistoriesKeepInv(Begun(b), moves);
    assert moves[..|moves|] == moves;
  }

  /** In every undisturbed history whatever ends a run early comes from outside the workflow: no operation
      on it raises, no approval it waits for is missing, and the retry or failure that follows is accepted. */
  lemma GuardsNeverMisfire(b: Beginning, moves: seq<Move>, now: Time)
    requires Sound(b) && Undisturbed(Begun(b), moves) && History(b, moves).phase.Raising?
    ensures var n := History(b, moves);
            && !n.phase.cause.WorkflowBroken? && !n.phase.cause.ApprovalMissing?
            && (n.phase.budgetLoaded && CanScheduleRetry(n.live, FaultOf(n.phase.cause)) ==>
                  WaitForRetry(n.live, FaultOf(n.phase.cause), now).Done?)
            && FailWorkflow(n.live, FaultOf(n.phase.cause)).Done?
  {
    hide Sound, History, Order, WaitForRetry, FailWorkflow, Explained, Undisturbed;
    UndisturbedHasInv(b, moves);
    var n := History(b, moves);
    OrderFails(n.live, FaultOf(n.phase.cause));
    if n.phase.budgetLoaded && CanScheduleRetry(n.live, FaultOf(n.phase.cause)) {
      OrderRetries(n.live, FaultOf(n.phase.cause), now);
    }
  }

  // ---------- the shape ----------

  /** No retry is scheduled at the finish. */
  predicate KeepsResults(m: Machine, moves: seq<Move>) {
    forall i :: 0 <= i < |moves| && moves[i].Catch? ==> !LosesResult(After(m, moves[..i]))
  }

  lemma {:induction false} ShapeUntilLost(m: Machine, moves: seq<Move>)
    requires Inv(m) && Shaped(m) && Undisturbed(m, moves) && KeepsResults(m, moves)
    ensures Shaped(After(m, moves)) && Inv(After(m, moves))
    decreases |moves|
  {
    hide Inv, Next, Restarts, LosesResult, Shape;
    if moves != [] {
      var n := |moves| - 1;
      var front := moves[..n];
      UndisturbedFront(m, moves);
      forall i | 0 <= i < n && front[i].Catch? ensures !LosesResult(After(m, front[..i])) {
        assert front[..i] == moves[..i];
      }
      ShapeUntilLost(m, front);
      MoveKeepsInv(After(m, front), moves[n]);
      MoveKeepsShape(After(m, front), moves[n]);
    }
  }

  /** Throughout an undisturbed history the workflow has its shape, in memory and on disk, exactly when no
      retry is scheduled at the finish, that is, no artifact is lost to an error that counts as retryable
      while retries remain. */
  lemma ShapeStaysExactlyWhen(b: Beginning, moves: seq<Move>)
    requires Sound(b) && Undisturbed(Begun(b), moves)
    ensures (forall i :: 0 <= i <= |moves| ==> Shaped(History(b, moves[..i]))) <==> KeepsResults(Begun(b), moves)
  {
    hide Inv, After, Begun, Shaped, LosesResult, Restarts, Next;
    var m := Begun(b);
    BegunHasInv(b);
    if KeepsResults(m, moves) {
      forall i | 0 <= i <= |moves| ensures Shaped(After(m, moves[..i])) {
        PrefixKeeps(m, moves, i);
        ShapeUntilLost(m, moves[..i]);
      }
    }
    if forall i :: 0 <= i <= |moves| ==> Shaped(After(m, moves[..i])) {
      HistoriesKeepInv(m, moves);
      forall i | 0 <= i < |moves| && moves[i].Catch? ensures !LosesResult(After(m, moves[..i])) {
        OneMove(m, moves, i);
        MoveKeepsShape(After(m, moves[..i]), moves[i]);
        assert Shaped(After(m, moves[..i + 1]));
      }
    }
  }

  lemma {:induction false} AfterThen(m: Machine, a: seq<Move>, b: seq<Move>)
    ensures After(m, a + b) == After(After(m, a), b)
    decreases |b|
  {
    hide Next;
    if b == [] {
      assert a + b == a;
    } else {
      var n := |b| - 1;
      AfterThen(m, a, b[..n]);
      assert (a + b)[..|a + b| - 1] == a + b[..n];
    }
  }

  lemma TwoMoves(m: Machine, a: Move, b: Move)
    ensures After(m, [a, b]) == Next(Next(m, a), b)
  {
    hide Next;
    assert [a, b][..1] == [a] && [a][..0] == [];
    assert After(m, [a]) == Next(After(m, []), a);
  }

  lemma ThreeMoves(m: Machine, a: Move, b: Move, c: Move)
    ensures After(m, [a, b, c]) == Next(Next(Next(m, a), b), c)
  {
    hide Next;
    assert [a, b, c][..2] == [a, b];
    TwoMoves(m, a, b);
  }

  lemma OneMove(m: Machine, moves: seq<Move>, i: nat)
    requires i < |moves|
    ensures After(m, moves[..i + 1]) == Next(After(m, moves[..i]), moves[i])
  {
    assert moves[..i + 1][..i] == moves[..i];
  }

  lemma PrefixKeeps(m: Machine, moves: seq<Move>, n: nat)
    requires n <= |moves| && Undisturbed(m, moves) && KeepsResults(m, moves)
    ensures Undisturbed(m, moves[..n]) && KeepsResults(m, moves[..n])
  {
    hide Restarts, LosesResult, After;
    var front := moves[..n];
    forall i | 0 <= i < n ensures front[..i] == moves[..i] && front[i] == moves[i] {}
    forall i | 0 <= i < n ensures !Restarts(After(m, front[..i]), front[i]) {
      assert front[..i] == moves[..i];
    }
    forall i | 0 <= i < n && front[i].Catch? ensures !LosesResult(After(m, front[..i])) {
      assert front[..i] == moves[..i];
    }
  }

  // ---------- what only grows ----------

  /** An approval some time later: it is for the same action, its history has only grown, and once settled it stays
      as it is. */
  predicate Aged(a: A.Approval, b: A.Approval) {
    && b.action == a.action && b.workflowId == a.workflowId && b.requestedRunId == a.requestedRunId
    && a.history <= b.history && (A.Settled(a.status) ==> b == a)
  }

  /** The log, the list of calls and the histories of the approvals only grow. */
  predicate Grown(m: Machine, n: Machine) {
    && n.file.created == m.file.created && m.file.log <= n.file.log && m.calls <= n.calls
    && (forall id :: id in m.approvals ==> id in n.approvals && Aged(m.approvals[id], n.approvals[id]))
  }

  lemma GrownThrough(a: Machine, b: Machine, c: Machine)
    requires Grown(a, b) && Grown(b, c)
    ensures Grown(a, c)
  {
  }

  lemma ThenGrows(m: Machine, attempt: Attempt)
    ensures Grown(m, Then(m, attempt)) && Grown(m, Persist(m))
  {
    hide Difference;
  }

  lemma ApprovalStepGrows(m: Machine, id: ApprovalId, a: A.Approval, held: Option<Held>)
    requires id in m.approvals ==> Aged(m.approvals[id], a)
    ensures Grown(m, m.(approvals := m.approvals[id := a], held := held))
    ensures Grown(m, m.(approvals := m.approvals[id := a], nextApproval := m.nextApproval + 1, held := held))
  {
  }

  lemma MarkingAges(a: A.Approval, run: RunId)
    ensures A.MarkedResumed(a, run).Ok? ==> a.status.Approved? && Aged(a, A.MarkedResumed(a, run).approval)
  {
  }

  lemma MakeCallGrows(m: Machine, approval: Option<ApprovalId>, outcome: CallOutcome)
    ensures Grown(m, MakeCall(m, approval, outcome))
  {
    hide Then, MarkActionCompleted, RegisterMemory;
    var called := m.(calls := m.calls + [Call(m.terms, approval)]);
    if outcome.Answered? {
      var got := called.(answered := true);
      var told := if outcome.memory.Some? then got.(live := RegisterMemory(got.live, outcome.memory.value)) else got;
      ThenGrows(told, MarkActionCompleted(told.live));
    }
  }

  lemma ApprovedCallGrows(m: Machine, outcome: CallOutcome)
    requires StoreOk(m) && m.held.Some?
    ensures Grown(m, MakeApprovedCall(m, outcome))
  {
    hide MakeCall, A.MarkedResumed, Grown;
    var id := m.held.value.id;
    GrownRefl(m);
    MakeCallGrows(m, Some(id), outcome);
    if id in m.approvals && A.MarkedResumed(m.approvals[id], m.run).Ok? {
      MarkingAges(m.approvals[id], m.run);
      var a := A.MarkedResumed(m.approvals[id], m.run).approval;
      var n := m.(approvals := m.approvals[id := a], held := Some(Held(id, a)));
      ApprovalStepGrows(m, id, a, Some(Held(id, a)));
      MakeCallGrows(n, Some(id), outcome);
      GrownThrough(m, n, MakeCall(n, Some(id), outcome));
    }
  }

  lemma RequestGrows(m: Machine)
    requires StoreOk(m)
    ensures Grown(m, RequestApproval(m))
  {
    hide Then, WaitForApproval, Grown, A.FollowsTable, OperatorApproved;
    var a := A.NewApproval(m.terms.action, m.live.workflowId, m.run);
    var n := m.(approvals := m.approvals[m.nextApproval := a], nextApproval := m.nextApproval + 1,
                held := Some(Held(m.nextApproval, a)));
    ApprovalStepGrows(m, m.nextApproval, a, n.held);
    ThenGrows(n, WaitForApproval(m.live, m.nextApproval));
    GrownThrough(m, n, RequestApproval(m));
  }

  lemma ActionGrows(m: Machine, o: Oracle)
    requires StoreOk(m)
    ensures Grown(m, ExecuteAction(m, o))
  {
    hide MakeCall, MakeApprovedCall, RequestApproval, Persist, Matches, Grown, StoreOk;
    var p := Persist(m);
    ThenGrows(m, Done(m.live));
    PersistKeeps(m);
    GrownRefl(m);
    GrownRefl(p);
    MakeCallGrows(p, None, o.outcome);
    MatchesHeld(p);
    if Matches(p) { ApprovedCallGrows(p, o.outcome); } else { RequestGrows(p); }
    if o.early.None? { GrownThrough(m, p, ExecuteAction(m, o)); }
  }

  lemma PersistKeeps(m: Machine)
    ensures Persist(m) == m.(file := Persist(m).file) && (StoreOk(m) ==> StoreOk(Persist(m)))
  {
  }

  lemma ApprovalWaitGrows(m: Machine)
    requires m.live.current.ApprovalStep?
    ensures Grown(m, ExecuteApprovalWait(m))
  {
    hide Then, A.MarkedResumed, ResumeFromApproval, Grown, Aged;
    var id := m.live.current.approval;
    OnlyHolds(m, m.(phase := ExecuteApprovalWait(m).phase, held := ExecuteApprovalWait(m).held));
    if id in m.approvals {
      var found := m.(held := Some(Held(id, m.approvals[id])));
      OnlyHolds(m, found);
      ThenGrows(found, ResumeFromApproval(m.live, id));
      GrownThrough(m, found, Then(found, ResumeFromApproval(m.live, id)));
      if m.approvals[id].status.Approved? && A.MarkedResumed(m.approvals[id], m.run).Ok? {
        var a := A.MarkedResumed(m.approvals[id], m.run).approval;
        MarkingAges(m.approvals[id], m.run);
        ApprovalStepGrows(m, id, a, Some(Held(id, a)));
        var marked := found.(approvals := m.approvals[id := a], held := Some(Held(id, a)));
        ThenGrows(marked, ResumeFromApproval(m.live, id));
        GrownThrough(m, marked, Then(marked, ResumeFromApproval(m.live, id)));
      }
    }
  }

  lemma OnlyHolds(m: Machine, n: Machine)
    requires n == m.(phase := n.phase, held := n.held)
    ensures Grown(m, n)
  {
  }

  lemma TurnGrows(m: Machine, o: Oracle)
    requires StoreOk(m)
    ensures Grown(m, Dispatch(m, o))
  {
    hide Find, ExecuteAction, ExecuteApprovalWait, Written, Then, ResumeFromRetry, CompleteFinishStep,
        RegisterArtifact, Grown;
    assert Grown(m, m) && forall cause :: Grown(m, Raise(m, cause)) by { GrownRefl(m); }
    match m.live.current
    case RetryStep(_) =>
      ThenGrows(m, ResumeFromRetry(m.live));
      GrownRefl(m);
    case ApprovalStep(_) => ApprovalWaitGrows(m);
    case ActionStep(_) => ActionGrows(m, o);
    case FinishStep => FinishGrows(m, o);
  }

  lemma GrownRefl(m: Machine)
    ensures Grown(m, m) && (forall phase, live :: Grown(m, m.(phase := phase, live := live)))
  {
  }

  lemma FinishGrows(m: Machine, o: Oracle)
    ensures Grown(m, ExecuteFinish(m, o))
  {
    hide Difference, CompleteFinishStep, RegisterArtifact;
  }

  lemma HandleGrows(m: Machine, now: Time)
    requires m.phase.Raising?
    ensures Grown(m, Handle(m, now))
  {
    hide Difference, WaitForRetry, FailWorkflow;
  }

  lemma ResumeGrows(m: Machine, id: ApprovalId, run: RunId, start: Start)
    ensures Grown(m, Resumed(m, id, run, start))
  {
    hide Difference, ConfigureRetryPolicy, AttachRun;
  }

  lemma MoveGrows(m: Machine, move: Move)
    requires StoreOk(m)
    ensures Grown(m, Next(m, move))
  {
    hide Dispatch, Handle, Resumed, Difference, A.FollowsTable, OperatorApproved;
    match move
    case Turn(o) => TurnGrows(m, o);
    case Catch(now) => if m.phase.Raising? { HandleGrows(m, now); }
    case Resume(id, run, start) => ResumeGrows(m, id, run, start);
    case _ =>
  }

  /** Over every history the log, the calls and the histories of the approvals only grow, and settled approvals
      stay. */
  lemma {:induction false} HistoriesGrow(m: Machine, moves: seq<Move>)
    requires Good(m)
    ensures Grown(m, After(m, moves))
    decreases |moves|
  {
    hide Good, Next, Grown;
    if moves == [] {
      GrownRefl(m);
    } else {
      var front := moves[..|moves| - 1];
      HistoriesKeepGood(m, front);
      HistoriesGrow(m, front);
      GoodStoreOk(After(m, front));
      MoveGrows(After(m, front), moves[|moves| - 1]);
      GrownThrough(m, After(m, front), After(m, moves));
    }
  }

  lemma GoodStoreOk(m: Machine)
    requires Good(m)
    ensures StoreOk(m)
  {
  }
}
