/** One turn of the interpreter's loop, and the beginning of a run, field by field: who may call and with which
    approval, who has to ask, who is refused, and what is on file afterwards. */
module AgentTurns {
  import opened Common
  import opened WorkflowSteps
  import opened WorkflowShape
  import opened WorkflowRedo
  import opened WorkflowAudit
  import opened WorkflowEvolution
  import opened WorkflowIds
  import opened AgentSteps
  import opened AgentSafety
  import opened AgentOrder
  import A = Approvals

  function RaisedWith(m: Machine, cause: Cause): Machine { m.(phase := Raising(cause, true)) }

  // ---------- the call ----------

  /** What a call comes to: it is not made, it is made and fails, or it is answered; then the action is completed
      and the workflow at its finish, on file, unless the answer is refused. */
  predicate CallMade(m: Machine, n: Machine, approval: Option<ApprovalId>, outcome: CallOutcome) {
    match outcome
    case NotMade(fault) => n == RaisedWith(m, Foreign(fault))
    case Failed(fault) => n == RaisedWith(m.(calls := m.calls + [Call(m.terms, approval)]), Foreign(fault))
    case Answered(memory, after) =>
      && n == m.(calls := m.calls + [Call(m.terms, approval)], answered := true, live := n.live, file := n.file,
                 phase := n.phase)
      && n.live.retryState == m.live.retryState && n.live.retryPolicy == m.live.retryPolicy
      && (match memory
          case None => n.live.memories == m.live.memories
          case Some(x) => x in n.live.memories)
      && (match after
          case Some(fault) => n.phase == Raising(Foreign(fault), true) && n.file == m.file
                              && n.live == m.live.(memories := n.live.memories)
          case None => n.phase.Looping? && n.live.current == FinishStep && n.live.status.Running?
                       && n.file.saved == n.live)
  }

  lemma CallLaw(m: Machine, approval: Option<ApprovalId>, outcome: CallOutcome)
    requires InOrder(m) && m.phase.Looping? && AtRunningAction(m.live)
    ensures CallMade(m, MakeCall(m, approval, outcome), approval, outcome)
  {
    hide Order, Shape, MarkActionCompleted, PutMemory, Written;
    if outcome.Answered? {
      var f := if outcome.memory.Some? then RegisterMemory(m.live, outcome.memory.value) else m.live;
      if outcome.memory.Some? {
        MemoryInOrder(m.live, outcome.memory.value);
        MemoryIsPut(m.live.memories, outcome.memory.value);
      }
      OrderCompletes(f);
      ActionEndTouchesOnlyIts(f);
      WrittenSaves(m.file, MarkActionCompleted(f).flow);
    }
  }

  lemma MemoryIsPut(memories: seq<Memory>, x: Memory)
    ensures x in PutMemory(memories, x)
  {
  }

  /** The run holds an approval it may use: approved, or resumed, and agreeing with its action on all that the action
      fills in. */
  predicate HasApproval(m: Machine) {
    && m.held.Some? && (m.held.value.copy.status.Approved? || m.held.value.copy.status.Resumed?)
    && var asked, given := m.terms.action, m.held.value.copy.action;
       && given.capability == asked.capability
       && (asked.tool.None? || asked.tool == given.tool) && (asked.path.None? || asked.path == given.path)
       && (asked.command.None? || asked.command == given.command)
       && (asked.modelAlias.None? || asked.modelAlias == given.modelAlias)
  }

  /** Asked: a new approval for the run's action is pending, the run holds it, and the workflow waits for it. */
  predicate Asked(m: Machine, n: Machine) {
    var id := m.nextApproval;
    var a := A.Approval(A.Pending, m.terms.action, m.live.workflowId, m.run, None,
                        [A.HistoryEntry(A.Requested, A.System), A.HistoryEntry(A.Reached(A.Pending), A.System)]);
    && n == m.(approvals := m.approvals[id := a], nextApproval := id + 1, held := Some(Held(id, a)),
               live := n.live, file := n.file)
    && n.live.status.Waiting? && n.live.current == ApprovalStep(id) && n.file.saved == n.live
    && n.live.retryState == m.live.retryState
  }

  lemma AskLaw(m: Machine)
    requires Inv(m) && m.phase.Looping? && AtRunningAction(m.live)
    ensures Asked(m, RequestApproval(m))
  {
    hide Good, Order, WaitForApproval, Ids, HasStep, Written;
    RequestKeeps(m);
    HasStepIsId(m.live, ApprovalStep(m.nextApproval));
    OrderAsks(m.live, m.nextApproval);
    WaitsTouchOnlyTheirs(m.live, m.nextApproval);
    WrittenSaves(m.file, WaitForApproval(m.live, m.nextApproval).flow);
  }

  /** At its action a run raises what raises before the call; else it writes the workflow and is refused by the
      delegation or by policy, calls, or asks. With an approval that is only approved so far, the run marks it
      resumed, which raises if it no longer is. */
  lemma ActionTurnLaw(m: Machine, o: Oracle)
    requires Inv(m) && m.phase.Looping? && m.live.current.ActionStep?
    ensures var n := Dispatch(m, o); var p := m.(file := Written(m.file, m.live));
            if o.early.Some? then n == RaisedWith(m, Foreign(o.early.value))
            else if !m.terms.delegated then n == RaisedWith(p, DelegationDenied)
            else if m.terms.policy.Deny? then n == RaisedWith(p, PolicyDenied)
            else if m.terms.policy.Allow? then CallMade(p, n, None, o.outcome)
            else if !HasApproval(m) then Asked(p, n)
            else
              var id := m.held.value.id;
              && id in m.approvals
              && if m.held.value.copy.status.Resumed? then CallMade(p, n, Some(id), o.outcome)
                 else if !m.approvals[id].status.Approved? then n == RaisedWith(p, ApprovalState)
                 else
                   var a := m.approvals[id].(status := A.Resumed, resumedRunId := Some(m.run),
                                             history := m.approvals[id].history
                                                        + [A.HistoryEntry(A.Reached(A.Resumed), A.System)]);
                   CallMade(p.(approvals := m.approvals[id := a], held := Some(Held(id, a))), n, Some(id), o.outcome)
  {
    hide Good, Order, Shape, Find, MakeCall, RequestApproval, Ids, CallMade, Asked, Written;
    LoopPlace(m);
    Persists(m);
    WrittenSaves(m.file, m.live);
    var p := Persist(m);
    CallLaw(p, None, o.outcome);
    AskLaw(p);
    assert Matches(p) <==> HasApproval(m);
    if m.held.Some? {
      var id := m.held.value.id;
      ApprovalFacts(m, id);
      CallLaw(p, Some(id), o.outcome);
      if m.approvals[id].status.Approved? {
        var a := A.MarkedResumed(m.approvals[id], m.run).approval;
        CallLaw(p.(approvals := m.approvals[id := a], held := Some(Held(id, a))), Some(id), o.outcome);
      }
    }
  }

  // ---------- the waits ----------

  /** Back at the running action, on file. */
  predicate BackAtAction(m: Machine, n: Machine) {
    && n == m.(live := n.live, file := n.file) && n.file.saved == n.live
    && n.live.status.Running? && n.live.current == ActionStep(m.live.runType)
    && n.live.retryState.attemptsUsed == m.live.retryState.attemptsUsed && n.live.retryPolicy == m.live.retryPolicy
  }

  /** At an approval wait: the run ends while nothing is decided; an approval that is approved is marked resumed, and
      then, or if it is resumed already, the run goes back to the action; refused and aborted ones raise. */
  lemma ApprovalTurnLaw(m: Machine, o: Oracle)
    requires Inv(m) && m.phase.Looping? && m.live.current.ApprovalStep?
    ensures var id, n := m.live.current.approval, Dispatch(m, o);
            && id in m.approvals
            && var found := m.(held := Some(Held(id, m.approvals[id])));
               match m.approvals[id].status
               case Pending => n == found.(phase := Over)
               case Approved =>
                 var a := m.approvals[id].(status := A.Resumed, resumedRunId := Some(m.run),
                                           history := m.approvals[id].history
                                                      + [A.HistoryEntry(A.Reached(A.Resumed), A.System)]);
                 BackAtAction(m.(approvals := m.approvals[id := a], held := Some(Held(id, a))), n)
               case Resumed => BackAtAction(found, n)
               case Denied => n == RaisedWith(found, ApprovalDenied)
               case Aborted => n == RaisedWith(found, ApprovalState)
  {
    hide Good, Order, Shape, Find, ResumeFromApproval, Ids, Written;
    LoopPlace(m);
    var id := m.live.current.approval;
    ApprovalFacts(m, id);
    if m.approvals[id].status.Approved? || m.approvals[id].status.Resumed? {
      OrderResumesApproval(m.live, id);
      WaitsTouchOnlyTheirs(m.live, id);
      ResumeIsAtAction(m.live, id);
      WrittenSaves(m.file, ResumeFromApproval(m.live, id).flow);
    }
  }

  lemma ResumeIsAtAction(f: Flow, id: ApprovalId)
    requires ResumeFromApproval(f, id).Done?
    ensures ResumeFromApproval(f, id).flow.current == ActionStep(f.runType)
  {
    ResumesMove(f, id);
  }

  /** At a retry wait: the run ends before the time of the retry, and from then on goes back to the action. */
  lemma RetryTurnLaw(m: Machine, o: Oracle)
    requires Inv(m) && m.phase.Looping? && m.live.current.RetryStep?
    ensures var k := Find(m.live.steps, m.live.current); var n := Dispatch(m, o);
            && k.Some?
            && match m.live.steps[k.value].nextRetryAt
               case Some(at) => if o.now < at then n == m.(phase := Over) else BackAtAction(m, n)
               case None => BackAtAction(m, n)
  {
    hide Good, Order, Shape, Find, ResumeFromRetry, Ids, Written;
    LoopPlace(m);
    OrderResumesRetry(m.live);
    RetriesTouchOnlyTheirs(m.live, Fault("", "", false), 0);
    ResumesMove(m.live, 0);
    WrittenSaves(m.file, ResumeFromRetry(m.live).flow);
  }

  // ---------- the finish ----------

  /** At the finish: without a result of its own the run raises, and so it does if the artifact is lost; else the
      artifact is registered, once, and the workflow has succeeded, on file. */
  lemma FinishTurnLaw(m: Machine, o: Oracle)
    requires Inv(m) && m.phase.Looping? && m.live.current.FinishStep?
    ensures var n := Dispatch(m, o);
            if !m.answered then n == RaisedWith(m, NoResult)
            else if o.lost.Some? then n == RaisedWith(m, Foreign(o.lost.value))
            else
              && n == m.(live := n.live, file := n.file, phase := Over) && n.file.saved == n.live
              && n.live.status.Succeeded? && n.live.current == FinishStep && n.live.memories == m.live.memories
              && n.live.artifacts == (if o.artifact in m.live.artifacts then m.live.artifacts
                                      else m.live.artifacts + [o.artifact])
  {
    hide Good, Order, Shape, Find, CompleteFinishStep, Ids, Written;
    LoopPlace(m);
    if m.answered && o.lost.None? {
      var g := RegisterArtifact(m.live, o.artifact);
      ArtifactInOrder(m.live, o.artifact);
      OrderAtFinish(g);
      CompleteFinishMoves(g);
      FinishIsCurrent(g);
      OperationsTouchOnlyTheirs(g, 0, Fault("", "", false));
      WrittenSaves(m.file, CompleteFinishStep(g).flow);
    }
  }

  lemma FinishIsCurrent(f: Flow)
    requires CompleteFinishStep(f).Done?
    ensures CompleteFinishStep(f).flow.current == FinishStep
  {
    hide Find;
  }

  // ---------- the beginning of a run ----------

  /** The workflow under the retry policy of the run. */
  function Budgeted(f: Flow, policy: RetryPolicy): Flow {
    f.(retryPolicy := policy,
       retryState := f.retryState.(retriesRemaining :=
         if policy.maxAttempts > f.retryState.attemptsUsed then policy.maxAttempts - f.retryState.attemptsUsed else 0))
  }

  /** A run begins: under its policy and its terms, on file, or it raises before its loop. */
  predicate Starts(m: Machine, n: Machine, start: Start) {
    match start
    case Misfit(fault) => n == m.(phase := Raising(Foreign(fault), false))
    case Unconfigured(fault) => n == m.(phase := Raising(Foreign(fault), false))
    case Unbudgeted(policy, written, fault) =>
      && n == m.(live := Budgeted(m.live, policy), file := n.file, phase := Raising(Foreign(fault), false))
      && (if written then n.file.saved == n.live else n.file == m.file)
    case Ready(policy, terms) =>
      && n == m.(live := Budgeted(m.live, policy), file := n.file, phase := Looping, terms := terms)
      && n.file.saved == n.live
  }

  lemma StartLaw(m: Machine, start: Start)
    ensures Starts(m, Entered(m, start), start)
  {
    hide Written;
    if start.Ready? || start.Unbudgeted? { WrittenSaves(m.file, ConfigureRetryPolicy(m.live, start.policy)); }
  }

  /** A first run begins on a workflow with the run's id, running at its action, without a retry spent. */
  lemma FirstRunLaw(approvals: map<ApprovalId, A.Approval>, nextApproval: ApprovalId, run: RunId, runType: RunType,
                    terms: Terms, start: Start)
    ensures var n := Created(approvals, nextApproval, run, runType, terms, start);
            var f := Flow(run, run, runType, Running, ActionStep(runType),
                          [Step(ActionStep(runType), InProgress, None, None, None),
                           Step(FinishStep, StepStatus.Pending, None, None, None)],
                          [], [], [], RetryPolicy(0, 0), RetryState(0, 0, None, None));
            exists file: Record :: file.saved == f
              && Starts(Machine(approvals, nextApproval, file, f, run, None, terms, Over, false, []), n, start)
  {
    var f := CreateWorkflow(run, runType);
    StartLaw(Machine(approvals, nextApproval, FirstWrite(f), f, run, None, terms, Over, false, []), start);
    assert FirstWrite(f).saved == f;
  }

  /** A later run begins if none is under way and the approval is one of the workflow's. It works on what is on file,
      is attached to it unless the request does not fit, and holds the approval as it is. */
  lemma LaterRunLaw(m: Machine, id: ApprovalId, run: RunId, start: Start)
    ensures var n := Next(m, Resume(id, run, start));
            if !(m.phase.Over? && id in m.approvals && m.approvals[id].workflowId == m.file.saved.workflowId)
            then n == m
            else
              exists file: Record :: && file.created == m.file.created && m.file.log <= file.log
                && file.saved == (if start.Misfit? then m.file.saved else m.file.saved.(latestRunId := run))
                && Starts(m.(run := run, held := Some(Held(id, m.approvals[id])), live := file.saved,
                             answered := false, file := file), n, start)
  {
    hide Difference;
    if m.phase.Over? && id in m.approvals && m.approvals[id].workflowId == m.file.saved.workflowId {
      var loaded := m.(run := run, held := Some(Held(id, m.approvals[id])), live := m.file.saved, answered := false);
      var begun := if start.Misfit? then loaded else Persist(loaded.(live := AttachRun(loaded.live, run)));
      StartLaw(begun, start);
      assert begun.file.saved == begun.live;
    }
  }
}
