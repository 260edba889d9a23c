/** What every step of every run on a workflow keeps, whatever the workflow's state was when the run began:
    a history that replays, and the approval gate in front of every tool and model call. */
module AgentSafety {
  import opened Common
  import opened WorkflowSteps
  import opened WorkflowAudit
  import opened WorkflowEvolution
  import opened WorkflowIds
  import opened AgentSteps
  import A = Approvals

  // ---------- the invariant ----------

  predicate OperatorApproved(a: A.Approval) {
    forall i :: 0 <= i < |a.history| && a.history[i].state == A.Reached(A.Approved) ==> a.history[i].actor.Operator?
  }

  predicate StoreOk(m: Machine) {
    forall id :: id in m.approvals ==>
          id < m.nextApproval && A.FollowsTable(m.approvals[id]) && OperatorApproved(m.approvals[id])
  }

  /** Every approval the workflow waits for, or waited for, is its own. */
  ghost predicate WaitsKnown(m: Machine, f: Flow) {
    forall id: ApprovalId :: ApprovalStep(id) in Ids(f.steps) ==>
          id in m.approvals && m.approvals[id].workflowId == f.workflowId
  }

  predicate HeldOk(m: Machine) {
    m.held.Some? ==>
      var Held(id, copy) := m.held.value;
      && id in m.approvals && m.approvals[id].workflowId == m.live.workflowId && m.approvals[id].action == copy.action
      && (copy.status.Resumed? ==> m.approvals[id].status.Resumed?)
  }

  /** A call is behind the gate: the delegation allows it, and either policy does too, without an approval, or a
      resumed approval of this workflow grants the action. */
  predicate Gated(m: Machine, call: Call) {
    && call.terms.delegated
    && ((call.terms.policy.Allow? && call.approval.None?)
        || (call.terms.policy.NeedsApproval? && call.approval.Some?
            && var id := call.approval.value;
            && id in m.approvals && m.approvals[id].workflowId == m.live.workflowId
            && m.approvals[id].status.Resumed? && Agrees(call.terms.action, m.approvals[id].action)))
  }

  predicate CallsGated(m: Machine) { forall i :: 0 <= i < |m.calls| ==> Gated(m, m.calls[i]) }

  ghost predicate FlowOk(m: Machine) {
    m.live.workflowId == m.file.saved.workflowId && Explained(m.file, m.live)
  }

  ghost predicate Good(m: Machine) {
    FlowOk(m) && StoreOk(m) && WaitsKnown(m, m.live) && WaitsKnown(m, m.file.saved) && HeldOk(m) && CallsGated(m)
  }

  // ---------- moving the parts ----------

  lemma CreatedIsGood(approvals: map<ApprovalId, A.Approval>, nextApproval: ApprovalId, run: RunId, runType: RunType,
                      terms: Terms)
    requires forall id :: id in approvals ==>
               id < nextApproval && A.FollowsTable(approvals[id]) && OperatorApproved(approvals[id])
    ensures var f := CreateWorkflow(run, runType);
            Good(Machine(approvals, nextApproval, FirstWrite(f), f, run, None, terms, Over, false, []))
  {
    var f := CreateWorkflow(run, runType);
    FirstWriteExplains(f);
    assert Ids(f.steps) == {ActionStep(runType), FinishStep} by {
      assert f.steps[0] in f.steps && f.steps[1] in f.steps;
    }
  }

  /** An operation that keeps the ids may be written or not. */
  lemma FlowMoves(m: Machine, f: Flow)
    requires Good(m) && Evolves(m.live, f) && KeepsIds(m.live, f)
    ensures Good(m.(live := f)) && Good(Persist(m.(live := f)))
  {
    hide Explained, Evolves, Written;
    ChangeStaysExplained(m.file, m.live, f);
    WriteStaysExplained(m.file, f);
    assert Written(m.file, f).saved == f by { WrittenSaves(m.file, f); }
  }

  lemma WrittenSaves(r: Record, f: Flow)
    ensures Written(r, f).saved == f
  {
  }

  lemma Persists(m: Machine)
    requires Good(m)
    ensures Good(Persist(m))
  {
    hide Explained, Written;
    WriteStaysExplained(m.file, m.live);
    WrittenSaves(m.file, m.live);
  }

  /** What an approval may turn into. */
  predicate Succeeds(a: A.Approval, b: A.Approval) {
    && b.action == a.action && b.workflowId == a.workflowId && A.FollowsTable(b) && OperatorApproved(b)
    && (a.status.Resumed? ==> b.status.Resumed?)
  }

  lemma UpdatedSucceeds(a: A.Approval, status: A.Status, actor: A.Actor)
    requires A.FollowsTable(a) && OperatorApproved(a) && (status.Approved? ==> actor.Operator?)
    ensures A.Updated(a, status, actor).Ok? ==> Succeeds(a, A.Updated(a, status, actor).approval)
  {
    A.UpdateFollowsTable(a, status, actor);
  }

  lemma ResumedSucceeds(a: A.Approval, run: RunId)
    requires A.FollowsTable(a) && OperatorApproved(a)
    ensures A.MarkedResumed(a, run).Ok? <==> a.status.Approved?
    ensures A.MarkedResumed(a, run).Ok? ==>
              var b := A.MarkedResumed(a, run).approval; Succeeds(a, b) && b.status.Resumed?
  {
    UpdatedSucceeds(a, A.Resumed, A.System);
  }

  lemma ApprovalMoves(m: Machine, id: ApprovalId, a: A.Approval)
    requires Good(m) && id in m.approvals && Succeeds(m.approvals[id], a)
    ensures Good(m.(approvals := m.approvals[id := a]))
  {
    hide FlowOk, A.FollowsTable, OperatorApproved, Agrees, Ids;
    var n := m.(approvals := m.approvals[id := a]);
    assert FlowOk(n) by { FlowOkAlone(m, n); }
    forall i | 0 <= i < |n.calls| ensures Gated(n, n.calls[i]) {
      assert Gated(m, m.calls[i]);
    }
  }

  lemma FlowOkAlone(m: Machine, n: Machine)
    requires FlowOk(m) && n.file == m.file && n.live == m.live
    ensures FlowOk(n)
  {
  }

  lemma ApprovalAdded(m: Machine, a: A.Approval)
    requires Good(m) && A.FollowsTable(a) && OperatorApproved(a)
    ensures Good(m.(approvals := m.approvals[m.nextApproval := a], nextApproval := m.nextApproval + 1))
    ensures m.nextApproval !in m.approvals
  {
    hide FlowOk, A.FollowsTable, OperatorApproved, Agrees, Ids;
    var n := m.(approvals := m.approvals[m.nextApproval := a], nextApproval := m.nextApproval + 1);
    assert FlowOk(n) by { FlowOkAlone(m, n); }
    forall i | 0 <= i < |n.calls| ensures Gated(n, n.calls[i]) {
      assert Gated(m, m.calls[i]);
    }
  }

  /** The run takes hold of an approval of its workflow, as the store has it now. */
  lemma Holds(m: Machine, id: ApprovalId)
    requires Good(m) && id in m.approvals && m.approvals[id].workflowId == m.live.workflowId
    ensures Good(m.(held := Some(Held(id, m.approvals[id]))))
  {
    hide FlowOk, A.FollowsTable, OperatorApproved, Agrees, Ids;
    var n := m.(held := Some(Held(id, m.approvals[id])));
    assert FlowOk(n) by { FlowOkAlone(m, n); }
    forall i | 0 <= i < |n.calls| ensures Gated(n, n.calls[i]) {
      assert Gated(m, m.calls[i]);
    }
  }

  lemma CallMoves(m: Machine, call: Call)
    requires Good(m) && Gated(m, call)
    ensures Good(m.(calls := m.calls + [call]))
  {
    hide FlowOk, A.FollowsTable, OperatorApproved, Agrees, Ids;
    var n := m.(calls := m.calls + [call]);
    assert FlowOk(n) by { FlowOkAlone(m, n); }
    forall i | 0 <= i < |n.calls| ensures Gated(n, n.calls[i]) {
      assert i < |m.calls| ==> Gated(m, m.calls[i]);
    }
  }

  /** Everything but the phase, the run and its terms is as in a good machine. */
  lemma OtherFieldsFree(m: Machine, n: Machine)
    requires Good(m) && n.approvals == m.approvals && n.nextApproval == m.nextApproval && n.file == m.file
    requires n.live == m.live && n.held == m.held && n.calls == m.calls
    ensures Good(n)
  {
    hide FlowOk, A.FollowsTable, OperatorApproved, Agrees, Ids;
    assert FlowOk(n) by { FlowOkAlone(m, n); }
    forall i | 0 <= i < |n.calls| ensures Gated(n, n.calls[i]) {
      assert Gated(m, m.calls[i]);
    }
  }

  lemma GoodIsExplained(m: Machine)
    requires Good(m)
    ensures Explained(m.file, m.live) && DistinctIds(m.live.steps)
    ensures m.live.workflowId == m.file.saved.workflowId && DistinctIds(m.file.saved.steps)
  {
  }

  /** Two machines that differ only in what they write or raise. */
  lemma ThenKeeps(m: Machine, attempt: Attempt)
    requires Good(m) && Evolves(m.live, attempt.flow) && KeepsIds(m.live, attempt.flow)
    ensures Good(Then(m, attempt))
  {
    hide Good, Explained, Evolves, KeepsIds, Written;
    FlowMoves(m, attempt.flow);
    if attempt.Raised? {
      OtherFieldsFree(m.(live := attempt.flow), Then(m, attempt));
    }
  }

  lemma RaiseKeeps(m: Machine, cause: Cause)
    requires Good(m)
    ensures Good(Raise(m, cause)) && Good(m.(phase := Over))
  {
    hide Good;
    OtherFieldsFree(m, Raise(m, cause));
    OtherFieldsFree(m, m.(phase := Over));
  }

  // ---------- the steps of a run ----------

  lemma RetryWaitKeeps(m: Machine, now: Time)
    requires Good(m)
    ensures Good(ExecuteRetryWait(m, now))
  {
    hide Good, Explained, DistinctIds, Find, ResumeFromRetry, Then, KeepsIds, Evolves;
    GoodIsExplained(m);
    RaiseKeeps(m, WorkflowBroken(UnknownStep));
    ResumeFromRetryEvolves(m.live);
    ResumesKeepIds(m.live, 0);
    ThenKeeps(m, ResumeFromRetry(m.live));
  }

  lemma ApprovalFacts(m: Machine, id: ApprovalId)
    requires Good(m)
    ensures id in m.approvals ==>
              A.FollowsTable(m.approvals[id]) && OperatorApproved(m.approvals[id]) && id < m.nextApproval
    ensures ApprovalStep(id) in Ids(m.live.steps) || ApprovalStep(id) in Ids(m.file.saved.steps) ==>
              id in m.approvals && m.approvals[id].workflowId == m.live.workflowId
    ensures m.held.Some? && m.held.value.id == id ==>
              id in m.approvals && m.approvals[id].workflowId == m.live.workflowId
              && m.approvals[id].action == m.held.value.copy.action
              && (m.held.value.copy.status.Resumed? ==> m.approvals[id].status.Resumed?)
  {
  }

  lemma ResumeHeldKeeps(m: Machine, id: ApprovalId, a: A.Approval)
    requires Good(m) && id in m.approvals && A.MarkedResumed(m.approvals[id], m.run) == A.Ok(a)
    requires m.approvals[id].workflowId == m.live.workflowId
    ensures Good(m.(approvals := m.approvals[id := a], held := Some(Held(id, a))))
    ensures a.status.Resumed? && a.action == m.approvals[id].action && a.workflowId == m.live.workflowId
  {
    hide Good, A.FollowsTable, OperatorApproved, A.MarkedResumed;
    ApprovalFacts(m, id);
    ResumedSucceeds(m.approvals[id], m.run);
    ApprovalMoves(m, id, a);
    Holds(m.(approvals := m.approvals[id := a]), id);
  }

  lemma ContinueKeeps(m: Machine, id: ApprovalId)
    requires Good(m)
    ensures Good(Then(m, ResumeFromApproval(m.live, id)))
  {
    hide Good, Explained, DistinctIds, ResumeFromApproval, KeepsIds, Evolves;
    GoodIsExplained(m);
    ResumeFromApprovalEvolves(m.live, id);
    ResumesKeepIds(m.live, id);
    ThenKeeps(m, ResumeFromApproval(m.live, id));
  }

  /** A dispatched approval step is one of the workflow's steps, so its approval is there and its own. */
  lemma ApprovalWaitKeeps(m: Machine)
    requires Good(m) && m.live.current.ApprovalStep? && Find(m.live.steps, m.live.current).Some?
    ensures Good(ExecuteApprovalWait(m)) && m.live.current.approval in m.approvals
  {
    hide Good, Explained, DistinctIds, Find, Then, A.FollowsTable, OperatorApproved, ResumeFromApproval,
        A.MarkedResumed, Ids;
    var id := m.live.current.approval;
    FoundIsId(m.live, m.live.current);
    ApprovalFacts(m, id);
    Holds(m, id);
    var found := m.(held := Some(Held(id, m.approvals[id])));
    RaiseKeeps(found, ApprovalDenied);
    RaiseKeeps(found, ApprovalState);
    ResumedSucceeds(m.approvals[id], m.run);
    if m.approvals[id].status.Approved? {
      var a := A.MarkedResumed(m.approvals[id], m.run).approval;
      ResumeHeldKeeps(m, id, a);
      ContinueKeeps(m.(approvals := m.approvals[id := a], held := Some(Held(id, a))), id);
      assert found.(approvals := m.approvals[id := a], held := Some(Held(id, a)))
          == m.(approvals := m.approvals[id := a], held := Some(Held(id, a)));
    } else if m.approvals[id].status.Resumed? {
      ContinueKeeps(found, id);
    }
  }

  lemma FoundIsId(f: Flow, id: StepId)
    requires Find(f.steps, id).Some?
    ensures id in Ids(f.steps)
  {
    var k := Find(f.steps, id).value;
    assert f.steps[k] in f.steps;
  }

  lemma MakeCallKeeps(m: Machine, approval: Option<ApprovalId>, outcome: CallOutcome)
    requires Good(m) && Gated(m, Call(m.terms, approval))
    ensures Good(MakeCall(m, approval, outcome))
  {
    hide Good, Explained, DistinctIds, Gated, MarkActionCompleted, Then, KeepsIds, Evolves, RegisterMemory;
    CallMoves(m, Call(m.terms, approval));
    var called := m.(calls := m.calls + [Call(m.terms, approval)]);
    if outcome.Answered? {
      var got := called.(answered := true);
      OtherFieldsFree(called, got);
      var told := if outcome.memory.Some? then got.(live := RegisterMemory(got.live, outcome.memory.value)) else got;
      if outcome.memory.Some? { MemoryMoves(got, outcome.memory.value); }
      GoodIsExplained(told);
      MarkActionCompletedEvolves(told.live);
      EndingsKeepIds(told.live, Fault("", "", false));
      ThenKeeps(told, MarkActionCompleted(told.live));
      if outcome.after.Some? { RaiseKeeps(told, Foreign(outcome.after.value)); }
    } else if outcome.NotMade? {
      RaiseKeeps(m, Foreign(outcome.fault));
    } else {
      RaiseKeeps(called, Foreign(outcome.fault));
    }
  }

  lemma MemoryMoves(m: Machine, memory: Memory)
    requires Good(m)
    ensures Good(m.(live := RegisterMemory(m.live, memory)))
  {
    hide Good, Explained, Evolves, DistinctIds;
    GoodIsExplained(m);
    MemoryEvolves(m.live, memory);
    FlowMoves(m, RegisterMemory(m.live, memory));
  }

  lemma RequestKeeps(m: Machine)
    requires Good(m)
    ensures Good(RequestApproval(m)) && ApprovalStep(m.nextApproval) !in Ids(m.live.steps)
  {
    hide Good, Explained, DistinctIds, Ids, WaitForApproval, A.FollowsTable, Evolves, Written;
    var id, a := m.nextApproval, A.NewApproval(m.terms.action, m.live.workflowId, m.run);
    assert A.FollowsTable(a) by { NewFollowsTable(m.terms.action, m.live.workflowId, m.run); }
    GoodIsExplained(m);
    ApprovalAdded(m, a);
    var added := m.(approvals := m.approvals[id := a], nextApproval := id + 1);
    Holds(added, id);
    var asked := added.(held := Some(Held(id, a)));
    ApprovalFacts(m, id);
    WaitForApprovalEvolves(m.live, id);
    WaitsAddTheirId(m.live, id, Fault("", "", false), 0);
    var f := WaitForApproval(m.live, id).flow;
    FlowGainsWait(asked, f, id);
    if WaitForApproval(m.live, id).Raised? {
      OtherFieldsFree(asked.(live := f), RequestApproval(m));
    }
  }

  lemma NewFollowsTable(action: A.Action, workflow: WorkflowId, run: RunId)
    ensures A.FollowsTable(A.NewApproval(action, workflow, run))
    ensures OperatorApproved(A.NewApproval(action, workflow, run))
  {
  }

  lemma FlowGainsWait(m: Machine, f: Flow, id: ApprovalId)
    requires Good(m) && Evolves(m.live, f) && f.workflowId == m.live.workflowId
    requires forall s: StepId :: s in Ids(f.steps) && s.ApprovalStep? ==>
              s in Ids(m.live.steps) || s == ApprovalStep(id)
    requires id in m.approvals && m.approvals[id].workflowId == m.live.workflowId
    ensures Good(m.(live := f)) && Good(Persist(m.(live := f)))
  {
    hide Explained, Evolves, Written;
    ChangeStaysExplained(m.file, m.live, f);
    WriteStaysExplained(m.file, f);
    WrittenSaves(m.file, f);
  }

  lemma ApprovedCallKeeps(m: Machine, outcome: CallOutcome)
    requires Good(m) && m.terms.delegated && m.terms.policy.NeedsApproval? && Matches(m)
    ensures Good(MakeApprovedCall(m, outcome)) && m.held.value.id in m.approvals
  {
    hide Good, MakeCall, A.FollowsTable, OperatorApproved, A.MarkedResumed, Agrees;
    var Held(id, copy) := m.held.value;
    ApprovalFacts(m, id);
    ResumedSucceeds(m.approvals[id], m.run);
    if !copy.status.Approved? {
      MakeCallKeeps(m, Some(id), outcome);
    } else if A.MarkedResumed(m.approvals[id], m.run).Ok? {
      var a := A.MarkedResumed(m.approvals[id], m.run).approval;
      ResumeHeldKeeps(m, id, a);
      MakeCallKeeps(m.(approvals := m.approvals[id := a], held := Some(Held(id, a))), Some(id), outcome);
    } else {
      RaiseKeeps(m, ApprovalState);
    }
  }

  lemma ActionKeeps(m: Machine, o: Oracle)
    requires Good(m)
    ensures Good(ExecuteAction(m, o))
  {
    hide Good, MakeCall, MakeApprovedCall, RequestApproval, Matches, Persist;
    Persists(m);
    var p := Persist(m);
    PersistSaves(m);
    if o.early.Some? {
      RaiseKeeps(m, Foreign(o.early.value));
    } else if !m.terms.delegated {
      RaiseKeeps(p, DelegationDenied);
    } else if m.terms.policy.Allow? {
      MakeCallKeeps(p, None, o.outcome);
    } else if m.terms.policy.Deny? {
      RaiseKeeps(p, PolicyDenied);
    } else if Matches(p) {
      ApprovedCallKeeps(p, o.outcome);
    } else {
      RequestKeeps(p);
    }
  }

  lemma PersistSaves(m: Machine)
    ensures Persist(m) == m.(file := Persist(m).file) && Persist(m).file.saved == m.live
  {
  }

  lemma FinishKeeps(m: Machine, o: Oracle)
    requires Good(m)
    ensures Good(ExecuteFinish(m, o))
  {
    hide Good, Explained, DistinctIds, Written, RegisterArtifact, CompleteFinishStep, Evolves, KeepsIds;
    if !m.answered {
      RaiseKeeps(m, NoResult);
    } else if o.lost.Some? {
      RaiseKeeps(m, Foreign(o.lost.value));
    } else {
      ArtifactMoves(m, o.artifact);
      var g := RegisterArtifact(m.live, o.artifact);
      var n := m.(live := g);
      GoodIsExplained(n);
      CompleteFinishEvolves(g);
      EndingsKeepIds(g, Fault("", "", false));
      var h := CompleteFinishStep(g).flow;
      FlowMoves(n, h);
      OtherFieldsFree(Persist(n.(live := h)), Persist(n.(live := h)).(phase := Over));
      if CompleteFinishStep(g).Raised? {
        OtherFieldsFree(n.(live := h), ExecuteFinish(m, o));
      }
    }
  }

  lemma ArtifactMoves(m: Machine, id: ArtifactId)
    requires Good(m)
    ensures Good(m.(live := RegisterArtifact(m.live, id)))
  {
    hide Good, Explained, Evolves, DistinctIds;
    GoodIsExplained(m);
    RegisteringEvolves(m.live, id, m.live.retryPolicy);
    FlowMoves(m, RegisterArtifact(m.live, id));
  }

  /** A turn of the loop keeps the history and the gate, on any workflow. */
  lemma TurnKeepsGood(m: Machine, o: Oracle)
    requires Good(m)
    ensures Good(Dispatch(m, o))
  {
    hide Good, Find, ExecuteRetryWait, ExecuteApprovalWait, ExecuteAction, ExecuteFinish;
    if Find(m.live.steps, m.live.current).None? {
      RaiseKeeps(m, WorkflowBroken(UnknownStep));
    } else {
      match m.live.current
      case RetryStep(_) => RetryWaitKeeps(m, o.now);
      case ApprovalStep(_) => ApprovalWaitKeeps(m);
      case ActionStep(_) => ActionKeeps(m, o);
      case FinishStep => FinishKeeps(m, o);
    }
  }

  /** So does the exception handler, even where scheduling the retry raises. */
  lemma CatchKeepsGood(m: Machine, now: Time)
    requires Good(m) && m.phase.Raising?
    ensures Good(Handle(m, now))
  {
    hide Good, Explained, DistinctIds, Ids, Written, WaitForRetry, FailWorkflow, Evolves, KeepsIds;
    GoodIsExplained(m);
    var fault := FaultOf(m.phase.cause);
    var f := if m.phase.budgetLoaded && CanScheduleRetry(m.live, fault) then WaitForRetry(m.live, fault, now).flow
             else FailWorkflow(m.live, fault).flow;
    WaitForRetryEvolves(m.live, fault, now);
    WaitsAddTheirId(m.live, 0, fault, now);
    FailWorkflowEvolves(m.live, fault);
    EndingsKeepIds(m.live, fault);
    var failed := FailWorkflow(m.live, fault).flow;
    assert KeepsIds(m.live, failed) ==>
             Ids(failed.steps) == Ids(m.live.steps) && failed.workflowId == m.live.workflowId by {
      IdsAreKept(m.live, failed);
    }
    FlowSameApprovals(m, f);
    OtherFieldsFree(Persist(m.(live := f)), Persist(m.(live := f)).(phase := Over));
    OtherFieldsFree(m.(live := f), m.(live := f, phase := Over));
  }

  lemma IdsAreKept(f: Flow, g: Flow)
    ensures KeepsIds(f, g) ==> Ids(g.steps) == Ids(f.steps) && g.workflowId == f.workflowId
  {
  }

  lemma FlowSameApprovals(m: Machine, f: Flow)
    requires Good(m) && Evolves(m.live, f) && f.workflowId == m.live.workflowId
    requires forall s: StepId :: s in Ids(f.steps) && s.ApprovalStep? ==> s in Ids(m.live.steps)
    ensures Good(m.(live := f)) && Good(Persist(m.(live := f)))
  {
    hide Explained, Evolves, Written;
    ChangeStaysExplained(m.file, m.live, f);
    WriteStaysExplained(m.file, f);
    WrittenSaves(m.file, f);
  }

  // ---------- the steps around a run ----------

  /** The workflow in memory is read from the file. */
  lemma LoadKeeps(m: Machine)
    requires Good(m)
    ensures Good(m.(live := m.file.saved))
  {
    hide A.FollowsTable, OperatorApproved, Agrees, Ids;
    EvolvesStays(m.file.saved);
    var n := m.(live := m.file.saved);
    forall i | 0 <= i < |n.calls| ensures Gated(n, n.calls[i]) {
      assert Gated(m, m.calls[i]);
    }
  }

  lemma EnteredKeeps(m: Machine, start: Start)
    requires Good(m)
    ensures Good(Entered(m, start))
  {
    hide Good, Explained, Evolves, DistinctIds, Written, ConfigureRetryPolicy;
    GoodIsExplained(m);
    match start
    case Misfit(fault) => OtherFieldsFree(m, Entered(m, start));
    case Unconfigured(fault) => OtherFieldsFree(m, Entered(m, start));
    case Unbudgeted(policy, written, fault) =>
      ConfiguredMoves(m, policy);
      var n := m.(live := ConfigureRetryPolicy(m.live, policy));
      OtherFieldsFree(if written then Persist(n) else n, Entered(m, start));
    case Ready(policy, terms) =>
      ConfiguredMoves(m, policy);
      OtherFieldsFree(Persist(m.(live := ConfigureRetryPolicy(m.live, policy))), Entered(m, start));
  }

  lemma ConfiguredMoves(m: Machine, policy: RetryPolicy)
    requires Good(m)
    ensures var n := m.(live := ConfigureRetryPolicy(m.live, policy)); Good(n) && Good(Persist(n))
  {
    hide Good, Explained, Evolves, DistinctIds;
    GoodIsExplained(m);
    RegisteringEvolves(m.live, 0, policy);
    FlowMoves(m, ConfigureRetryPolicy(m.live, policy));
  }

  lemma AttachedMoves(m: Machine, run: RunId)
    requires Good(m)
    ensures Good(Persist(m.(live := AttachRun(m.live, run))))
  {
    hide Good, Explained, Evolves, DistinctIds;
    GoodIsExplained(m);
    RegisteringEvolves(m.live, run, m.live.retryPolicy);
    FlowMoves(m, AttachRun(m.live, run));
  }

  /** What a later run starts from, once its approval is found. */
  function Loaded(m: Machine, id: ApprovalId, run: RunId): Machine
    requires id in m.approvals
  {
    m.(run := run, held := Some(Held(id, m.approvals[id])), live := m.file.saved, answered := false)
  }

  predicate Finds(m: Machine, id: ApprovalId) {
    m.phase.Over? && id in m.approvals && m.approvals[id].workflowId == m.file.saved.workflowId
  }

  lemma LoadedKeeps(m: Machine, id: ApprovalId, run: RunId)
    requires Good(m) && Finds(m, id)
    ensures Good(Loaded(m, id, run))
  {
    hide Good;
    LoadKeeps(m);
    var loaded := m.(live := m.file.saved);
    Holds(loaded, id);
    OtherFieldsFree(loaded.(held := Some(Held(id, m.approvals[id]))), Loaded(m, id, run));
  }

  lemma ResumeKeeps(m: Machine, id: ApprovalId, run: RunId, start: Start)
    requires Good(m)
    ensures Good(Resumed(m, id, run, start))
  {
    hide Good, Entered, Written;
    if Finds(m, id) {
      var n := Loaded(m, id, run);
      LoadedKeeps(m, id, run);
      AttachedMoves(n, run);
      EnteredKeeps(if start.Misfit? then n else Persist(n.(live := AttachRun(n.live, run))), start);
    }
  }

  lemma DecideKeeps(m: Machine, id: ApprovalId, d: Decision)
    requires Good(m)
    ensures Good(Decided(m, id, d))
  {
    hide Good, A.FollowsTable, OperatorApproved;
    ApprovalFacts(m, id);
    if id in m.approvals && A.Updated(m.approvals[id], DecisionStatus(d), A.Operator).Ok? {
      UpdatedSucceeds(m.approvals[id], DecisionStatus(d), A.Operator);
      ApprovalMoves(m, id, A.Updated(m.approvals[id], DecisionStatus(d), A.Operator).approval);
    }
  }

  lemma OthersKeep(m: Machine, action: A.Action, workflow: WorkflowId, id: ApprovalId, run: RunId)
    requires Good(m)
    ensures Good(Next(m, OtherRequest(action, workflow, run))) && Good(Next(m, OtherResume(id, run)))
  {
    hide Good, A.FollowsTable, OperatorApproved, A.MarkedResumed;
    NewFollowsTable(action, workflow, run);
    ApprovalAdded(m, A.NewApproval(action, workflow, run));
    ApprovalFacts(m, id);
    if id in m.approvals && A.MarkedResumed(m.approvals[id], run).Ok? {
      ResumedSucceeds(m.approvals[id], run);
      ApprovalMoves(m, id, A.MarkedResumed(m.approvals[id], run).approval);
    }
  }

  lemma AddChildKeeps(m: Machine, child: WorkflowId)
    requires Good(m)
    ensures Good(Next(m, AddChild(child)))
  {
    hide Good, Explained, Evolves, DistinctIds, Written;
    LoadKeeps(m);
    var n := m.(live := m.file.saved);
    GoodIsExplained(n);
    var f := n.live.(children := n.live.children + [child]);
    assert Elements(n.live.children) <= Elements(f.children);
    StepsKept(n.live, f);
    FlowMoves(n, f);
  }

  /** Every move keeps the history and the gate. */
  lemma MoveKeepsGood(m: Machine, move: Move)
    requires Good(m)
    ensures Good(Next(m, move))
  {
    hide Good, Dispatch, Handle, Resumed, Decided;
    match move
    case Turn(o) => if m.phase.Looping? { TurnKeepsGood(m, o); }
    case Catch(now) => if m.phase.Raising? { CatchKeepsGood(m, now); }
    case Resume(id, run, start) => ResumeKeeps(m, id, run, start);
    case Decide(id, decision) => DecideKeeps(m, id, decision);
    case OtherRequest(action, workflow, run) => OthersKeep(m, action, workflow, 0, run);
    case OtherResume(id, run) => OthersKeep(m, A.Action("", None, None, None, None), 0, id, run);
    case AddChild(child) => AddChildKeeps(m, child);
    case Crash => OtherFieldsFree(m, m.(phase := Over));
  }
}
