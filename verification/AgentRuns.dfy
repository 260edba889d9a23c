/** The run of runtime/agent.py as the program has it: an object that works on a workflow object and the
    approval store, and a loop that dispatches steps until one of them returns or raises. */
module AgentRuns {
  import opened Common
  import opened WorkflowSteps
  import opened WorkflowAudit
  import opened WorkflowEvolution
  import opened WorkflowObjects
  import opened AgentSteps
  import opened AgentSafety
  import opened AgentOrder
  import opened AgentHistory
  import opened AgentTermination
  import A = Approvals

  lemma SavedIsExplained(m: Machine)
    requires Good(m)
    ensures Explained(m.file, m.file.saved)
  {
    EvolvesStays(m.file.saved);
  }

  class AgentRun {
    const workflow: WorkflowState
    const store: A.ApprovalStore
    const run: RunId
    var terms: Terms
    var nextApproval: ApprovalId
    var held: Option<Held>
    var phase: AgentSteps.Phase
    var answered: bool
    var calls: seq<Call>

    ghost predicate Valid()
      reads this, workflow, store
    {
      workflow.file.Some? && workflow.Valid() && Good(State())
    }

    function State(): Machine
      reads this, workflow, store
      requires workflow.file.Some?
    {
      Machine(store.approvals, nextApproval, workflow.file.value, workflow.Snapshot(), run, held, terms, phase,
              answered, calls)
    }

    /** A first run: create the workflow, write it, and configure it for its agent. */
    constructor (store: A.ApprovalStore, nextApproval: ApprovalId, run: RunId, runType: RunType, terms: Terms,
                 start: Start)
      requires forall id :: id in store.approvals ==>
                 id < nextApproval && A.FollowsTable(store.approvals[id]) && OperatorApproved(store.approvals[id])
      ensures Valid() && this.store == store && fresh(workflow)
      ensures State() == Created(store.approvals, nextApproval, run, runType, terms, start)
    {
      hide Explained, DistinctIds, Written, Good;
      this.workflow := new WorkflowState(run, runType);
      this.store, this.run, this.terms, this.nextApproval := store, run, terms, nextApproval;
      held, phase, answered, calls := None, Over, false, [];
      new;
      workflow.Write();
      Enter(start);
      BegunIsGood(Beginning(store.approvals, nextApproval, run, runType, terms, start));
    }

    /** A later run for an approval of the workflow: load the workflow from `m`'s file, attach the run, and
        configure, whatever the workflow's status. */
    constructor Resume(m: Machine, store: A.ApprovalStore, id: ApprovalId, run: RunId, start: Start)
      requires Good(m) && Finds(m, id) && store.approvals == m.approvals
      ensures Valid() && this.store == store && fresh(workflow)
      ensures State() == Resumed(m, id, run, start)
    {
      hide Explained, DistinctIds, Written, Good;
      SavedIsExplained(m);
      this.workflow := new WorkflowState.Load(m.file);
      this.store, this.run, this.terms, this.nextApproval := store, run, m.terms, m.nextApproval;
      held, phase, answered, calls := Some(Held(id, m.approvals[id])), Over, false, m.calls;
      new;
      if !start.Misfit? {
        workflow.AttachRunTo(run);
        workflow.Write();
      }
      Enter(start);
      ResumeKeeps(m, id, run, start);
    }

    method Enter(start: Start)
      requires workflow.file.Some? && workflow.Valid()
      modifies this`phase, this`terms, workflow
      ensures workflow.file.Some? && workflow.Valid()
      ensures State() == Entered(old(State()), start)
    {
      hide Explained, DistinctIds, Written;
      match start {
        case Misfit(fault) => phase := Raising(Foreign(fault), false);
        case Unconfigured(fault) => phase := Raising(Foreign(fault), false);
        case Unbudgeted(policy, written, fault) =>
          workflow.Configure(policy);
          if written {
            workflow.Write();
          }
          phase := Raising(Foreign(fault), false);
        case Ready(policy, newTerms) =>
          workflow.Configure(policy);
          workflow.Write();
          phase, terms := Looping, newTerms;
      }
    }

    method Raise(cause: Cause)
      requires workflow.file.Some?
      modifies this`phase
      ensures State() == AgentSteps.Raise(old(State()), cause)
    {
      phase := Raising(cause, true);
    }

    /** What follows an operation on the workflow: write it, or raise what it raised. */
    method Conclude(error: Option<Error>)
      requires workflow.file.Some? && workflow.Valid()
      modifies this`phase, workflow`file
      ensures workflow.file.Some? && workflow.Valid()
      ensures State() == Then(old(State()), Outcome(error, workflow.Snapshot()))
    {
      match error {
        case None => workflow.Write();
        case Some(e) => Raise(WorkflowBroken(e));
      }
    }

    method ExecuteRetryWaitStep(now: Time)
      requires workflow.file.Some? && workflow.Valid()
      modifies this, workflow
      ensures workflow.file.Some? && workflow.Valid()
      ensures State() == ExecuteRetryWait(old(State()), now)
    {
      hide ResumeFromRetry, Find, Explained, DistinctIds, Written;
      var k := workflow.GetStep(workflow.current);
      if k.None? {
        Raise(WorkflowBroken(UnknownStep));
        return;
      }
      var at := workflow.steps[k.value].nextRetryAt;
      if at.Some? && now < at.value {
        phase := Over;
        return;
      }
      var error := workflow.RetryArrived();
      Conclude(error);
    }

    method ExecuteApprovalWaitStep()
      requires workflow.file.Some? && workflow.Valid() && workflow.current.ApprovalStep?
      modifies this, workflow, store
      ensures workflow.file.Some? && workflow.Valid()
      ensures State() == ExecuteApprovalWait(old(State()))
    {
      hide ResumeFromApproval, Explained, DistinctIds, Written;
      var id := workflow.current.approval;
      if id !in store.approvals {
        Raise(ApprovalMissing);
        return;
      }
      held := Some(Held(id, store.approvals[id]));
      if held.value.copy.status.Pending? {
        phase := Over;
        return;
      }
      if held.value.copy.status.Approved? {
        var marked := store.MarkApprovalResumed(id, run);
        held := Some(Held(id, marked.approval));
      }
      if held.value.copy.status.Resumed? {
        var error := workflow.ApprovalArrived(id);
        Conclude(error);
      } else if held.value.copy.status.Denied? {
        Raise(ApprovalDenied);
      } else {
        Raise(ApprovalState);
      }
    }

    /** The tool or model call and what follows it. */
    method CallAndRecord(approval: Option<ApprovalId>, outcome: CallOutcome)
      requires workflow.file.Some? && workflow.Valid()
      modifies this, workflow
      ensures workflow.file.Some? && workflow.Valid()
      ensures State() == MakeCall(old(State()), approval, outcome)
    {
      hide MarkActionCompleted, RegisterMemory, Explained, DistinctIds, Written;
      if outcome.NotMade? {
        Raise(Foreign(outcome.fault));
        return;
      }
      calls := calls + [Call(terms, approval)];
      if outcome.Failed? {
        Raise(Foreign(outcome.fault));
        return;
      }
      answered := true;
      if outcome.memory.Some? {
        workflow.AddMemory(outcome.memory.value);
      }
      if outcome.after.Some? {
        Raise(Foreign(outcome.after.value));
        return;
      }
      var error := workflow.ActionDone();
      Conclude(error);
    }

    method AskForApproval()
      requires workflow.file.Some? && workflow.Valid() && nextApproval !in store.approvals
      modifies this, workflow, store
      ensures workflow.file.Some? && workflow.Valid()
      ensures State() == RequestApproval(old(State()))
    {
      hide WaitForApproval, Explained, DistinctIds, Written;
      var id := nextApproval;
      var approval := store.CreateApproval(id, terms.action, workflow.workflowId, run);
      nextApproval := id + 1;
      held := Some(Held(id, approval));
      var error := workflow.AwaitApproval(id);
      Conclude(error);
    }

    method CallApproved(outcome: CallOutcome)
      requires workflow.file.Some? && workflow.Valid() && held.Some?
      modifies this, workflow, store
      ensures workflow.file.Some? && workflow.Valid()
      ensures State() == MakeApprovedCall(old(State()), outcome)
    {
      hide MakeCall, Explained, DistinctIds, Written, A.MarkedResumed;
      var id := held.value.id;
      if held.value.copy.status.Approved? {
        var marked := store.MarkApprovalResumed(id, run);
        if !marked.Ok? {
          Raise(if id in store.approvals then ApprovalState else ApprovalMissing);
          return;
        }
        held := Some(Held(id, marked.approval));
      }
      CallAndRecord(Some(id), outcome);
    }

    method ExecuteActionStep(o: Oracle)
      requires workflow.file.Some? && workflow.Valid() && nextApproval !in store.approvals
      modifies this, workflow, store
      ensures workflow.file.Some? && workflow.Valid()
      ensures State() == ExecuteAction(old(State()), o)
    {
      hide MakeCall, MakeApprovedCall, RequestApproval, Explained, DistinctIds, Written, Agrees;
      if o.early.Some? {
        Raise(Foreign(o.early.value));
        return;
      }
      workflow.Write();
      if !terms.delegated {
        Raise(DelegationDenied);
        return;
      }
      match terms.policy {
        case Allow => CallAndRecord(None, o.outcome);
        case Deny => Raise(PolicyDenied);
        case NeedsApproval =>
          if Matches(State()) {
            CallApproved(o.outcome);
          } else {
            AskForApproval();
          }
      }
    }

    method ExecuteFinishStep(o: Oracle)
      requires workflow.file.Some? && workflow.Valid()
      modifies this, workflow
      ensures workflow.file.Some? && workflow.Valid()
      ensures State() == ExecuteFinish(old(State()), o)
    {
      hide CompleteFinishStep, RegisterArtifact, Explained, DistinctIds, Written;
      if !answered {
        Raise(NoResult);
        return;
      }
      if o.lost.Some? {
        Raise(Foreign(o.lost.value));
        return;
      }
      workflow.AddArtifact(o.artifact);
      var error := workflow.Finish();
      Conclude(error);
      if error.None? {
        phase := Over;
      }
    }

    method DispatchStep(o: Oracle)
      requires Valid() && phase.Looping?
      modifies this, workflow, store
      ensures Valid() && State() == Dispatch(old(State()), o)
    {
      hide Good, Explained, DistinctIds, Find, ExecuteRetryWait, ExecuteApprovalWait, ExecuteAction, ExecuteFinish;
      TurnKeepsGood(State(), o);
      NextIsNew(State());
      var k := workflow.GetStep(workflow.current);
      if k.None? {
        Raise(WorkflowBroken(UnknownStep));
        return;
      }
      match workflow.current {
        case RetryStep(_) => ExecuteRetryWaitStep(o.now);
        case ApprovalStep(_) => ExecuteApprovalWaitStep();
        case ActionStep(_) => ExecuteActionStep(o);
        case FinishStep => ExecuteFinishStep(o);
      }
    }

    /** approve_approval, deny_approval or abort_approval, while the run is going on. */
    method DecideApproval(id: ApprovalId, decision: Decision)
      requires Valid()
      modifies store
      ensures Valid() && State() == Decided(old(State()), id, decision)
    {
      hide Good, Explained, DistinctIds, A.Updated;
      DecideKeeps(State(), id, decision);
      var _ := store.UpdateApprovalStatus(id, DecisionStatus(decision), A.Operator);
    }

    /** run_workflow. `oracle(i)` is what the world answers to turn i; before that turn operators take the
        decisions `decisions(i)`. The loop ends by itself; the trace is everything that happened. */
    method RunWorkflow(oracle: nat -> Oracle, decisions: nat -> seq<(ApprovalId, Decision)>)
      returns (turns: nat, trace: seq<Move>)
      requires Valid()
      modifies this, workflow, store
      ensures Valid() && !phase.Looping?
      ensures State() == After(old(State()), trace) && DuringRun(trace)
      ensures turns == Turns(old(State()), trace) <= 5
      ensures (forall i :: decisions(i) == []) ==> turns <= 3 && Undecided(trace)
    {
      hide Good, Explained, DistinctIds, Dispatch, Rank, QuietRank, Decided;
      ghost var start := State();
      turns, trace := 0, [];
      TurnsAreBounded(start, trace);
      while phase.Looping?
        invariant Valid() && State() == After(start, trace) && DuringRun(trace)
        invariant turns == Turns(start, trace)
        invariant (forall i :: decisions(i) == []) ==> Undecided(trace)
        decreases Rank(State())
      {
        trace := TakeDecisions(start, trace, decisions(turns));
        var o := oracle(turns);
        TurnLowersRank(State(), o);
        DispatchStep(o);
        AfterOne(start, trace, Turn(o));
        trace := trace + [Turn(o)];
        turns := turns + 1;
      }
      TurnsAreBounded(start, trace);
    }

    method TakeDecisions(ghost start: Machine, trace: seq<Move>, decisions: seq<(ApprovalId, Decision)>)
      returns (longer: seq<Move>)
      requires Valid() && State() == After(start, trace) && DuringRun(trace)
      modifies store
      ensures Valid() && State() == After(start, longer) && DuringRun(longer)
      ensures phase == old(phase) && Rank(State()) == old(Rank(State()))
      ensures Turns(start, longer) == Turns(start, trace)
      ensures decisions == [] ==> longer == trace
    {
      hide Good, Explained, DistinctIds, Rank, Decided;
      longer := trace;
      for i := 0 to |decisions|
        invariant Valid() && State() == After(start, longer) && DuringRun(longer)
        invariant Rank(State()) == old(Rank(State()))
        invariant Turns(start, longer) == Turns(start, trace)
        invariant decisions == [] ==> longer == trace
      {
        var (id, decision) := decisions[i];
        DecisionKeepsRank(State(), id, decision);
        DecideApproval(id, decision);
        AfterOne(start, longer, Decide(id, decision));
        longer := longer + [Decide(id, decision)];
      }
    }

    /** The except clause of run_agent. Where scheduling a retry raises, the file stays as it was. */
    method HandleException(now: Time)
      requires Valid() && phase.Raising?
      modifies this, workflow
      ensures Valid() && State() == Handle(old(State()), now) && phase.Over?
      ensures Inv(old(State())) ==> Inv(State()) && workflow.file.value.saved == workflow.Snapshot()
    {
      hide Good, InOrder, Explained, DistinctIds, WaitForRetry, FailWorkflow, Written;
      CatchKeepsGood(State(), now);
      ghost var m := State();
      if Inv(m) { CatchKeepsInv(m, now); }
      var fault := FaultOf(phase.cause);
      var error;
      if phase.budgetLoaded && CanScheduleRetry(workflow.Snapshot(), fault) {
        error := workflow.AwaitRetry(fault, now);
      } else {
        error := workflow.Fail(fault);
      }
      if error.None? {
        workflow.Write();
      }
      phase := Over;
    }
  }

  lemma NextIsNew(m: Machine)
    requires Good(m)
    ensures m.nextApproval !in m.approvals
  {
    hide FlowOk, A.FollowsTable, OperatorApproved;
  }
}
