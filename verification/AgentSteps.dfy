/** runtime/agent.py around one workflow: the approvals, the workflow's file, the workflow in memory and
    the run that is working on it. Each dispatch of the interpreter is one step. */
module AgentSteps {
  import opened Common
  import opened WorkflowSteps
  import opened WorkflowAudit
  import opened WorkflowEvolution
  import A = Approvals

  datatype Policy = Allow | NeedsApproval | Deny

  /** What a run asks for, and what delegation and policy say about it. */
  datatype Terms = Terms(action: A.Action, delegated: bool, policy: Policy)

  /** RunState.approval_record: the approval's id and the copy of it the run holds. */
  datatype Held = Held(id: ApprovalId, copy: A.Approval)

  /** A tool or model call that was made. */
  datatype Call = Call(terms: Terms, approval: Option<ApprovalId>)

  datatype Cause =
    | Foreign(fault: Fault)     // raised by agent loading, a budget, a tool, a model or the artifact store
    | DelegationDenied
    | PolicyDenied
    | ApprovalDenied
    | ApprovalState             // the approval cannot be resumed
    | ApprovalMissing
    | NoResult                  // the finish of a run that has made no call itself: it has no result to store
    | WorkflowBroken(error: Error)  // raised by an operation on the workflow itself

  /** `budgetLoaded` says whether the run got as far as loading its budget. */
  datatype Phase = Over | Looping | Raising(cause: Cause, budgetLoaded: bool)

  datatype Machine = Machine(
    approvals: map<ApprovalId, A.Approval>, nextApproval: ApprovalId,
    file: Record, live: Flow,
    run: RunId, held: Option<Held>, terms: Terms, phase: Phase, answered: bool, calls: seq<Call>)

  // ---------- what the world decides ----------

  datatype CallOutcome =
    | NotMade(fault: Fault)                                    // the token budget refuses the call
    | Failed(fault: Fault)
    | Answered(memory: Option<Memory>, after: Option<Fault>) // `after` is a budget that refuses the answer

  datatype Oracle = Oracle(now: Time, early: Option<Fault>, outcome: CallOutcome, artifact: ArtifactId,
                           lost: Option<Fault>)

  // ---------- the steps ----------

  function Raise(m: Machine, cause: Cause): Machine { m.(phase := Raising(cause, true)) }

  /** persist_workflow */
  function Persist(m: Machine): Machine { m.(file := Written(m.file, m.live)) }

  /** Continue with the result of an operation on the workflow, and write it if the operation returned. */
  function Then(m: Machine, attempt: Attempt): Machine {
    match attempt
    case Done(f) => Persist(m.(live := f))
    case Raised(f, e) => Raise(m.(live := f), WorkflowBroken(e))
  }

  function ExecuteRetryWait(m: Machine, now: Time): Machine {
    match Find(m.live.steps, m.live.current)
    case None => Raise(m, WorkflowBroken(UnknownStep))
    case Some(k) =>
      var at := m.live.steps[k].nextRetryAt;
      if at.Some? && now < at.value then m.(phase := Over) else Then(m, ResumeFromRetry(m.live))
  }

  function ExecuteApprovalWait(m: Machine): Machine
    requires m.live.current.ApprovalStep?
  {
    var id := m.live.current.approval;
    if id !in m.approvals then Raise(m, ApprovalMissing)
    else
      var found := m.(held := Some(Held(id, m.approvals[id])));
      match m.approvals[id].status
      case Pending => found.(phase := Over)
      case Approved =>
        (match A.MarkedResumed(m.approvals[id], m.run)
         case Ok(a) => Then(found.(approvals := m.approvals[id := a], held := Some(Held(id, a))),
                            ResumeFromApproval(m.live, id))
         case _ => Raise(found, ApprovalState))
      case Resumed => Then(found, ResumeFromApproval(m.live, id))
      case Denied => Raise(found, ApprovalDenied)
      case Aborted => Raise(found, ApprovalState)
  }

  /** The granted action agrees with the request on every field the request fills in. */
  predicate Agrees(request: A.Action, granted: A.Action) {
    && granted.capability == request.capability
    && (request.tool.Some? ==> granted.tool == request.tool)
    && (request.path.Some? ==> granted.path == request.path)
    && (request.command.Some? ==> granted.command == request.command)
    && (request.modelAlias.Some? ==> granted.modelAlias == request.modelAlias)
  }

  /** approved_action_matches_request */
  predicate Matches(m: Machine) {
    && m.held.Some?
    && (m.held.value.copy.status.Approved? || m.held.value.copy.status.Resumed?)
    && Agrees(m.terms.action, m.held.value.copy.action)
  }

  function MakeCall(m: Machine, approval: Option<ApprovalId>, outcome: CallOutcome): Machine {
    var called := m.(calls := m.calls + [Call(m.terms, approval)]);
    match outcome
    case NotMade(fault) => Raise(m, Foreign(fault))
    case Failed(fault) => Raise(called, Foreign(fault))
    case Answered(memory, after) =>
      var got := called.(answered := true);
      var told := if memory.Some? then got.(live := RegisterMemory(got.live, memory.value)) else got;
      if after.Some? then Raise(told, Foreign(after.value)) else Then(told, MarkActionCompleted(told.live))
  }

  /** request_approval */
  function RequestApproval(m: Machine): Machine {
    var id, a := m.nextApproval, A.NewApproval(m.terms.action, m.live.workflowId, m.run);
    Then(m.(approvals := m.approvals[id := a], nextApproval := id + 1, held := Some(Held(id, a))),
         WaitForApproval(m.live, id))
  }

  /** The approved call: mark the approval resumed if this run has not done so. */
  function MakeApprovedCall(m: Machine, outcome: CallOutcome): Machine
    requires m.held.Some?
  {
    var id := m.held.value.id;
    if !m.held.value.copy.status.Approved? then MakeCall(m, Some(id), outcome)
    else if id !in m.approvals then Raise(m, ApprovalMissing)
    else match A.MarkedResumed(m.approvals[id], m.run)
      case Ok(a) => MakeCall(m.(approvals := m.approvals[id := a], held := Some(Held(id, a))), Some(id), outcome)
      case _ => Raise(m, ApprovalState)
  }

  /** execute_tool_step and execute_model_step */
  function ExecuteAction(m: Machine, o: Oracle): Machine {
    if o.early.Some? then Raise(m, Foreign(o.early.value))
    else
      var p := Persist(m);
      if !m.terms.delegated then Raise(p, DelegationDenied)
      else match m.terms.policy
        case Allow => MakeCall(p, None, o.outcome)
        case Deny => Raise(p, PolicyDenied)
        case NeedsApproval => if Matches(p) then MakeApprovedCall(p, o.outcome) else RequestApproval(p)
  }

  /** The result of the run's own call becomes an artifact, unless the artifact store raises. */
  function ExecuteFinish(m: Machine, o: Oracle): Machine {
    if !m.answered then Raise(m, NoResult)
    else if o.lost.Some? then Raise(m, Foreign(o.lost.value))
    else
      match CompleteFinishStep(RegisterArtifact(m.live, o.artifact))
      case Done(f) => Persist(m.(live := f)).(phase := Over)
      case Raised(f, e) => Raise(m.(live := f), WorkflowBroken(e))
  }

  /** One turn of the loop of run_workflow. */
  function Dispatch(m: Machine, o: Oracle): Machine {
    if Find(m.live.steps, m.live.current).None? then Raise(m, WorkflowBroken(UnknownStep))
    else match m.live.current
      case RetryStep(_) => ExecuteRetryWait(m, o.now)
      case ApprovalStep(_) => ExecuteApprovalWait(m)
      case ActionStep(_) => ExecuteAction(m, o)
      case FinishStep => ExecuteFinish(m, o)
  }

  // ---------- the exception path of run_agent ----------

  function FaultOf(cause: Cause): Fault {
    match cause
    case Foreign(fault) => fault
    case DelegationDenied => Fault("DelegationDeniedError", "", false)
    case PolicyDenied | ApprovalDenied => Fault("PolicyDeniedError", "", false)
    case ApprovalState => Fault("ApprovalStateError", "", false)
    case ApprovalMissing => Fault("FileNotFoundError", "", false)
    case NoResult => Fault("TypeError", "", false)
    case WorkflowBroken(_) => Fault("ValueError", "", false)
  }

  predicate CanScheduleRetry(f: Flow, fault: Fault) {
    fault.retryable && f.retryPolicy.maxAttempts > 0 && f.retryState.retriesRemaining > 0
  }

  function Handle(m: Machine, now: Time): Machine
    requires m.phase.Raising?
  {
    var fault := FaultOf(m.phase.cause);
    var attempt := if m.phase.budgetLoaded && CanScheduleRetry(m.live, fault) then WaitForRetry(m.live, fault, now)
                   else FailWorkflow(m.live, fault);
    match attempt
    case Done(f) => Persist(m.(live := f, phase := Over))
    case Raised(f, _) => m.(live := f, phase := Over)
  }

  // ---------- the start of a run ----------

  /** How far the start of a run gets: the request does not fit the workflow, the agent's configuration
      does not load, what follows the retry policy raises before or after the workflow is written, or the
      loop begins under the configured retry policy. */
  datatype Start =
    | Misfit(fault: Fault)
    | Unconfigured(fault: Fault)
    | Unbudgeted(policy: RetryPolicy, written: bool, fault: Fault)
    | Ready(policy: RetryPolicy, terms: Terms)

  function Entered(m: Machine, start: Start): Machine {
    match start
    case Misfit(fault) => m.(phase := Raising(Foreign(fault), false))
    case Unconfigured(fault) => m.(phase := Raising(Foreign(fault), false))
    case Unbudgeted(policy, written, fault) =>
      var n := m.(live := ConfigureRetryPolicy(m.live, policy));
      (if written then Persist(n) else n).(phase := Raising(Foreign(fault), false))
    case Ready(policy, terms) =>
      Persist(m.(live := ConfigureRetryPolicy(m.live, policy))).(phase := Looping, terms := terms)
  }

  /** A first run creates the workflow. */
  function Created(approvals: map<ApprovalId, A.Approval>, nextApproval: ApprovalId, run: RunId, runType: RunType,
                   terms: Terms, start: Start): Machine
  {
    var f := CreateWorkflow(run, runType);
    Entered(Machine(approvals, nextApproval, FirstWrite(f), f, run, None, terms, Over, false, []), start)
  }

  /** A later run picks the workflow up from its file for one of its approvals, whatever the workflow's
      status: start_workflow checks none. resume_workflow refuses one that has succeeded or failed. */
  function Resumed(m: Machine, id: ApprovalId, run: RunId, start: Start): Machine {
    if !m.phase.Over? then m
    else if id !in m.approvals || m.approvals[id].workflowId != m.file.saved.workflowId then m
    else
      var n := m.(run := run, held := Some(Held(id, m.approvals[id])), live := m.file.saved, answered := false);
      if start.Misfit? then Entered(n, start) else Entered(Persist(n.(live := AttachRun(n.live, run))), start)
  }

  // ---------- everything that may happen ----------

  datatype Decision = Approve | Refuse | Abort

  function DecisionStatus(d: Decision): A.Status {
    match d case Approve => A.Approved case Refuse => A.Denied case Abort => A.Aborted
  }

  /** approve_approval, deny_approval and abort_approval */
  function Decided(m: Machine, id: ApprovalId, d: Decision): Machine {
    if id !in m.approvals then m
    else match A.Updated(m.approvals[id], DecisionStatus(d), A.Operator)
      case Ok(a) => m.(approvals := m.approvals[id := a])
      case _ => m
  }

  datatype Move =
    | Turn(o: Oracle)                                       // the run dispatches one step
    | Catch(now: Time)                                      // the run's exception handler
    | Resume(approval: ApprovalId, run: RunId, start: Start)
    | Decide(approval: ApprovalId, decision: Decision)      // an operator, at any time
    | OtherRequest(action: A.Action, workflow: WorkflowId, run: RunId) // an approval for another workflow
    | OtherResume(approval: ApprovalId, run: RunId)         // another workflow resumes its approval
    | AddChild(child: WorkflowId)                           // a child workflow is registered between runs
    | Crash                                                 // the process dies; the file remains

  function Next(m: Machine, move: Move): Machine {
    match move
    case Turn(o) => if m.phase.Looping? then Dispatch(m, o) else m
    case Catch(now) => if m.phase.Raising? then Handle(m, now) else m
    case Resume(id, run, start) => Resumed(m, id, run, start)
    case Decide(id, decision) => Decided(m, id, decision)
    case OtherRequest(action, workflow, run) =>
      if workflow == m.live.workflowId then m
      else m.(approvals := m.approvals[m.nextApproval := A.NewApproval(action, workflow, run)],
              nextApproval := m.nextApproval + 1)
    case OtherResume(id, run) =>
      if id !in m.approvals || m.approvals[id].workflowId == m.live.workflowId then m
      else (match A.MarkedResumed(m.approvals[id], run)
            case Ok(a) => m.(approvals := m.approvals[id := a])
            case _ => m)
    case AddChild(child) =>
      if !m.phase.Over? || child in m.file.saved.children then m
      else Persist(m.(live := m.file.saved.(children := m.file.saved.children + [child])))
    case Crash => m.(phase := Over)
  }

  function After(m: Machine, moves: seq<Move>): Machine
    decreases |moves|
  {
    if moves == [] then m else Next(After(m, moves[..|moves| - 1]), moves[|moves| - 1])
  }
}
