/** The workflow record of runtime/workflow.py and the functions that advance it. A function that
    raises keeps whatever it had changed before. */
module WorkflowSteps {
  import opened Common

  type Time = int
  type RunId = nat
  type WorkflowId = nat
  type ApprovalId = nat
  type ArtifactId = nat
  type MemoryId = nat

  datatype RunType = ModelRun | ToolRun

  datatype StepId =
    | ActionStep(run: RunType)
    | ApprovalStep(approval: ApprovalId)
    | RetryStep(attempt: nat)
    | FinishStep
  {
    predicate Wait() { ApprovalStep? || RetryStep? }
  }

  datatype StepStatus = Pending | InProgress | Blocked | Completed | Failed
  datatype Status = Running | Waiting | Succeeded | FailedFlow {
    predicate Terminal() { Succeeded? || FailedFlow? }
  }

  datatype Fault = Fault(errorType: string, message: string, retryable: bool)

  /** `nextRetryAt` and `cause` are the details of a retry step. */
  datatype Step = Step(id: StepId, status: StepStatus, nextRetryAt: Option<Time>, cause: Option<Fault>,
                       error: Option<Fault>)

  /** What a workflow keeps of a memory: its id and the summary it was registered with. */
  datatype Memory = Memory(id: MemoryId, summary: string)

  datatype RetryPolicy = RetryPolicy(maxAttempts: nat, backoffSeconds: nat)
  datatype RetryState = RetryState(attemptsUsed: nat, retriesRemaining: nat, nextRetryAt: Option<Time>,
                                   lastError: Option<Fault>)

  datatype Flow = Flow(
    workflowId: WorkflowId, latestRunId: RunId, runType: RunType, status: Status, current: StepId, steps: seq<Step>,
    children: seq<WorkflowId>, artifacts: seq<ArtifactId>, memories: seq<Memory>,
    retryPolicy: RetryPolicy, retryState: RetryState)

  datatype Error =
    | UnknownStep | StepTransition | WorkflowTransition | NotRetryable | BudgetExhausted | NotWaitingOnRetry

  datatype Attempt = Done(flow: Flow) | Raised(flow: Flow, error: Error)

  // ---------- the two transition tables ----------

  function WorkflowNext(s: Status): set<Status> {
    match s
    case Running => {Waiting, Succeeded, FailedFlow}
    case Waiting => {Running, FailedFlow}
    case Succeeded | FailedFlow => {}
  }

  function StepNext(s: StepStatus): set<StepStatus> {
    match s
    case Pending => {InProgress, Blocked, Completed, Failed}
    case InProgress => {Blocked, Completed, Failed}
    case Blocked => {InProgress, Completed, Failed}
    case Completed | Failed => {}
  }

  /** The reflexive transitive closure of the step table. */
  function StepReach(s: StepStatus): set<StepStatus> {
    match s
    case Pending => {Pending, InProgress, Blocked, Completed, Failed}
    case InProgress | Blocked => {InProgress, Blocked, Completed, Failed}
    case Completed => {Completed}
    case Failed => {Failed}
  }

  // ---------- looking up and changing one step ----------

  /** get_step: the first step with this id. */
  function Find(steps: seq<Step>, id: StepId): (r: Option<nat>)
    ensures r.Some? ==> r.value < |steps| && steps[r.value].id == id
                        && forall k :: 0 <= k < r.value ==> steps[k].id != id
    ensures r.None? ==> forall k :: 0 <= k < |steps| ==> steps[k].id != id
  {
    if steps == [] then None
    else if steps[0].id == id then Some(0)
    else match Find(steps[1..], id)
      case None => assert forall k :: 0 < k < |steps| ==> steps[k] == steps[1..][k - 1]; None
      case Some(k) => assert forall i :: 0 < i < |steps| ==> steps[i] == steps[1..][i - 1]; Some(k + 1)
  }

  function Action(f: Flow): Option<nat> { Find(f.steps, ActionStep(f.runType)) }

  function WithStep(f: Flow, i: nat, step: Step): Flow
    requires i < |f.steps|
  {
    f.(steps := f.steps[i := step])
  }

  function TransitionStep(f: Flow, i: nat, next: StepStatus): Attempt
    requires i < |f.steps|
  {
    if next in StepNext(f.steps[i].status) then Done(WithStep(f, i, f.steps[i].(status := next)))
    else Raised(f, StepTransition)
  }

  function TransitionWorkflow(f: Flow, next: Status): Attempt {
    if next in WorkflowNext(f.status) then Done(f.(status := next)) else Raised(f, WorkflowTransition)
  }

  /** steps.insert(-1, step) */
  function InsertedBeforeLast(steps: seq<Step>, step: Step): seq<Step> {
    if steps == [] then [step] else steps[..|steps| - 1] + [step] + [steps[|steps| - 1]]
  }

  // ---------- the operations ----------

  function CreateWorkflow(runId: RunId, runType: RunType): Flow {
    Flow(runId, runId, runType, Running, ActionStep(runType),
         [Step(ActionStep(runType), InProgress, None, None, None), Step(FinishStep, Pending, None, None, None)],
         [], [], [], RetryPolicy(0, 0), RetryState(0, 0, None, None))
  }

  function AttachRun(f: Flow, runId: RunId): Flow { f.(latestRunId := runId) }

  function ConfigureRetryPolicy(f: Flow, policy: RetryPolicy): Flow {
    f.(retryPolicy := policy,
       retryState := f.retryState.(retriesRemaining := Max(policy.maxAttempts - f.retryState.attemptsUsed, 0)))
  }

  function RegisterArtifact(f: Flow, id: ArtifactId): Flow {
    if id in f.artifacts then f else f.(artifacts := f.artifacts + [id])
  }

  function MemoryIds(memories: seq<Memory>): seq<MemoryId> {
    seq(|memories|, i requires 0 <= i < |memories| => memories[i].id)
  }

  /** In place of the first memory with the same id, else at the end. */
  function PutMemory(memories: seq<Memory>, m: Memory): seq<Memory> {
    if memories == [] then [m]
    else if memories[0].id == m.id then [m] + memories[1..]
    else [memories[0]] + PutMemory(memories[1..], m)
  }

  function RegisterMemory(f: Flow, m: Memory): Flow { f.(memories := PutMemory(f.memories, m)) }

  function StartStep(f: Flow, i: nat): Attempt
    requires i < |f.steps|
  {
    if f.steps[i].status.Pending? then TransitionStep(f, i, InProgress) else Done(f)
  }

  function MarkActionCompleted(f: Flow): Attempt {
    match Action(f)
    case None => Raised(f, UnknownStep)
    case Some(a) =>
      match (if f.steps[a].status.Completed? then Done(f) else TransitionStep(f, a, Completed))
      case Raised(g, e) => Raised(g, e)
      case Done(g) =>
        match Find(g.steps, FinishStep)
        case None => Raised(g, UnknownStep)
        case Some(k) =>
          match StartStep(g, k)
          case Raised(h, e) => Raised(h, e)
          case Done(h) => Done(h.(current := FinishStep))
  }

  function CompleteFinishStep(f: Flow): Attempt {
    match Find(f.steps, FinishStep)
    case None => Raised(f, UnknownStep)
    case Some(k) =>
      match StartStep(f, k)
      case Raised(g, e) => Raised(g, e)
      case Done(g) =>
        match (if g.steps[k].status.Completed? then Done(g) else TransitionStep(g, k, Completed))
        case Raised(h, e) => Raised(h, e)
        case Done(h) =>
          match (if h.status.Succeeded? then Done(h) else TransitionWorkflow(h, Succeeded))
          case Raised(x, e) => Raised(x, e)
          case Done(x) => Done(x.(current := FinishStep))
  }

  /** Block the action if it is running. */
  function BlockAction(f: Flow): Attempt {
    match Action(f)
    case None => Raised(f, UnknownStep)
    case Some(a) => if f.steps[a].status.InProgress? then TransitionStep(f, a, Blocked) else Done(f)
  }

  /** The shared end of the two waits: move to waiting and make `id` the current step. */
  function EnterWait(f: Flow, id: StepId): Attempt {
    match (if f.status.Waiting? then Done(f) else TransitionWorkflow(f, Waiting))
    case Raised(g, e) => Raised(g, e)
    case Done(g) => Done(g.(current := id))
  }

  function WaitForApproval(f: Flow, approval: ApprovalId): Attempt {
    match BlockAction(f)
    case Raised(g, e) => Raised(g, e)
    case Done(g) =>
      var id := ApprovalStep(approval);
      EnterWait(if Find(g.steps, id).Some? then g
                else g.(steps := InsertedBeforeLast(g.steps, Step(id, InProgress, None, None, None))), id)
  }

  predicate CanRetry(f: Flow) { f.retryState.attemptsUsed < f.retryPolicy.maxAttempts }

  function WithRetryStep(f: Flow, attempt: nat, nextRetryAt: Time, fault: Fault): Flow {
    var id := RetryStep(attempt);
    match Find(f.steps, id)
    case Some(k) => WithStep(f, k, f.steps[k].(nextRetryAt := Some(nextRetryAt), cause := Some(fault)))
    case None => f.(steps := InsertedBeforeLast(f.steps, Step(id, InProgress, Some(nextRetryAt), Some(fault), None)))
  }

  function WaitForRetry(f: Flow, fault: Fault, now: Time): Attempt {
    if !fault.retryable then Raised(f, NotRetryable)
    else if !CanRetry(f) then Raised(f, BudgetExhausted)
    else
      match BlockAction(f)
      case Raised(g, e) => Raised(g, e)
      case Done(g) =>
        var attempt := g.retryState.attemptsUsed + 1;
        var at := now + g.retryPolicy.backoffSeconds;
        var h := WithRetryStep(g, attempt, at, fault)
                 .(retryState := RetryState(attempt, Max(g.retryPolicy.maxAttempts - attempt, 0), Some(at),
                                            Some(fault)));
        EnterWait(h, RetryStep(attempt))
  }

  /** The shared end of the two resumes: back to running, unblock the action and make it current. */
  function LeaveWait(f: Flow): Attempt {
    match (if f.status.Waiting? then TransitionWorkflow(f, Running) else Done(f))
    case Raised(g, e) => Raised(g, e)
    case Done(g) =>
      match Action(g)
      case None => Raised(g, UnknownStep)
      case Some(a) =>
        match (if g.steps[a].status.Blocked? then TransitionStep(g, a, InProgress) else Done(g))
        case Raised(h, e) => Raised(h, e)
        case Done(h) => Done(h.(current := ActionStep(h.runType)))
  }

  /** Complete the wait step if it is in progress. */
  function CompleteWait(f: Flow, id: StepId): Attempt {
    match Find(f.steps, id)
    case None => Raised(f, UnknownStep)
    case Some(k) => if f.steps[k].status.InProgress? then TransitionStep(f, k, Completed) else Done(f)
  }

  function ResumeFromApproval(f: Flow, approval: ApprovalId): Attempt {
    match CompleteWait(f, ApprovalStep(approval))
    case Raised(g, e) => Raised(g, e)
    case Done(g) => LeaveWait(g)
  }

  function ResumeFromRetry(f: Flow): Attempt {
    match Find(f.steps, f.current)
    case None => Raised(f, UnknownStep)
    case Some(k) =>
      if !f.current.RetryStep? then Raised(f, NotWaitingOnRetry)
      else
        match CompleteWait(f, f.current)
        case Raised(g, e) => Raised(g, e)
        case Done(g) =>
          match LeaveWait(g)
          case Raised(h, e) => Raised(h, e)
          case Done(h) => Done(h.(retryState := h.retryState.(nextRetryAt := None)))
  }

  function FailWorkflow(f: Flow, fault: Fault): Attempt {
    match Find(f.steps, f.current)
    case None => Raised(f, UnknownStep)
    case Some(k) =>
      match (if f.steps[k].status.Completed? || f.steps[k].status.Failed? then Done(f)
             else match TransitionStep(f, k, Failed)
               case Raised(g, e) => Raised(g, e)
               case Done(g) => Done(WithStep(g, k, g.steps[k].(error := Some(fault)))))
      case Raised(g, e) => Raised(g, e)
      case Done(g) => if g.status.Terminal() then Done(g) else TransitionWorkflow(g, FailedFlow)
  }
}
