/** The job and worker stores of runtime/queue.py, runtime/worker.py and the recovery part of
    runtime/control_plane.py, as one value, and each API function as one step on it. */
module LeaseProtocol {
  import opened Common
  import opened QueueJobs
  import opened JobInvariants
  import Text

  datatype WorkerStatus = Idle | Busy | Expired

  datatype Worker = Worker(
    name: string, status: WorkerStatus, leaseSeconds: Pos, lastHeartbeatAt: Time,
    leaseExpiresAt: Time, currentJobId: Option<JobId>, createdAt: Time, updatedAt: Time)

  datatype State = State(jobs: map<JobId, Job>, workers: map<WorkerId, Worker>, now: Time)

  datatype Error =
    | JobNotFound | WorkerNotFound | InvalidArgument | KeyConflict | LeaseLapsed | AlreadyAssigned
    | NotAssigned | NotRunning | NotClaimedByWorker | WrongStatus | StillHolding | NotIdle

  datatype Result<+T> = Ok(value: T) | Err(error: Error)

  /** What dispatch_job may do: return a result or raise. */
  datatype Outcome = Returned(result: JobResult) | Raised(error: JobError)

  // ---------- worker records ----------

  predicate Lapsed(w: Worker, now: Time) { w.leaseExpiresAt <= now }

  /** update_worker writes the summary, which shows a holder whose lease has lapsed as expired. */
  function Saved(w: Worker, now: Time): Worker {
    w.(status := if Lapsed(w, now) && w.currentJobId.Some? then Expired else w.status, updatedAt := now)
  }

  function Beaten(w: Worker, now: Time): Worker {
    Saved(w.(lastHeartbeatAt := now, leaseExpiresAt := now + w.leaseSeconds), now)
  }

  function Assigned(w: Worker, job: JobId, now: Time): Worker {
    Saved(w.(status := Busy, currentJobId := Some(job), lastHeartbeatAt := now,
             leaseExpiresAt := now + w.leaseSeconds), now)
  }

  function Freed(w: Worker, now: Time): Worker { Saved(w.(status := Idle, currentJobId := None), now) }

  function ResetRecord(w: Worker, now: Time): Worker {
    Saved(w.(status := Idle, currentJobId := None, lastHeartbeatAt := now,
             leaseExpiresAt := now + w.leaseSeconds), now)
  }

  // ---------- sort orders ----------

  /** list_jobs: queued first, then priority downwards, ready time, creation time. */
  predicate ListedBefore(jobs: map<JobId, Job>, a: JobId, b: JobId) {
    a in jobs && b in jobs ==>
      var x, y := jobs[a], jobs[b];
      if x.status.Queued? != y.status.Queued? then x.status.Queued?
      else ServedBefore(x, y)
  }

  predicate ServedBefore(x: Job, y: Job) {
    x.priority > y.priority
    || (x.priority == y.priority
        && (x.readyAt < y.readyAt || (x.readyAt == y.readyAt && x.createdAt <= y.createdAt)))
  }

  /** promote_due_jobs: ready time, then priority downwards, then creation time. */
  predicate DueBefore(jobs: map<JobId, Job>, a: JobId, b: JobId) {
    a in jobs && b in jobs ==>
      var x, y := jobs[a], jobs[b];
      x.readyAt < y.readyAt
      || (x.readyAt == y.readyAt
          && (x.priority > y.priority || (x.priority == y.priority && x.createdAt <= y.createdAt)))
  }

  /** prune_jobs: terminal time, then id. */
  predicate PrunedBefore(jobs: map<JobId, Job>, a: JobId, b: JobId) {
    a in jobs && b in jobs ==>
      TerminalTimestamp(jobs[a]) < TerminalTimestamp(jobs[b])
      || (TerminalTimestamp(jobs[a]) == TerminalTimestamp(jobs[b]) && a <= b)
  }

  /** related_jobs_for_workflow: creation time, then id. */
  predicate CreatedBefore(jobs: map<JobId, Job>, a: JobId, b: JobId) {
    a in jobs && b in jobs ==>
      jobs[a].createdAt < jobs[b].createdAt || (jobs[a].createdAt == jobs[b].createdAt && a <= b)
  }

  // ---------- building blocks ----------

  /** Apply one update to each listed job record. */
  function Apply(s: State, moves: map<JobId, Move>): State {
    s.(jobs := map id | id in s.jobs :: if id in moves then Moved(s.jobs[id], moves[id], s.now) else s.jobs[id])
  }

  function PromoteIds(s: State, ids: set<JobId>, reason: Option<Reason>): State {
    Apply(s, map id | id in ids :: Promote(reason))
  }

  function DueJobs(s: State): set<JobId> { set id | id in s.jobs && Due(s.jobs[id], s.now) }

  function PromoteAll(s: State): State { PromoteIds(s, DueJobs(s), Some(ReadyAtElapsed)) }

  function LoadJob(s: State, id: JobId): State { PromoteIds(s, {id}, None) }

  function QueuedJobs(s: State): set<JobId> { set id | id in s.jobs && s.jobs[id].status.Queued? }

  function ExpiredJobs(s: State): set<JobId> { set id | id in s.jobs && LeaseExpired(s.jobs[id], s.now) }

  predicate HoldsOneOf(s: State, w: WorkerId, ids: set<JobId>) {
    w in s.workers && s.workers[w].currentJobId.Some? &&
    var j := s.workers[w].currentJobId.value; j in ids && j in s.jobs && s.jobs[j].workerId == Some(w)
  }

  function RequeueMoves(s: State, ids: set<JobId>): map<JobId, Move> {
    map id | id in ids && id in s.jobs :: Requeue(LeaseExpiredFor(s.jobs[id].workerId))
  }

  /** Requeue each job in `ids` and free the worker that holds it. */
  function ReclaimJobs(s: State, ids: set<JobId>): State {
    Apply(s, RequeueMoves(s, ids))
    .(workers := map w | w in s.workers :: if HoldsOneOf(s, w, ids) then Freed(s.workers[w], s.now) else s.workers[w])
  }

  function Reclaim(s: State): State {
    var p := PromoteAll(s);
    ReclaimJobs(p, ExpiredJobs(p))
  }

  function SetWorker(s: State, w: WorkerId, record: Worker): State { s.(workers := s.workers[w := record]) }

  function Beat(s: State, w: WorkerId): State
    requires w in s.workers
  {
    SetWorker(s, w, Beaten(s.workers[w], s.now))
  }

  function Release(s: State, w: WorkerId): State
    requires w in s.workers
  {
    SetWorker(s, w, Freed(s.workers[w], s.now))
  }

  /** The two writes of a successful claim. */
  function Take(s: State, w: WorkerId, id: JobId): State
    requires w in s.workers && id in s.jobs
  {
    SetWorker(Apply(s, map[id := Claim(w, s.workers[w].leaseSeconds)]), w, Assigned(s.workers[w], id, s.now))
  }

  function EndRun(s: State, w: WorkerId, id: JobId, outcome: Outcome): State
    requires w in s.workers
  {
    Release(Apply(s, map[id := match outcome case Returned(r) => Finish(r) case Raised(e) => Fail(e)]), w)
  }

  function ReleaseHolder(s: State, owner: Option<WorkerId>, id: JobId): State {
    if owner.Some? && owner.value in s.workers && s.workers[owner.value].currentJobId == Some(id)
    then Release(s, owner.value) else s
  }

  // ---------- the API functions ----------

  datatype Request = Request(
    jobType: JobType, payload: Payload, priority: int, delaySeconds: int, runAt: Option<Time>,
    workflowId: Option<WorkflowId>, parentJobId: Option<JobId>, key: Option<string>,
    maxAttempts: int, retryBackoffSeconds: int)

  predicate SameRequest(j: Job, q: Request) {
    j.jobType == q.jobType && j.payload == q.payload && j.workflowId == q.workflowId
    && j.parentJobId == q.parentJobId
  }

  predicate ValidRequest(q: Request) {
    && (q.key.Some? ==> !Text.Blank(q.key.value))
    && q.maxAttempts > 0 && q.retryBackoffSeconds >= 0
  }

  function JobsWithKey(s: State, key: string): set<JobId> {
    set id | id in s.jobs && s.jobs[id].idempotencyKey == Some(key)
  }

  /** find_job_by_idempotency_key: of several matches the latest created wins. */
  predicate LatestMatch(s: State, key: string, id: JobId) {
    && id in JobsWithKey(s, key)
    && forall other :: other in JobsWithKey(s, key) ==> CreatedBefore(s.jobs, other, id)
  }

  function Requested(s: State, q: Request): Job
    requires q.maxAttempts > 0 && q.retryBackoffSeconds >= 0
    requires BuildReadyAt(q.delaySeconds, q.runAt, s.now).Some?
  {
    NewJob(q.jobType, q.payload, q.priority, BuildReadyAt(q.delaySeconds, q.runAt, s.now).value,
           q.workflowId, q.parentJobId, q.key, q.maxAttempts, q.retryBackoffSeconds, s.now)
  }

  ghost predicate CreateStep(s: State, newId: JobId, q: Request, s': State, r: Result<JobId>) {
    if !ValidRequest(q) then s' == s && r == Err(InvalidArgument)
    else if q.key.Some? && JobsWithKey(s, q.key.value) != {} then
      && s' == s
      && exists id: JobId :: LatestMatch(s, q.key.value, id)
                      && r == if SameRequest(s.jobs[id], q) then Ok(id) else Err(KeyConflict)
    else if BuildReadyAt(q.delaySeconds, q.runAt, s.now).None? then s' == s && r == Err(InvalidArgument)
    else s' == s.(jobs := s.jobs[newId := Requested(s, q)]) && r == Ok(newId)
  }

  function Register(s: State, newId: WorkerId, name: string, leaseSeconds: int): State {
    if leaseSeconds <= 0 then s
    else SetWorker(s, newId, Worker(name, Idle, leaseSeconds, s.now, s.now + leaseSeconds, None, s.now, s.now))
  }

  function Heartbeat(s: State, w: WorkerId): (State, Result<()>) {
    if w !in s.workers then (s, Err(WorkerNotFound))
    else if Lapsed(s.workers[w], s.now) && s.workers[w].currentJobId.Some? then (s, Err(LeaseLapsed))
    else (Beat(s, w), Ok(()))
  }

  /** `id` heads the sorted ready list. */
  ghost predicate HeadOfQueue(s: State, id: JobId) {
    && id in QueuedJobs(s)
    && forall other :: other in QueuedJobs(s) ==> ServedBefore(s.jobs[id], s.jobs[other])
  }

  ghost predicate ClaimStep(s: State, w: WorkerId, s': State, r: Result<Option<JobId>>) {
    var s1 := Reclaim(s);
    if w !in s1.workers then s' == s1 && r == Err(WorkerNotFound)
    else if Lapsed(s1.workers[w], s1.now) && s1.workers[w].currentJobId.Some? then s' == s1 && r == Err(LeaseLapsed)
    else
      var s2 := Beat(s1, w);
      if s2.workers[w].currentJobId.Some? then s' == s2 && r == Err(AlreadyAssigned)
      else
        var s3 := PromoteAll(s2);
        if QueuedJobs(s3) == {} then s' == s3 && r == Ok(None)
        else r.Ok? && r.value.Some? && HeadOfQueue(s3, r.value.value) && s' == Take(s3, w, r.value.value)
  }

  function RunClaimed(s: State, w: WorkerId, id: JobId, outcome: Outcome, elapsed: nat): (State, Result<()>) {
    if w !in s.workers then (s, Err(WorkerNotFound))
    else if Lapsed(s.workers[w], s.now) then (s, Err(LeaseLapsed))
    else
      var s1 := Beat(s, w);
      if id !in s1.jobs then (s1, Err(JobNotFound))
      else
        var s2 := LoadJob(s1, id);
        var job, worker := s2.jobs[id], s2.workers[w];
        if job.status.Canceled? then
          (if worker.currentJobId == Some(id) || !worker.status.Idle? then Release(s2, w) else s2, Ok(()))
        else if worker.currentJobId != Some(id) then (s2, Err(NotAssigned))
        else if !job.status.Running? then (s2, Err(NotRunning))
        else if job.workerId != Some(w) then (s2, Err(NotClaimedByWorker))
        else if LeaseExpired(job, s2.now) then (s2, Err(LeaseLapsed))
        else (EndRun(s2.(now := s2.now + elapsed), w, id, outcome), Ok(()))
  }

  function CancelExecution(s: State, id: JobId, reason: string): (State, Result<()>) {
    if id !in s.jobs then (s, Err(JobNotFound))
    else
      var s1 := LoadJob(s, id);
      if !Cancelable(s1.jobs[id]) then (s1, Err(WrongStatus))
      else (ReleaseHolder(Apply(s1, map[id := Cancel(reason)]), s1.jobs[id].workerId, id), Ok(()))
  }

  function RescheduleJob(s: State, id: JobId, delaySeconds: int, runAt: Option<Time>): (State, Result<()>) {
    if id !in s.jobs then (s, Err(JobNotFound))
    else
      var s1 := LoadJob(s, id);
      var readyAt := BuildReadyAt(delaySeconds, runAt, s.now);
      if !Reschedulable(s1.jobs[id]) then (s1, Err(WrongStatus))
      else if readyAt.None? then (s1, Err(InvalidArgument))
      else (Apply(s1, map[id := Reschedule(readyAt.value)]), Ok(()))
  }

  predicate OwnsRunning(s: State, w: WorkerId, id: JobId) {
    id in s.jobs && s.jobs[id].status.Running? && s.jobs[id].workerId == Some(w)
  }

  function ResetWorker(s: State, w: WorkerId, reason: string, force: bool, requeue: bool): (State, Result<()>) {
    if Text.Blank(reason) then (s, Err(InvalidArgument))
    else if w !in s.workers then (s, Err(WorkerNotFound))
    else
      var record := ResetRecord(s.workers[w], s.now);
      match s.workers[w].currentJobId
      case None => (SetWorker(s, w, record), Ok(()))
      case Some(id) =>
        if id !in s.jobs then (SetWorker(s, w, record), Ok(()))
        else
          var s1 := LoadJob(s, id);
          if OwnsRunning(s1, w, id) then
            if requeue then
              (SetWorker(Apply(s1, map[id := Requeue(WorkerReset(Text.Strip(reason)))]), w, record), Ok(()))
            else if !force then (s1, Err(StillHolding))
            else (SetWorker(s1, w, record), Ok(()))
          else if !force && !s.workers[w].status.Idle? then (s1, Err(NotIdle))
          else (SetWorker(s1, w, record), Ok(()))
  }

  /** What repair_orphaned_workers finds wrong with one worker. */
  predicate Orphaned(s: State, w: WorkerId)
    requires w in s.workers
  {
    match s.workers[w].currentJobId
    case None => !s.workers[w].status.Idle?
    case Some(id) => !OwnsRunning(s, w, id)
  }

  function OrphanedWorkers(s: State): set<WorkerId> { set w | w in s.workers && Orphaned(s, w) }

  /** Repair `chosen`, having looked at the workers in `visited`. */
  function RepairWorkers(s: State, chosen: set<WorkerId>, visited: set<WorkerId>): State {
    var looked := set w |
      w in visited && w in s.workers && s.workers[w].currentJobId.Some? :: s.workers[w].currentJobId.value;
    PromoteIds(s, looked, None)
    .(workers := map w | w in s.workers :: if w in chosen then ResetRecord(s.workers[w], s.now) else s.workers[w])
  }

  /** The scan is in id order and stops once the limit is reached. */
  function Visited(s: State, chosen: seq<WorkerId>, limit: Option<int>): set<WorkerId> {
    if limit.Some? && |chosen| == limit.value && chosen != [] then set w | w in s.workers && w <= chosen[|chosen| - 1]
    else s.workers.Keys
  }

  function StaleJobs(s: State): set<JobId> { set id | id in s.jobs && Stale(s.jobs[id], s.now) }

  function RepairStaleIds(s: State, ids: set<JobId>): State {
    Apply(s, map id | id in ids :: RepairStale)
  }

  predicate ValidStatuses(statuses: Option<seq<Status>>) {
    statuses.Some? ==> statuses.value != [] && forall x :: x in statuses.value ==> x.Terminal()
  }

  function PrunableJobs(s: State, statuses: Option<seq<Status>>, olderThan: int): set<JobId> {
    set id | id in s.jobs
          && s.jobs[id].status in (if statuses.Some? then statuses.value else [DeadLetter])
          && TerminalTimestamp(s.jobs[id]) <= s.now - olderThan
  }

  function RemoveJobs(s: State, ids: set<JobId>): State { s.(jobs := s.jobs - ids) }

  predicate RelatesTo(j: Job, workflow: WorkflowId) {
    || j.workflowId == Some(workflow)
    || j.payload.workflowId == Some(workflow)
    || (j.result.Some? && j.result.value.workflowId == Some(workflow))
  }

  function RelatedJobs(s: State, workflow: WorkflowId): set<JobId> {
    set id | id in s.jobs && RelatesTo(s.jobs[id], workflow)
  }

  datatype Recovery = Recovery(reclaimExpired: bool, rescheduleFailed: bool, rescheduleDeadLetter: bool) {
    predicate Any() { reclaimExpired || rescheduleFailed || rescheduleDeadLetter }
  }

  function Recoverable(s: State, workflow: WorkflowId, actions: Recovery): set<JobId> {
    set id | id in RelatedJobs(s, workflow)
          && ((actions.rescheduleFailed && s.jobs[id].status.Failed?)
              || (actions.rescheduleDeadLetter && s.jobs[id].status.DeadLetter?))
  }

  function RecoverIds(s: State, workflow: WorkflowId, actions: Recovery, rescheduled: set<JobId>): State {
    var s1 := if actions.reclaimExpired then ReclaimJobs(s, RelatedJobs(s, workflow) * ExpiredJobs(s)) else s;
    Apply(s1, map id | id in rescheduled :: Reschedule(s.now))
  }

  // ---------- the calls that take an optional limit, with the ids they report ----------

  ghost predicate PromoteDueStep(s: State, limit: Option<int>, ids: seq<JobId>, s': State) {
    && FirstOf(ids, DueJobs(s), limit, (a: nat, b: nat) => DueBefore(s.jobs, a, b))
    && s' == PromoteIds(s, Elements(ids), Some(ReadyAtElapsed))
  }

  ghost predicate RepairOrphansStep(s: State, limit: Option<int>, ids: seq<WorkerId>, s': State) {
    && FirstOf(ids, OrphanedWorkers(s), limit, (a: nat, b: nat) => a <= b)
    && s' == RepairWorkers(s, Elements(ids), Visited(s, ids, limit))
  }

  ghost predicate RepairStaleStep(s: State, limit: Option<int>, ids: seq<JobId>, s': State) {
    && FirstOf(ids, StaleJobs(s), limit, (a: nat, b: nat) => ListedBefore(s.jobs, a, b))
    && s' == RepairStaleIds(s, Elements(ids))
  }

  ghost predicate PruneStep(s: State, statuses: Option<seq<Status>>, olderThan: int, limit: Option<int>,
                            ids: seq<JobId>, s': State)
  {
    && FirstOf(ids, PrunableJobs(s, statuses, olderThan), limit, (a: nat, b: nat) => PrunedBefore(s.jobs, a, b))
    && s' == RemoveJobs(s, Elements(ids))
  }

  ghost predicate RecoverStep(s: State, workflow: WorkflowId, actions: Recovery, limit: Option<int>,
                              ids: seq<JobId>, s': State)
  {
    && FirstOf(ids, Recoverable(s, workflow, actions), limit, (a: nat, b: nat) => CreatedBefore(s.jobs, a, b))
    && s' == RecoverIds(s, workflow, actions, Elements(ids))
  }

  // ---------- steps and runs ----------

  datatype Op =
    | CreateJob(freshJob: JobId, request: Request)
    | RegisterWorker(freshWorker: WorkerId, name: string, leaseSeconds: int)
    | HeartbeatWorker(worker: WorkerId)
    | GetJob(job: JobId)
    | PromoteDue(limit: Option<int>)
    | ReclaimExpired
    | ClaimNext(worker: WorkerId)
    | RunJob(worker: WorkerId, job: JobId, outcome: Outcome, elapsed: nat)
    | CancelJob(job: JobId, reason: string)
    | ReschedulingOf(job: JobId, delaySeconds: int, runAt: Option<Time>)
    | WorkerResetOf(worker: WorkerId, reason: string, force: bool, requeue: bool)
    | RepairOrphans(limit: Option<int>)
    | RepairStaleState(limit: Option<int>)
    | Prune(statuses: Option<seq<Status>>, olderThan: int, limit: Option<int>)
    | RecoverWorkflow(workflow: WorkflowId, actions: Recovery, limit: Option<int>)
    | Wait(seconds: nat)

  /** One API call, taken as atomic, or the passing of time. */
  ghost predicate Step(s: State, op: Op, s': State) {
    match op
    case CreateJob(newId, q) => newId !in s.jobs && exists r :: CreateStep(s, newId, q, s', r)
    case RegisterWorker(newId, name, seconds) => newId !in s.workers && s' == Register(s, newId, name, seconds)
    case HeartbeatWorker(w) => s' == Heartbeat(s, w).0
    case GetJob(id) => s' == LoadJob(s, id)
    case PromoteDue(limit) => if !ValidLimit(limit) then s' == s else exists ids :: PromoteDueStep(s, limit, ids, s')
    case ReclaimExpired => s' == Reclaim(s)
    case ClaimNext(w) => exists r :: ClaimStep(s, w, s', r)
    case RunJob(w, id, outcome, elapsed) => s' == RunClaimed(s, w, id, outcome, elapsed).0
    case CancelJob(id, reason) => s' == CancelExecution(s, id, reason).0
    case ReschedulingOf(id, delay, runAt) => s' == RescheduleJob(s, id, delay, runAt).0
    case WorkerResetOf(w, reason, force, requeue) => s' == ResetWorker(s, w, reason, force, requeue).0
    case RepairOrphans(limit) =>
      if !ValidLimit(limit) then s' == s else exists ids :: RepairOrphansStep(s, limit, ids, s')
    case RepairStaleState(limit) =>
      if !ValidLimit(limit) then s' == s else exists ids :: RepairStaleStep(s, limit, ids, s')
    case Prune(statuses, olderThan, limit) =>
      if !ValidStatuses(statuses) || olderThan < 0 || !ValidLimit(limit) then s' == s
      else exists ids :: PruneStep(s, statuses, olderThan, limit, ids, s')
    case RecoverWorkflow(workflow, actions, limit) =>
      if !actions.Any() || !ValidLimit(limit) then s' == s
      else exists ids :: RecoverStep(s, workflow, actions, limit, ids, s')
    case Wait(seconds) => s' == s.(now := s.now + seconds)
  }

  predicate Initial(s: State) { s.jobs == map[] && s.workers == map[] }

  ghost predicate Run(trace: seq<State>, ops: seq<Op>) {
    && |trace| == |ops| + 1
    && Initial(trace[0])
    && forall i :: 0 <= i < |ops| ==> Step(trace[i], ops[i], trace[i + 1])
  }
}
