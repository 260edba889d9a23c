/** The job record of runtime/queue.py, the single-record updates the queue functions
    perform on it, and the transition history every update extends. */
module QueueJobs {
  import opened Common

  type JobId = nat
  type WorkerId = nat
  type WorkflowId = nat
  type Time = int

  datatype JobType = WorkflowStart | WorkflowResume | WorkflowSubrun

  datatype Status = Queued | Scheduled | Running | Completed | Failed | DeadLetter | Canceled {
    predicate Terminal() { Completed? || Failed? || DeadLetter? || Canceled? }
  }

  datatype Payload = Payload(workflowId: Option<WorkflowId>, body: string)
  datatype JobResult = JobResult(workflowId: Option<WorkflowId>, output: string)
  datatype JobError = JobError(errorType: string, message: string)

  /** The reasons the source formats into text, kept apart by their shape. */
  datatype Reason =
    | Text(text: string)
    | ClaimedByWorker(worker: WorkerId)
    | JobCompleted
    | ReadyAtElapsed
    | StaleStateRepair
    | OperatorReschedule
    | LeaseExpiredFor(owner: Option<WorkerId>)
    | WorkerReset(note: string)
    | RetryScheduled(attempt: nat)

  datatype Event =
    | ClaimedEvent | CompletedEvent | FailedEvent | DeadLetteredEvent | CanceledEvent
    | RetryScheduledEvent | RequeuedEvent | RescheduledEvent | StatusChangedEvent
    | WorkerAssignmentChangedEvent | ReclaimedEvent | ReadyAtChangedEvent | UpdatedEvent

  /** The twelve tracked fields. */
  datatype Field =
    | StatusField | WorkerField | ClaimedAtField | LeaseField | ReadyAtField | AttemptsField
    | NextRetryField | ReclaimsField | DeadLetteredField | CanceledAtField | ResultField | ErrorField

  datatype Value =
    | StatusValue(status: Status)
    | WorkerValue(worker: Option<WorkerId>)
    | TimeValue(time: Option<Time>)
    | CountValue(count: nat)
    | ResultValue(result: Option<JobResult>)
    | ErrorValue(error: Option<JobError>)

  datatype Change = Change(was: Value, becomes: Value)

  datatype Entry =
    | Created(timestamp: Time, status: Status, readyAt: Time, priority: int)
    | Transition(event: Event, timestamp: Time, fromStatus: Status, toStatus: Status,
                 worker: Option<WorkerId>, attempts: nat, reason: Option<Reason>,
                 changed: map<Field, Change>)

  datatype Job = Job(
    jobType: JobType, status: Status, priority: int, readyAt: Time, payload: Payload,
    workflowId: Option<WorkflowId>, parentJobId: Option<JobId>, idempotencyKey: Option<string>,
    workerId: Option<WorkerId>, claimedAt: Option<Time>, leaseExpiresAt: Option<Time>,
    reclaimCount: nat, lastRequeueReason: Option<Reason>, attemptCount: nat, maxAttempts: Pos,
    retryBackoffSeconds: nat, lastFailureAt: Option<Time>, nextRetryAt: Option<Time>,
    deadLetteredAt: Option<Time>, canceledAt: Option<Time>, cancelReason: Option<Reason>,
    result: Option<JobResult>, error: Option<JobError>, history: seq<Entry>,
    createdAt: Time, updatedAt: Time)

  // ---------- the transition history ----------

  function Tracked(j: Job, f: Field): Value {
    match f
    case StatusField => StatusValue(j.status)
    case WorkerField => WorkerValue(j.workerId)
    case ClaimedAtField => TimeValue(j.claimedAt)
    case LeaseField => TimeValue(j.leaseExpiresAt)
    case ReadyAtField => TimeValue(Some(j.readyAt))
    case AttemptsField => CountValue(j.attemptCount)
    case NextRetryField => TimeValue(j.nextRetryAt)
    case ReclaimsField => CountValue(j.reclaimCount)
    case DeadLetteredField => TimeValue(j.deadLetteredAt)
    case CanceledAtField => TimeValue(j.canceledAt)
    case ResultField => ResultValue(j.result)
    case ErrorField => ErrorValue(j.error)
  }

  function ChangedFields(current: Job, updated: Job): map<Field, Change> {
    map f: Field | Tracked(current, f) != Tracked(updated, f)
      :: Change(Tracked(current, f), Tracked(updated, f))
  }

  function Classify(current: Job, updated: Job): Event {
    if current.status != updated.status then
      if updated.status.Running? then ClaimedEvent
      else if updated.status.Completed? then CompletedEvent
      else if updated.status.Failed? then FailedEvent
      else if updated.status.DeadLetter? then DeadLetteredEvent
      else if updated.status.Canceled? then CanceledEvent
      else if updated.status.Scheduled? && updated.attemptCount > current.attemptCount then RetryScheduledEvent
      else if updated.status.Queued? && current.status.Running? then RequeuedEvent
      else if updated.status.Queued?
              && (current.status.Failed? || current.status.DeadLetter? || current.status.Scheduled?)
        then RescheduledEvent
      else StatusChangedEvent
    else if current.workerId != updated.workerId then WorkerAssignmentChangedEvent
    else if current.reclaimCount != updated.reclaimCount then ReclaimedEvent
    else if current.readyAt != updated.readyAt then ReadyAtChangedEvent
    else UpdatedEvent
  }

  /** Python's `or`: the empty string counts as missing. */
  predicate Truthy(r: Option<Reason>) { r.Some? && r != Some(Text("")) }

  function LoggedReason(reason: Option<Reason>, updated: Job): Option<Reason> {
    if Truthy(reason) then reason
    else if Truthy(updated.cancelReason) then updated.cancelReason
    else if Truthy(updated.lastRequeueReason) then updated.lastRequeueReason
    else if updated.error.Some? then Some(Text(updated.error.value.message))
    else None
  }

  function TransitionEntry(current: Job, updated: Job, reason: Option<Reason>, now: Time): Entry {
    Transition(Classify(current, updated), now, current.status, updated.status, updated.workerId,
               updated.attemptCount, LoggedReason(reason, updated), ChangedFields(current, updated))
  }

  /** update_job: stamp the time and log the difference, if there is one. */
  function Updated(current: Job, changes: Job, reason: Option<Reason>, now: Time): (updated: Job)
    ensures ChangedFields(current, updated) == ChangedFields(current, changes)
    ensures TransitionEntry(current, updated, reason, now) == TransitionEntry(current, changes, reason, now)
    ensures current.history <= updated.history
  {
    var updated := changes.(updatedAt := now,
                            history := if ChangedFields(current, changes) == map[] then current.history
                                       else current.history + [TransitionEntry(current, changes, reason, now)]);
    assert forall f :: Tracked(updated, f) == Tracked(changes, f);
    updated
  }

  // ---------- pure helpers ----------

  function StatusForReadyAt(readyAt: Time, now: Time): Status {
    if readyAt > now then Scheduled else Queued
  }

  predicate Due(j: Job, now: Time) { j.status.Scheduled? && j.readyAt <= now }

  predicate LeaseExpired(j: Job, now: Time) {
    j.status.Running? && j.leaseExpiresAt.Some? && j.leaseExpiresAt.value <= now
  }

  function Pow2(n: nat): nat { if n == 0 then 1 else 2 * Pow2(n - 1) }

  function RetryDelaySeconds(j: Job, attempt: nat): nat {
    if j.retryBackoffSeconds == 0 then 0
    else j.retryBackoffSeconds * Pow2(Max(attempt - 1, 0))
  }

  /** build_ready_at: a delay or an absolute time, not both. */
  function BuildReadyAt(delaySeconds: int, runAt: Option<Time>, now: Time): Option<Time> {
    if runAt.Some? && delaySeconds != 0 then None
    else if runAt.Some? then runAt
    else if delaySeconds < 0 then None
    else Some(now + delaySeconds)
  }

  // ---------- single-record updates ----------

  function NewJob(jobType: JobType, payload: Payload, priority: int, readyAt: Time,
                  workflowId: Option<WorkflowId>, parentJobId: Option<JobId>, key: Option<string>,
                  maxAttempts: Pos, backoff: nat, now: Time): Job
  {
    var status := StatusForReadyAt(readyAt, now);
    Job(jobType, status, priority, readyAt, payload, workflowId, parentJobId, key, None, None, None,
        0, None, 0, maxAttempts, backoff, None, None, None, None, None, None, None,
        [Created(now, status, readyAt, priority)], now, now)
  }

  function Promoted(j: Job, reason: Option<Reason>, now: Time): Job {
    if Due(j, now) then Updated(j, j.(status := Queued), reason, now) else j
  }

  /** load_job promotes a due job on the way and gives no reason for it. */
  function Loaded(j: Job, now: Time): Job { Promoted(j, None, now) }

  function Claimed(j: Job, worker: WorkerId, leaseSeconds: Pos, now: Time): Job {
    Updated(j, j.(status := Running, workerId := Some(worker), claimedAt := Some(now),
                  leaseExpiresAt := Some(now + leaseSeconds)),
            Some(ClaimedByWorker(worker)), now)
  }

  function Requeued(job: Job, reason: Reason, now: Time): Job {
    var j := Loaded(job, now);
    Updated(j, j.(status := Queued, workerId := None, claimedAt := None, leaseExpiresAt := None,
                  reclaimCount := j.reclaimCount + 1, lastRequeueReason := Some(reason), nextRetryAt := None),
            Some(reason), now)
  }

  function Finished(j: Job, result: JobResult, now: Time): Job {
    Updated(j, j.(status := Completed, result := Some(result), error := None, leaseExpiresAt := None),
            Some(JobCompleted), now)
  }

  function FailureRecorded(job: Job, error: JobError, now: Time): Job {
    var j := Loaded(job, now);
    var attempted := j.attemptCount + 1;
    if attempted >= j.maxAttempts then
      var terminal := if j.maxAttempts > 1 then DeadLetter else Failed;
      Updated(j, j.(status := terminal, attemptCount := attempted, error := Some(error),
                    lastFailureAt := Some(now),
                    deadLetteredAt := if terminal.DeadLetter? then Some(now) else None,
                    nextRetryAt := None, workerId := None, claimedAt := None, leaseExpiresAt := None),
              Some(Text(error.message)), now)
    else
      var nextRetryAt := now + RetryDelaySeconds(j, attempted);
      Updated(j, j.(status := StatusForReadyAt(nextRetryAt, now), attemptCount := attempted,
                    error := Some(error), lastFailureAt := Some(now), nextRetryAt := Some(nextRetryAt),
                    readyAt := nextRetryAt, workerId := None, claimedAt := None, leaseExpiresAt := None,
                    lastRequeueReason := Some(RetryScheduled(attempted)), result := None),
              Some(Text(error.message)), now)
  }

  predicate Cancelable(j: Job) { !j.status.Terminal() }

  function CanceledRecord(j: Job, reason: Reason, now: Time): Job {
    Updated(j, j.(status := Canceled, canceledAt := Some(now), cancelReason := Some(reason),
                  workerId := if j.status.Running? then j.workerId else None,
                  claimedAt := None, leaseExpiresAt := None, nextRetryAt := None,
                  result := None, error := None),
            Some(reason), now)
  }

  predicate Reschedulable(j: Job) {
    j.status.Queued? || j.status.Scheduled? || j.status.Failed? || j.status.DeadLetter?
  }

  function Rescheduled(j: Job, readyAt: Time, now: Time): Job {
    Updated(j, j.(status := StatusForReadyAt(readyAt, now), readyAt := readyAt, workerId := None,
                  claimedAt := None, leaseExpiresAt := None, lastRequeueReason := None, attemptCount := 0,
                  lastFailureAt := None, deadLetteredAt := None, nextRetryAt := None, canceledAt := None,
                  cancelReason := None, result := None, error := None),
            Some(OperatorReschedule), now)
  }

  /** What repair_stale_job_state finds wrong with one record. */
  predicate Stale(j: Job, now: Time) {
    || Due(j, now)
    || (!j.status.Running? && (j.workerId.Some? || j.claimedAt.Some? || j.leaseExpiresAt.Some?))
  }

  function StaleRepaired(j: Job, now: Time): Job {
    if !Stale(j, now) then j
    else
      var promoted := if Due(j, now) then j.(status := Queued) else j;
      Updated(j, if j.status.Running? then promoted
                 else promoted.(workerId := None, claimedAt := None, leaseExpiresAt := None),
              Some(StaleStateRepair), now)
  }

  function TerminalTimestamp(j: Job): Time {
    if j.status.DeadLetter? && j.deadLetteredAt.Some? then j.deadLetteredAt.value
    else if j.status.Canceled? && j.canceledAt.Some? then j.canceledAt.value
    else j.updatedAt
  }
}
