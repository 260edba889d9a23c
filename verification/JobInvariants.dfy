/** What every single-record update keeps true of a job: its attempt budget, the times it
    may run at, its claim accounting and the shape of its lease. */
module JobInvariants {
  import opened Common
  import opened QueueJobs
  import opened JobAudit

  /** The updates the queue and worker functions perform on one record. */
  datatype Move =
    | Promote(reason: Option<Reason>)
    | Claim(worker: WorkerId, leaseSeconds: Pos)
    | Requeue(why: Reason)
    | Finish(result: JobResult)
    | Fail(error: JobError)
    | Cancel(text: string)
    | Reschedule(readyAt: Time)
    | RepairStale

  predicate Enabled(j: Job, m: Move) {
    match m
    case Promote(reason) => reason != Some(OperatorReschedule)
    case Claim(_, _) => j.status.Queued?
    case Requeue(why) => j.status.Running? && !why.OperatorReschedule? && Truthy(Some(why))
    case Finish(_) => j.status.Running?
    case Fail(_) => j.status.Running?
    case Cancel(_) => Cancelable(j)
    case Reschedule(_) => Reschedulable(j)
    case RepairStale => true
  }

  function Moved(j: Job, m: Move, now: Time): Job {
    match m
    case Promote(reason) => Promoted(j, reason, now)
    case Claim(worker, leaseSeconds) => Claimed(j, worker, leaseSeconds, now)
    case Requeue(why) => Requeued(j, why, now)
    case Finish(result) => Finished(j, result, now)
    case Fail(error) => FailureRecorded(j, error, now)
    case Cancel(text) => CanceledRecord(j, Text(text), now)
    case Reschedule(readyAt) => Rescheduled(j, readyAt, now)
    case RepairStale => StaleRepaired(j, now)
  }

  // ---------- the invariants ----------

  /** Live jobs have attempts left; a job fails or is dead-lettered exactly when they are spent. */
  predicate BudgetOk(j: Job) {
    match j.status
    case Queued | Scheduled | Running => j.attemptCount < j.maxAttempts
    case Failed => j.maxAttempts == 1 && j.attemptCount == 1
    case DeadLetter => j.maxAttempts > 1 && j.attemptCount == j.maxAttempts
    case Completed | Canceled => j.attemptCount < j.maxAttempts
  }

  predicate Live(j: Job) { j.status.Queued? || j.status.Scheduled? || j.status.Running? }

  /** Nothing is queued or running before its ready time. */
  predicate TimelyOk(j: Job, now: Time) {
    j.status.Queued? || j.status.Running? ==> j.readyAt <= now
  }

  /** Geometric backoff: n failures push the ready time at least b + 2b + ... + 2^(n-1) b past
      the time the job was created or rescheduled for. */
  predicate BackoffOk(j: Job)
    requires LogShape(j.history)
  {
    Live(j) ==> j.readyAt >= Origin(j.history) + j.retryBackoffSeconds * (Pow2(j.attemptCount) - 1)
  }

  /** Every claim is spent as an attempt or a reclaim, or is the one still open or final. */
  predicate AccountsOk(j: Job) {
    && (CanceledWhileRunning(j.history) ==> j.status.Canceled?)
    && (NeverRescheduled(j.history) ==>
        Claims(j.history) == j.attemptCount + j.reclaimCount
          + if j.status.Running? || j.status.Completed? || CanceledWhileRunning(j.history) then 1 else 0)
  }

  /** Only running jobs have a lease; the claim of a completed job and the owner of a job
      canceled while running stay on record. */
  predicate LeaseShapeOk(j: Job) {
    && (j.status.Running? ==> j.workerId.Some? && j.claimedAt.Some? && j.leaseExpiresAt.Some?)
    && (!j.status.Running? ==> j.leaseExpiresAt.None?)
    && (!j.status.Running? && !j.status.Completed? ==> j.claimedAt.None?)
    && (!j.status.Running? && !j.status.Completed? && !j.status.Canceled? ==> j.workerId.None?)
  }

  predicate ReasonsOk(j: Job) {
    j.cancelReason != Some(OperatorReschedule) && j.lastRequeueReason != Some(OperatorReschedule)
  }

  ghost predicate JobOk(j: Job, now: Time) {
    && Faithful(j) && BudgetOk(j) && TimelyOk(j, now) && BackoffOk(j)
    && AccountsOk(j) && LeaseShapeOk(j) && ReasonsOk(j)
  }

  // ---------- preservation ----------

  lemma MoveKeepsBudgetAndLease(j: Job, m: Move, now: Time)
    requires Enabled(j, m) && BudgetOk(j) && TimelyOk(j, now) && LeaseShapeOk(j) && ReasonsOk(j)
    ensures var k := Moved(j, m, now);
            BudgetOk(k) && TimelyOk(k, now) && LeaseShapeOk(k) && ReasonsOk(k)
  {
    hide ChangedFields, TransitionEntry;
  }

  /** The reason a move passes to update_job. */
  function MoveReason(m: Move): Option<Reason> {
    match m
    case Promote(reason) => reason
    case Claim(worker, _) => Some(ClaimedByWorker(worker))
    case Requeue(why) => Some(why)
    case Finish(_) => Some(JobCompleted)
    case Fail(error) => Some(Text(error.message))
    case Cancel(text) => Some(Text(text))
    case Reschedule(_) => Some(OperatorReschedule)
    case RepairStale => Some(StaleStateRepair)
  }

  /** Every move is either nothing or one logged update. */
  lemma MoveIsUpdate(j: Job, m: Move, now: Time)
    requires Enabled(j, m)
    ensures var k := Moved(j, m, now); k == j || k == Updated(j, k, MoveReason(m), now)
  {
  }

  lemma MoveKeepsLog(j: Job, m: Move, now: Time)
    requires Enabled(j, m) && Faithful(j)
    ensures Faithful(Moved(j, m, now)) && j.history <= Moved(j, m, now).history
  {
    MoveIsUpdate(j, m, now);
    UpdateKeepsLog(j, Moved(j, m, now), MoveReason(m), now);
  }

  /** How one update may move a job's counters: starting spends nothing, leaving running costs
      one attempt or one reclaim unless the claim is final, anything else costs nothing. */
  predicate SpendsFairly(j: Job, k: Job) {
    var before, after := j.attemptCount + j.reclaimCount, k.attemptCount + k.reclaimCount;
    if k.status.Running? && !j.status.Running? then after == before && j.status.Queued?
    else if j.status.Running? && !k.status.Running? then
      after + (if k.status.Completed? || k.status.Canceled? then 1 else 0) == before + 1
    else after == before && (j.status.Completed? <==> k.status.Completed?)
         && (j.status.Canceled? ==> k.status.Canceled?)
  }

  lemma MoveSpendsFairly(j: Job, m: Move, now: Time)
    requires Enabled(j, m) && !m.Reschedule?
    ensures SpendsFairly(j, Moved(j, m, now))
  {
  }

  lemma SpendingKeepsAccounts(j: Job, k: Job, reason: Option<Reason>, now: Time)
    requires Faithful(j) && AccountsOk(j) && k == Updated(j, k, reason, now)
    requires SpendsFairly(j, k) || (!j.status.Running? && !j.status.Canceled? && reason == Some(OperatorReschedule))
    requires j.status.Completed? ==> k.status.Completed?
    ensures AccountsOk(k)
  {
    UpdateCounts(j, k, reason, now);
    if ChangedFields(j, k) == map[] {
      SameTracked(j, k);
    }
  }

  lemma SameTracked(j: Job, k: Job)
    requires ChangedFields(j, k) == map[]
    ensures j.status == k.status && j.readyAt == k.readyAt
    ensures j.attemptCount == k.attemptCount && j.reclaimCount == k.reclaimCount
  {
    forall f ensures Tracked(j, f) == Tracked(k, f) {
      assert f !in ChangedFields(j, k);
    }
    assert Tracked(j, StatusField) == Tracked(k, StatusField);
    assert Tracked(j, ReadyAtField) == Tracked(k, ReadyAtField);
    assert Tracked(j, AttemptsField) == Tracked(k, AttemptsField);
    assert Tracked(j, ReclaimsField) == Tracked(k, ReclaimsField);
  }

  /** A live job stays as it was, or has failed once more and waits twice as long again. */
  predicate WaitsLonger(j: Job, k: Job, now: Time) {
    && k.retryBackoffSeconds == j.retryBackoffSeconds
    && (Live(k) ==>
        && Live(j)
        && (|| (k.readyAt == j.readyAt && k.attemptCount == j.attemptCount)
            || (k.attemptCount == j.attemptCount + 1 && j.readyAt <= now
                && k.readyAt == now + k.retryBackoffSeconds * Pow2(j.attemptCount))))
  }

  lemma MoveWaitsLonger(j: Job, m: Move, now: Time)
    requires Enabled(j, m) && !m.Reschedule? && TimelyOk(j, now)
    ensures WaitsLonger(j, Moved(j, m, now), now)
  {
  }

  lemma WaitingKeepsBackoff(j: Job, k: Job, reason: Option<Reason>, now: Time)
    requires Faithful(j) && BackoffOk(j) && k == Updated(j, k, reason, now)
    requires WaitsLonger(j, k, now) && LoggedReason(reason, k) != Some(OperatorReschedule)
    ensures LogShape(k.history) && BackoffOk(k)
  {
    hide Faithful, Updated;
    UpdateCounts(j, k, reason, now);
    DoublingDelay(j.retryBackoffSeconds, j.attemptCount);
  }

  lemma ReschedulingResetsBackoff(j: Job, readyAt: Time, now: Time)
    requires Faithful(j) && BackoffOk(j) && Reschedulable(j)
    ensures var k := Rescheduled(j, readyAt, now); LogShape(k.history) && BackoffOk(k)
  {
    var k := Rescheduled(j, readyAt, now);
    MoveIsUpdate(j, Reschedule(readyAt), now);
    UpdateCounts(j, k, Some(OperatorReschedule), now);
    if ChangedFields(j, k) == map[] {
      SameTracked(j, k);
    }
  }

  lemma MoveReasonOk(j: Job, m: Move, now: Time)
    requires Enabled(j, m) && ReasonsOk(j) && !m.Reschedule?
    ensures LoggedReason(MoveReason(m), Moved(j, m, now)) != Some(OperatorReschedule)
  {
  }

  lemma DoublingDelay(b: nat, n: nat)
    ensures b * (Pow2(n) - 1) + b * Pow2(n) == b * (Pow2(n + 1) - 1)
  {
  }

  /** The delays after the first, second, ... up to the n-th failure of a job, added up. */
  function TotalDelay(j: Job, n: nat): nat {
    if n == 0 then 0 else TotalDelay(j, n - 1) + RetryDelaySeconds(j, n)
  }

  lemma {:induction false} DelaysAddUp(j: Job, n: nat)
    ensures TotalDelay(j, n) == j.retryBackoffSeconds * (Pow2(n) - 1)
  {
    if n > 0 {
      DelaysAddUp(j, n - 1);
      DoublingDelay(j.retryBackoffSeconds, n - 1);
    }
  }

  lemma MoveKeepsCounts(j: Job, m: Move, now: Time)
    requires Enabled(j, m) && JobOk(j, now)
    ensures var k := Moved(j, m, now); AccountsOk(k) && LogShape(k.history) && BackoffOk(k)
  {
    var k := Moved(j, m, now);
    MoveIsUpdate(j, m, now);
    if k != j {
      if m.Reschedule? {
        ReschedulingResetsBackoff(j, m.readyAt, now);
      } else {
        MoveSpendsFairly(j, m, now);
        MoveWaitsLonger(j, m, now);
        MoveReasonOk(j, m, now);
        WaitingKeepsBackoff(j, k, MoveReason(m), now);
      }
      assert j.status.Completed? ==> k.status.Completed?;
      SpendingKeepsAccounts(j, k, MoveReason(m), now);
    }
  }

  lemma MoveKeepsJobOk(j: Job, m: Move, now: Time)
    requires Enabled(j, m) && JobOk(j, now)
    ensures JobOk(Moved(j, m, now), now)
  {
    MoveKeepsBudgetAndLease(j, m, now);
    MoveKeepsLog(j, m, now);
    MoveKeepsCounts(j, m, now);
  }

  lemma NewJobOk(j: Job, readyAt: Time, now: Time)
    requires j == NewJob(j.jobType, j.payload, j.priority, readyAt, j.workflowId, j.parentJobId,
                         j.idempotencyKey, j.maxAttempts, j.retryBackoffSeconds, now)
    ensures JobOk(j, now) && Origin(j.history) == readyAt
  {
    assert Replayed(j.history, ReadyAtField) == TimeValue(Some(readyAt));
  }

  /** The clock only helps. */
  lemma LaterIsOk(j: Job, now: Time, later: Time)
    requires JobOk(j, now) && now <= later
    ensures JobOk(j, later)
  {
  }
}
