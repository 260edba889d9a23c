/** What becomes of one job record, field by field: which fields each update of the queue writes, what it
    leaves, and the entry it adds to the log. */
module QueueLaws {
  import opened Common
  import opened QueueJobs

  /** The log has gained one entry, which says what became of the record, when and why. */
  predicate Gained(j: Job, k: Job, event: Event, reason: Reason, at: Time) {
    && GainedAny(j, k, event, at) && k.history[|j.history|].reason == Some(reason)
  }

  predicate GainedAny(j: Job, k: Job, event: Event, at: Time) {
    && |k.history| == |j.history| + 1 && k.history[..|j.history|] == j.history
    && var e := k.history[|j.history|];
       && e.Transition? && e.event == event && e.timestamp == at && e.fromStatus == j.status
       && e.toStatus == k.status && e.worker == k.workerId && e.attempts == k.attemptCount
  }

  /** Whatever is updated, the new entry gives the reason of the update; without one, why the job was
      canceled, else why it was requeued, else its error. */
  lemma UpdateGains(j: Job, changes: Job, reason: Option<Reason>, now: Time)
    requires j.status != changes.status || j.readyAt != changes.readyAt
    ensures var k := Updated(j, changes, reason, now);
            && k == changes.(updatedAt := now, history := k.history)
            && GainedAny(j, k, Classify(j, changes), now)
            && var why := k.history[|j.history|].reason;
               if reason.Some? && reason.value != Text("") then why == reason
               else if k.cancelReason.Some? && k.cancelReason.value != Text("") then why == k.cancelReason
               else if k.lastRequeueReason.Some? && k.lastRequeueReason.value != Text("")
                 then why == k.lastRequeueReason
               else if k.error.Some? then why == Some(Text(k.error.value.message)) else why == None
  {
    assert Tracked(j, StatusField) != Tracked(changes, StatusField)
           || Tracked(j, ReadyAtField) != Tracked(changes, ReadyAtField);
    assert StatusField in ChangedFields(j, changes) || ReadyAtField in ChangedFields(j, changes);
  }

  /** A scheduled job whose time has come is queued; nothing else is promoted. */
  predicate PromotedIfDue(j: Job, k: Job, now: Time) {
    if j.status.Scheduled? && j.readyAt <= now then
      k == j.(status := Queued, updatedAt := now, history := k.history) && GainedAny(j, k, RescheduledEvent, now)
    else k == j
  }

  /** Back in the queue, without a worker, and with one reclaim more. */
  predicate BackInQueue(j: Job, k: Job, reason: Reason, now: Time) {
    && k == j.(status := Queued, workerId := None, claimedAt := None, leaseExpiresAt := None,
               reclaimCount := j.reclaimCount + 1, lastRequeueReason := Some(reason), nextRetryAt := None,
               updatedAt := now, history := k.history)
    && Gained(j, k, RequeuedEvent, reason, now)
  }

  /** As new, for a new time. */
  predicate Afresh(j: Job, k: Job, readyAt: Time, now: Time) {
    && k == j.(status := if readyAt > now then Scheduled else Queued, readyAt := readyAt, workerId := None,
               claimedAt := None, leaseExpiresAt := None, lastRequeueReason := None, attemptCount := 0,
               lastFailureAt := None, deadLetteredAt := None, nextRetryAt := None, canceledAt := None,
               cancelReason := None, result := None, error := None, updatedAt := now, history := k.history)
    && (k.status != j.status ==>
          Gained(j, k, if readyAt > now then StatusChangedEvent else RescheduledEvent, OperatorReschedule, now))
    && (k.status == j.status && k.readyAt != j.readyAt && j.workerId.None? ==>
          Gained(j, k, ReadyAtChangedEvent, OperatorReschedule, now))
  }

  lemma PromotedRecord(j: Job, reason: Option<Reason>, now: Time)
    ensures PromotedIfDue(j, Promoted(j, reason, now), now)
  {
    hide Updated;
    if j.status.Scheduled? && j.readyAt <= now { UpdateGains(j, j.(status := Queued), reason, now); }
  }

  lemma ClaimedRecord(j: Job, worker: WorkerId, leaseSeconds: Pos, now: Time)
    requires j.status.Queued?
    ensures var k := Claimed(j, worker, leaseSeconds, now);
            && k == j.(status := Running, workerId := Some(worker), claimedAt := Some(now),
                       leaseExpiresAt := Some(now + leaseSeconds), updatedAt := now, history := k.history)
            && Gained(j, k, ClaimedEvent, ClaimedByWorker(worker), now)
  {
    hide Updated;
    UpdateGains(j, j.(status := Running, workerId := Some(worker), claimedAt := Some(now),
                      leaseExpiresAt := Some(now + leaseSeconds)), Some(ClaimedByWorker(worker)), now);
  }

  lemma RequeuedRecord(j: Job, reason: Reason, now: Time)
    requires j.status.Running? && reason != Text("")
    ensures BackInQueue(j, Requeued(j, reason, now), reason, now)
  {
    hide Updated;
    UpdateGains(j, j.(status := Queued, workerId := None, claimedAt := None, leaseExpiresAt := None,
                      reclaimCount := j.reclaimCount + 1, lastRequeueReason := Some(reason), nextRetryAt := None),
                Some(reason), now);
  }

  lemma FinishedRecord(j: Job, result: JobResult, now: Time)
    requires j.status.Running?
    ensures var k := Finished(j, result, now);
            && k == j.(status := Completed, result := Some(result), error := None, leaseExpiresAt := None,
                       updatedAt := now, history := k.history)
            && Gained(j, k, CompletedEvent, JobCompleted, now)
  {
    hide Updated;
    UpdateGains(j, j.(status := Completed, result := Some(result), error := None, leaseExpiresAt := None),
                Some(JobCompleted), now);
  }

  lemma DelayDoubles(j: Job)
    ensures RetryDelaySeconds(j, j.attemptCount + 1) == j.retryBackoffSeconds * Pow2(j.attemptCount)
  {
  }

  /** A failure while attempts remain: the job waits for the backoff, doubled for every earlier attempt. */
  lemma RetriedRecord(j: Job, error: JobError, now: Time)
    requires j.status.Running? && j.attemptCount + 1 < j.maxAttempts
    ensures var k := FailureRecorded(j, error, now);
            var at := now + j.retryBackoffSeconds * Pow2(j.attemptCount);
            && k == j.(status := if at > now then Scheduled else Queued, attemptCount := j.attemptCount + 1,
                       error := Some(error), lastFailureAt := Some(now), nextRetryAt := Some(at), readyAt := at,
                       workerId := None, claimedAt := None, leaseExpiresAt := None,
                       lastRequeueReason := Some(RetryScheduled(j.attemptCount + 1)), result := None,
                       updatedAt := now, history := k.history)
            && GainedAny(j, k, if at > now then RetryScheduledEvent else RequeuedEvent, now)
            && (error.message != "" ==> k.history[|j.history|].reason == Some(Text(error.message)))
  {
    hide Updated, RetryDelaySeconds, Pow2;
    var n := j.attemptCount + 1;
    var at := now + RetryDelaySeconds(j, n);
    DelayDoubles(j);
    UpdateGains(j, j.(status := StatusForReadyAt(at, now), attemptCount := n, error := Some(error),
                      lastFailureAt := Some(now), nextRetryAt := Some(at), readyAt := at, workerId := None,
                      claimedAt := None, leaseExpiresAt := None, lastRequeueReason := Some(RetryScheduled(n)),
                      result := None),
                Some(Text(error.message)), now);
  }

  /** The last failure: failed if there was only one attempt, else dead-lettered. */
  lemma SpentRecord(j: Job, error: JobError, now: Time)
    requires j.status.Running? && j.attemptCount + 1 >= j.maxAttempts
    ensures var k := FailureRecorded(j, error, now); var dead := j.maxAttempts > 1;
            && k == j.(status := if dead then DeadLetter else Failed, attemptCount := j.attemptCount + 1,
                       error := Some(error), lastFailureAt := Some(now),
                       deadLetteredAt := if dead then Some(now) else None, nextRetryAt := None, workerId := None,
                       claimedAt := None, leaseExpiresAt := None, updatedAt := now, history := k.history)
            && GainedAny(j, k, if dead then DeadLetteredEvent else FailedEvent, now)
            && (error.message != "" ==> k.history[|j.history|].reason == Some(Text(error.message)))
  {
    hide Updated;
    var dead := j.maxAttempts > 1;
    UpdateGains(j, j.(status := if dead then DeadLetter else Failed, attemptCount := j.attemptCount + 1,
                      error := Some(error), lastFailureAt := Some(now),
                      deadLetteredAt := if dead then Some(now) else None, nextRetryAt := None, workerId := None,
                      claimedAt := None, leaseExpiresAt := None),
                Some(Text(error.message)), now);
  }

  lemma CanceledFields(j: Job, reason: Reason, now: Time)
    requires j.status.Queued? || j.status.Scheduled? || j.status.Running?
    ensures var k := CanceledRecord(j, reason, now);
            && k == j.(status := Canceled, canceledAt := Some(now), cancelReason := Some(reason),
                       workerId := if j.status.Running? then j.workerId else None, claimedAt := None,
                       leaseExpiresAt := None, nextRetryAt := None, result := None, error := None,
                       updatedAt := now, history := k.history)
            && GainedAny(j, k, CanceledEvent, now)
            && (reason != Text("") ==> k.history[|j.history|].reason == Some(reason))
  {
    hide Updated;
    UpdateGains(j, j.(status := Canceled, canceledAt := Some(now), cancelReason := Some(reason),
                      workerId := if j.status.Running? then j.workerId else None, claimedAt := None,
                      leaseExpiresAt := None, nextRetryAt := None, result := None, error := None),
                Some(reason), now);
  }

  /** A rescheduled job starts afresh at its new time. */
  lemma RescheduledFields(j: Job, readyAt: Time, now: Time)
    requires j.status.Queued? || j.status.Scheduled? || j.status.Failed? || j.status.DeadLetter?
    ensures Afresh(j, Rescheduled(j, readyAt, now), readyAt, now)
  {
    hide Updated;
    var changes := j.(status := if readyAt > now then Scheduled else Queued, readyAt := readyAt, workerId := None,
                      claimedAt := None, leaseExpiresAt := None, lastRequeueReason := None, attemptCount := 0,
                      lastFailureAt := None, deadLetteredAt := None, nextRetryAt := None, canceledAt := None,
                      cancelReason := None, result := None, error := None);
    assert Rescheduled(j, readyAt, now) == Updated(j, changes, Some(OperatorReschedule), now);
    if changes.status != j.status || changes.readyAt != j.readyAt {
      UpdateGains(j, changes, Some(OperatorReschedule), now);
    } else {
      UpdateStamps(j, changes, Some(OperatorReschedule), now);
    }
  }

  lemma UpdateStamps(j: Job, changes: Job, reason: Option<Reason>, now: Time)
    ensures var k := Updated(j, changes, reason, now); k == changes.(updatedAt := now, history := k.history)
  {
  }

  /** What a stale record loses: a due job is queued, and who does not run has no worker and no lease. */
  lemma RepairedFields(j: Job, now: Time)
    ensures var k := StaleRepaired(j, now);
            && k == j.(status := if j.status.Scheduled? && j.readyAt <= now then Queued else j.status,
                       workerId := if j.status.Running? then j.workerId else None,
                       claimedAt := if j.status.Running? then j.claimedAt else None,
                       leaseExpiresAt := if j.status.Running? then j.leaseExpiresAt else None,
                       updatedAt := k.updatedAt, history := k.history)
            && (if k.status == j.status && k.workerId == j.workerId && k.claimedAt == j.claimedAt
                   && k.leaseExpiresAt == j.leaseExpiresAt
                then k == j else k.updatedAt == now)
  {
    hide ChangedFields, TransitionEntry;
  }
}
