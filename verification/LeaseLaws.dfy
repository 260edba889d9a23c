/** What each call of the queue and of the workers does to the two stores, field by field: who is refused and
    why, which records are written, and that all the others stay. */
module LeaseLaws {
  import opened Common
  import opened QueueJobs
  import opened JobInvariants
  import opened LeaseProtocol
  import opened QueueLaws
  import Text

  // ---------- on the way ----------

  /** Loading a job promotes it if its time has come, and does nothing else. */
  lemma LoadLaw(s: State, id: JobId)
    ensures var t := LoadJob(s, id);
            && t == s.(jobs := t.jobs) && t.jobs.Keys == s.jobs.Keys
            && (if id in s.jobs then t.jobs == s.jobs[id := t.jobs[id]] && PromotedIfDue(s.jobs[id], t.jobs[id], s.now)
                else t == s)
  {
    hide Promoted;
    if id in s.jobs { PromotedRecord(s.jobs[id], None, s.now); } else { assert LoadJob(s, id).jobs == s.jobs; }
  }

  /** A heartbeat renews the lease of the worker, and nothing else. */
  lemma BeatLaw(s: State, w: WorkerId)
    requires w in s.workers
    ensures var v := s.workers[w];
            Beat(s, w) == s.(workers := s.workers[w := v.(lastHeartbeatAt := s.now, updatedAt := s.now,
                                                          leaseExpiresAt := s.now + v.leaseSeconds)])
  {
  }

  lemma ApplyOneLaw(s: State, id: JobId, m: Move)
    requires id in s.jobs
    ensures Apply(s, map[id := m]) == s.(jobs := s.jobs[id := Moved(s.jobs[id], m, s.now)])
  {
    hide Moved;
    assert Apply(s, map[id := m]).jobs == s.jobs[id := Moved(s.jobs[id], m, s.now)];
  }

  // ---------- creating a job ----------

  /** The arguments of a request that are refused whatever the store holds. */
  predicate Malformed(q: Request) {
    || (q.key.Some? && Text.Blank(q.key.value)) || q.maxAttempts <= 0 || q.retryBackoffSeconds < 0
  }

  /** A run time and a delay, or a negative delay. */
  predicate BadTime(delaySeconds: int, runAt: Option<Time>) {
    (runAt.Some? && delaySeconds != 0) || delaySeconds < 0
  }

  lemma ReadyAtLaw(delaySeconds: int, runAt: Option<Time>, now: Time)
    ensures BuildReadyAt(delaySeconds, runAt, now).None? <==> BadTime(delaySeconds, runAt)
    ensures !BadTime(delaySeconds, runAt) ==>
              BuildReadyAt(delaySeconds, runAt, now)
              == Some(match runAt case Some(t) => t case None => now + delaySeconds)
  {
  }

  /** A request is refused if it is malformed; answered by the job it repeats, the latest with its key; and
      else creates a job as it asks for, ready at the run time or after the delay and scheduled exactly if
      that lies ahead. Nothing else changes. */
  lemma CreateLaw(s: State, newId: JobId, q: Request, s': State, r: Result<JobId>)
    requires CreateStep(s, newId, q, s', r)
    ensures var repeated := q.key.Some? && exists id :: id in s.jobs && s.jobs[id].idempotencyKey == q.key;
            if Malformed(q) || (!repeated && BadTime(q.delaySeconds, q.runAt)) then
              s' == s && r == Err(InvalidArgument)
            else if repeated then
              && s' == s
              && exists id: JobId ::
                   && id in s.jobs && s.jobs[id].idempotencyKey == q.key
                   && (forall other :: other in s.jobs && s.jobs[other].idempotencyKey == q.key ==>
                         s.jobs[other].createdAt < s.jobs[id].createdAt
                         || (s.jobs[other].createdAt == s.jobs[id].createdAt && other <= id))
                   && r == (if s.jobs[id].jobType == q.jobType && s.jobs[id].payload == q.payload
                               && s.jobs[id].workflowId == q.workflowId && s.jobs[id].parentJobId == q.parentJobId
                            then Ok(id) else Err(KeyConflict))
            else
              var at := match q.runAt case Some(t) => t case None => s.now + q.delaySeconds;
              var status := if at > s.now then Scheduled else Queued;
              && r == Ok(newId)
              && s' == s.(jobs := s.jobs[newId := Job(
                   q.jobType, status, q.priority, at, q.payload, q.workflowId, q.parentJobId, q.key, None, None, None,
                   0, None, 0, q.maxAttempts, q.retryBackoffSeconds, None, None, None, None, None, None, None,
                   [Created(s.now, status, at, q.priority)], s.now, s.now)])
  {
    hide BuildReadyAt;
    ReadyAtLaw(q.delaySeconds, q.runAt, s.now);
    if q.key.Some? {
      forall id | id in s.jobs ensures s.jobs[id].idempotencyKey == q.key <==> id in JobsWithKey(s, q.key.value) {}
    }
  }

  // ---------- rescheduling a job ----------

  /** A job that is queued, scheduled, failed or dead-lettered and known is rescheduled, unless the time is bad.
      It starts afresh, ready at the run time or after the delay, scheduled exactly if that lies ahead. */
  lemma RescheduleLaw(s: State, id: JobId, delaySeconds: int, runAt: Option<Time>)
    ensures var (t, r) := RescheduleJob(s, id, delaySeconds, runAt);
            if id !in s.jobs then t == s && r == Err(JobNotFound)
            else
              var j := s.jobs[id];
              if j.status.Running? || j.status.Completed? || j.status.Canceled? then t == s && r == Err(WrongStatus)
              else if BadTime(delaySeconds, runAt) then t == LoadJob(s, id) && r == Err(InvalidArgument)
              else
                var at := match runAt case Some(time) => time case None => s.now + delaySeconds;
                && r == Ok(()) && id in t.jobs && t == s.(jobs := s.jobs[id := t.jobs[id]])
                && t.jobs[id] == j.(status := if at > s.now then Scheduled else Queued, readyAt := at,
                                    workerId := None, claimedAt := None, leaseExpiresAt := None,
                                    lastRequeueReason := None, attemptCount := 0, lastFailureAt := None,
                                    deadLetteredAt := None, nextRetryAt := None, canceledAt := None,
                                    cancelReason := None, result := None, error := None, updatedAt := s.now,
                                    history := t.jobs[id].history)
                && Afresh(LoadJob(s, id).jobs[id], t.jobs[id], at, s.now)
  {
    hide BuildReadyAt, LoadJob, Apply, Rescheduled;
    ReadyAtLaw(delaySeconds, runAt, s.now);
    LoadLaw(s, id);
    if id in s.jobs {
      var s1 := LoadJob(s, id);
      var at := BuildReadyAt(delaySeconds, runAt, s.now);
      if at.Some? && Reschedulable(s1.jobs[id]) {
        ApplyOneLaw(s1, id, Reschedule(at.value));
        RescheduledFields(s1.jobs[id], at.value, s.now);
      }
    }
  }

  // ---------- running a claimed job ----------

  /** Why a run of job `id` by worker `w` is refused, in the order of the checks. */
  function Refusal(s: State, w: WorkerId, id: JobId): Option<Error> {
    if w !in s.workers then Some(WorkerNotFound)
    else if s.workers[w].leaseExpiresAt <= s.now then Some(LeaseLapsed)
    else if id !in s.jobs then Some(JobNotFound)
    else if s.jobs[id].status.Canceled? then None
    else if s.workers[w].currentJobId != Some(id) then Some(NotAssigned)
    else if !s.jobs[id].status.Running? then Some(NotRunning)
    else if s.jobs[id].workerId != Some(w) then Some(NotClaimedByWorker)
    else if s.jobs[id].leaseExpiresAt.Some? && s.jobs[id].leaseExpiresAt.value <= s.now then Some(LeaseLapsed)
    else None
  }

  /** A refused run leaves at most the heartbeat of the worker and the promotion of a due job. */
  lemma RunRefusals(s: State, w: WorkerId, id: JobId, outcome: Outcome, elapsed: nat)
    ensures var (t, r) := RunClaimed(s, w, id, outcome, elapsed);
            && (match Refusal(s, w, id) case None => r == Ok(()) case Some(e) => r == Err(e))
            && (r.Err? ==>
                  t == if w !in s.workers || s.workers[w].leaseExpiresAt <= s.now then s else LoadJob(Beat(s, w), id))
  {
    hide LoadJob, Beat, EndRun;
    if w in s.workers {
      BeatLaw(s, w);
      LoadLaw(Beat(s, w), id);
    }
  }

  lemma RunReaches(s: State, w: WorkerId, id: JobId, outcome: Outcome, elapsed: nat)
    requires Refusal(s, w, id).None? && !s.jobs[id].status.Canceled?
    ensures RunClaimed(s, w, id, outcome, elapsed).0 == EndRun(Beat(s, w).(now := s.now + elapsed), w, id, outcome)
  {
    hide LoadJob, Beat, EndRun;
    BeatLaw(s, w);
    LoadLaw(Beat(s, w), id);
    assert LoadJob(Beat(s, w), id).jobs == s.jobs;
  }

  /** The worker that ends a run is idle, without a job, and keeps the lease it renewed when the run began. */
  function Free(v: Worker, began: Time, ended: Time): Worker {
    v.(status := Idle, currentJobId := None, lastHeartbeatAt := began, leaseExpiresAt := began + v.leaseSeconds,
       updatedAt := ended)
  }

  lemma EndLaw(s: State, w: WorkerId, id: JobId, m: Move, elapsed: nat)
    requires w in s.workers && id in s.jobs
    ensures var u := Beat(s, w).(now := s.now + elapsed);
            Release(Apply(u, map[id := m]), w)
            == State(s.jobs[id := Moved(s.jobs[id], m, s.now + elapsed)],
                     s.workers[w := Free(s.workers[w], s.now, s.now + elapsed)], s.now + elapsed)
  {
    hide Moved, Apply, Beat;
    BeatLaw(s, w);
    ApplyOneLaw(Beat(s, w).(now := s.now + elapsed), id, m);
  }

  /** A dispatch that returns completes the job with its result and spends no attempt. */
  lemma RunReturnsLaw(s: State, w: WorkerId, id: JobId, x: JobResult, elapsed: nat)
    requires Refusal(s, w, id).None? && !s.jobs[id].status.Canceled?
    ensures var t := RunClaimed(s, w, id, Returned(x), elapsed).0; var end := s.now + elapsed;
            && id in t.jobs && w in t.workers
            && t == State(s.jobs[id := t.jobs[id]], s.workers[w := Free(s.workers[w], s.now, end)], end)
            && t.jobs[id] == s.jobs[id].(status := Completed, result := Some(x), error := None,
                                         leaseExpiresAt := None, updatedAt := end, history := t.jobs[id].history)
            && Gained(s.jobs[id], t.jobs[id], CompletedEvent, JobCompleted, end)
  {
    hide RunClaimed, Release, Apply, Beat, Finished, Refusal, Gained;
    RunReaches(s, w, id, Returned(x), elapsed);
    RefusalSays(s, w, id);
    EndLaw(s, w, id, Finish(x), elapsed);
    FinishedRecord(s.jobs[id], x, s.now + elapsed);
  }

  lemma RefusalSays(s: State, w: WorkerId, id: JobId)
    requires Refusal(s, w, id).None? && !s.jobs[id].status.Canceled?
    ensures w in s.workers && id in s.jobs && s.jobs[id].status.Running?
  {
  }

  /** A dispatch that raises spends an attempt. With attempts left the job waits for its backoff, doubled for
      every earlier attempt; without, it has failed, or is dead-lettered if it had more than one. */
  lemma RunRaisesLaw(s: State, w: WorkerId, id: JobId, e: JobError, elapsed: nat)
    requires Refusal(s, w, id).None? && !s.jobs[id].status.Canceled?
    ensures var t := RunClaimed(s, w, id, Raised(e), elapsed).0; var end := s.now + elapsed; var j := s.jobs[id];
            var at := end + j.retryBackoffSeconds * Pow2(j.attemptCount);
            && id in t.jobs && w in t.workers
            && t == State(s.jobs[id := t.jobs[id]], s.workers[w := Free(s.workers[w], s.now, end)], end)
            && var k := t.jobs[id];
               if j.attemptCount + 1 < j.maxAttempts then
                 && k == j.(status := if at > end then Scheduled else Queued, attemptCount := j.attemptCount + 1,
                            error := Some(e), lastFailureAt := Some(end), nextRetryAt := Some(at), readyAt := at,
                            workerId := None, claimedAt := None, leaseExpiresAt := None, result := None,
                            lastRequeueReason := Some(RetryScheduled(j.attemptCount + 1)), updatedAt := end,
                            history := k.history)
                 && GainedAny(j, k, if at > end then RetryScheduledEvent else RequeuedEvent, end)
               else
                 var dead := j.maxAttempts > 1;
                 && k == j.(status := if dead then DeadLetter else Failed, attemptCount := j.attemptCount + 1,
                            error := Some(e), lastFailureAt := Some(end),
                            deadLetteredAt := if dead then Some(end) else None, nextRetryAt := None,
                            workerId := None, claimedAt := None, leaseExpiresAt := None, updatedAt := end,
                            history := k.history)
                 && GainedAny(j, k, if dead then DeadLetteredEvent else FailedEvent, end)
  {
    hide RunClaimed, Release, Apply, Beat, FailureRecorded, Refusal, GainedAny, Pow2;
    RunReaches(s, w, id, Raised(e), elapsed);
    RefusalSays(s, w, id);
    EndLaw(s, w, id, Fail(e), elapsed);
    if s.jobs[id].attemptCount + 1 < s.jobs[id].maxAttempts {
      RetriedRecord(s.jobs[id], e, s.now + elapsed);
    } else {
      SpentRecord(s.jobs[id], e, s.now + elapsed);
    }
  }

  /** A run of a canceled job is not refused, and runs nothing: the worker lets go of whatever it holds. */
  lemma RunCanceledLaw(s: State, w: WorkerId, id: JobId, outcome: Outcome, elapsed: nat)
    requires Refusal(s, w, id).None? && s.jobs[id].status.Canceled?
    ensures var t := RunClaimed(s, w, id, outcome, elapsed).0; var v := s.workers[w];
            if v.currentJobId == Some(id) || !v.status.Idle?
            then t == s.(workers := s.workers[w := Free(v, s.now, s.now)])
            else t == s.(workers := s.workers[w := v.(lastHeartbeatAt := s.now, updatedAt := s.now,
                                                      leaseExpiresAt := s.now + v.leaseSeconds)])
  {
    hide LoadJob, Beat;
    BeatLaw(s, w);
    LoadLaw(Beat(s, w), id);
    assert LoadJob(Beat(s, w), id) == Beat(s, w);
  }

  // ---------- reclaiming and claiming ----------

  /** Running on a lease that has run out. */
  predicate Overdue(j: Job, now: Time) {
    j.status.Running? && j.leaseExpiresAt.Some? && j.leaseExpiresAt.value <= now
  }

  /** A worker without its job, and otherwise as it was. */
  function LetGo(v: Worker, now: Time): Worker { v.(status := Idle, currentJobId := None, updatedAt := now) }

  /** Reclaiming jobs that run: each is back in the queue, and the workers that held one of them have let go. */
  lemma ReclaimJobsLaw(s: State, ids: set<JobId>)
    requires forall id :: id in ids && id in s.jobs ==> s.jobs[id].status.Running?
    ensures var t := ReclaimJobs(s, ids);
            && t.now == s.now && t.jobs.Keys == s.jobs.Keys && t.workers.Keys == s.workers.Keys
            && (forall id :: id in s.jobs ==>
                  if id in ids then BackInQueue(s.jobs[id], t.jobs[id], LeaseExpiredFor(s.jobs[id].workerId), s.now)
                  else t.jobs[id] == s.jobs[id])
            && (forall w :: w in s.workers ==>
                  var held := s.workers[w].currentJobId;
                  if held.Some? && held.value in ids && held.value in s.jobs
                     && s.jobs[held.value].workerId == Some(w)
                  then t.workers[w] == LetGo(s.workers[w], s.now) else t.workers[w] == s.workers[w])
  {
    hide Requeued, BackInQueue;
    forall id | id in s.jobs && id in ids
      ensures BackInQueue(s.jobs[id], ReclaimJobs(s, ids).jobs[id], LeaseExpiredFor(s.jobs[id].workerId), s.now)
    {
      RequeuedRecord(s.jobs[id], LeaseExpiredFor(s.jobs[id].workerId), s.now);
    }
  }

  lemma PromoteIdsLaw(s: State, ids: set<JobId>, reason: Option<Reason>)
    ensures var t := PromoteIds(s, ids, reason);
            && t == s.(jobs := t.jobs) && t.jobs.Keys == s.jobs.Keys
            && forall id :: id in s.jobs ==>
                 if id in ids then PromotedIfDue(s.jobs[id], t.jobs[id], s.now) else t.jobs[id] == s.jobs[id]
  {
    hide Promoted, PromotedIfDue;
    forall id | id in s.jobs && id in ids
      ensures PromotedIfDue(s.jobs[id], PromoteIds(s, ids, reason).jobs[id], s.now)
    {
      PromotedRecord(s.jobs[id], reason, s.now);
    }
  }

  lemma PromoteAllLaw(s: State)
    ensures var t := PromoteAll(s);
            && t == s.(jobs := t.jobs) && t.jobs.Keys == s.jobs.Keys
            && forall id :: id in s.jobs ==> PromotedIfDue(s.jobs[id], t.jobs[id], s.now)
  {
    hide PromoteIds;
    PromoteIdsLaw(s, DueJobs(s), Some(ReadyAtElapsed));
  }

  /** Reclaiming: overdue jobs are back in the queue, due ones queued, all others stay; who held an overdue
      job that names it has let go of it, all other workers stay. */
  lemma ReclaimLaw(s: State)
    ensures var t := Reclaim(s);
            && t.now == s.now && t.jobs.Keys == s.jobs.Keys && t.workers.Keys == s.workers.Keys
            && (forall id :: id in s.jobs ==>
                  if Overdue(s.jobs[id], s.now)
                  then BackInQueue(s.jobs[id], t.jobs[id], LeaseExpiredFor(s.jobs[id].workerId), s.now)
                  else PromotedIfDue(s.jobs[id], t.jobs[id], s.now))
            && (forall w :: w in s.workers ==>
                  var held := s.workers[w].currentJobId;
                  if held.Some? && held.value in s.jobs && Overdue(s.jobs[held.value], s.now)
                     && s.jobs[held.value].workerId == Some(w)
                  then t.workers[w] == LetGo(s.workers[w], s.now) else t.workers[w] == s.workers[w])
  {
    hide PromoteAll, ReclaimJobs, BackInQueue, GainedAny;
    var p := PromoteAll(s);
    PromoteAllLaw(s);
    ReclaimJobsLaw(p, ExpiredJobs(p));
    forall id | id in s.jobs ensures id in ExpiredJobs(p) <==> Overdue(s.jobs[id], s.now) {
      assert PromotedIfDue(s.jobs[id], p.jobs[id], s.now);
    }
  }

  /** There is work for a worker: queued, scheduled for a time that has come, or overdue. */
  predicate Waiting(j: Job, now: Time) {
    j.status.Queued? || (j.status.Scheduled? && j.readyAt <= now) || Overdue(j, now)
  }

  /** Higher priority first, then the earlier ready time, then the earlier creation; equals in any order. */
  predicate NotAfter(x: Job, y: Job) {
    && x.priority >= y.priority
    && (x.priority == y.priority ==> x.readyAt <= y.readyAt)
    && (x.priority == y.priority && x.readyAt == y.readyAt ==> x.createdAt <= y.createdAt)
  }

  /** Without a job, once the overdue ones are reclaimed. */
  predicate FreeForWork(s: State, w: WorkerId) {
    && w in s.workers
    && match s.workers[w].currentJobId
       case None => true
       case Some(id) => id in s.jobs && Overdue(s.jobs[id], s.now) && s.jobs[id].workerId == Some(w)
  }

  lemma FreeAfterReclaim(s: State, w: WorkerId)
    requires w in s.workers
    ensures w in Reclaim(s).workers
    ensures FreeForWork(s, w) <==> Reclaim(s).workers[w].currentJobId.None?
    ensures !FreeForWork(s, w) ==> Reclaim(s).workers[w] == s.workers[w]
  {
    hide Reclaim, BackInQueue, PromotedIfDue;
    ReclaimLaw(s);
  }

  /** Whoever claims, the overdue jobs are reclaimed first. An unknown worker is then refused, and so is one that
      still holds a job: for its lapsed lease, or else as assigned already, after a heartbeat. */
  lemma ClaimRefusals(s: State, w: WorkerId, s': State, r: Result<Option<JobId>>)
    requires ClaimStep(s, w, s', r) && !FreeForWork(s, w)
    ensures if w !in s.workers then s' == Reclaim(s) && r == Err(WorkerNotFound)
            else if s.workers[w].leaseExpiresAt <= s.now then s' == Reclaim(s) && r == Err(LeaseLapsed)
            else w in Reclaim(s).workers && s' == Beat(Reclaim(s), w) && r == Err(AlreadyAssigned)
  {
    hide Reclaim, Beat, PromoteAll, Take, BackInQueue, PromotedIfDue;
    ReclaimLaw(s);
    if w in s.workers {
      FreeAfterReclaim(s, w);
      BeatLaw(Reclaim(s), w);
    }
  }

  /** A free worker gets a job exactly if there is work, and then the first job there is work on, after the overdue
      ones are reclaimed and the due ones queued. That job runs on a lease of the worker's length, the worker is
      busy with it on a new lease, and nothing else changes. */
  lemma ClaimLaw(s: State, w: WorkerId, s': State, r: Result<Option<JobId>>)
    requires ClaimStep(s, w, s', r) && FreeForWork(s, w)
    ensures w in Reclaim(s).workers && r.Ok?
    ensures r.value.None? <==> forall id :: id in s.jobs ==> !Waiting(s.jobs[id], s.now)
    ensures r.value.None? ==> s' == Beat(Reclaim(s), w)
    ensures r.value.Some? ==>
              var id, t, v := r.value.value, Reclaim(s), Reclaim(s).workers[w];
              && id in s.jobs && Waiting(s.jobs[id], s.now) && id in t.jobs && id in s'.jobs
              && (forall other :: other in s.jobs && Waiting(s.jobs[other], s.now) ==>
                    NotAfter(s.jobs[id], s.jobs[other]))
              && s' == State(t.jobs[id := s'.jobs[id]],
                             t.workers[w := v.(status := Busy, currentJobId := Some(id), lastHeartbeatAt := s.now,
                                               updatedAt := s.now, leaseExpiresAt := s.now + v.leaseSeconds)], s.now)
              && s'.jobs[id] == t.jobs[id].(status := Running, workerId := Some(w), claimedAt := Some(s.now),
                                            leaseExpiresAt := Some(s.now + v.leaseSeconds),
                                            updatedAt := s.now, history := s'.jobs[id].history)
              && Gained(t.jobs[id], s'.jobs[id], ClaimedEvent, ClaimedByWorker(w), s.now)
  {
    hide Reclaim, Beat, PromoteAll, Take, Gained, Waiting, Overdue;
    ReclaimNow(s);
    var t := Reclaim(s);
    QueueAfterReclaim(s);
    FreeAfterReclaim(s, w);
    BeatLaw(t, w);
    NothingDue(s, Beat(t, w));
    if r.Ok? && r.value.Some? {
      var id := r.value.value;
      TakeLaw(Beat(t, w), w, id);
      assert id in QueuedJobs(t);
      forall other | other in s.jobs && Waiting(s.jobs[other], s.now) ensures NotAfter(s.jobs[id], s.jobs[other]) {
        assert other in QueuedJobs(t);
        RankStays(s, id);
        RankStays(s, other);
      }
    }
  }

  lemma ReclaimNow(s: State)
    ensures Reclaim(s).now == s.now
  {
  }

  lemma RankStays(s: State, id: JobId)
    requires id in s.jobs
    ensures id in Reclaim(s).jobs
    ensures var j, k := s.jobs[id], Reclaim(s).jobs[id];
            k.priority == j.priority && k.readyAt == j.readyAt && k.createdAt == j.createdAt
            && (k.status.Queued? <==> Waiting(j, s.now)) && !(k.status.Scheduled? && k.readyAt <= s.now)
  {
    hide Reclaim, GainedAny, Gained;
    ReclaimLaw(s);
  }

  lemma QueueAfterReclaim(s: State)
    ensures QueuedJobs(Reclaim(s)) == set id | id in s.jobs && Waiting(s.jobs[id], s.now)
    ensures QueuedJobs(Reclaim(s)) == {} <==> forall id :: id in s.jobs ==> !Waiting(s.jobs[id], s.now)
    ensures Reclaim(s).jobs.Keys == s.jobs.Keys
  {
    hide Reclaim, Waiting, BackInQueue, PromotedIfDue;
    ReclaimLaw(s);
    forall id | id in s.jobs ensures id in QueuedJobs(Reclaim(s)) <==> Waiting(s.jobs[id], s.now) {
      RankStays(s, id);
    }
    assert forall id :: id in s.jobs && Waiting(s.jobs[id], s.now) ==> id in QueuedJobs(Reclaim(s));
  }

  lemma NothingDue(s: State, t: State)
    requires t.jobs == Reclaim(s).jobs && t.now == s.now
    ensures PromoteAll(t) == t
  {
    hide Reclaim, PromoteAll, GainedAny;
    ReclaimLaw(s);
    PromoteAllLaw(t);
    forall id | id in t.jobs ensures PromoteAll(t).jobs[id] == t.jobs[id] { RankStays(s, id); }
    assert PromoteAll(t).jobs == t.jobs;
  }

  lemma TakeLaw(s: State, w: WorkerId, id: JobId)
    requires w in s.workers && id in s.jobs && s.jobs[id].status.Queued?
    ensures var t := Take(s, w, id); var v := s.workers[w];
            && id in t.jobs
            && t == State(s.jobs[id := t.jobs[id]],
                          s.workers[w := v.(status := Busy, currentJobId := Some(id), lastHeartbeatAt := s.now,
                                            updatedAt := s.now, leaseExpiresAt := s.now + v.leaseSeconds)], s.now)
            && t.jobs[id] == s.jobs[id].(status := Running, workerId := Some(w), claimedAt := Some(s.now),
                                         leaseExpiresAt := Some(s.now + v.leaseSeconds), updatedAt := s.now,
                                         history := t.jobs[id].history)
            && Gained(s.jobs[id], t.jobs[id], ClaimedEvent, ClaimedByWorker(w), s.now)
  {
    hide Apply, Claimed, Gained;
    ApplyOneLaw(s, id, Claim(w, s.workers[w].leaseSeconds));
    ClaimedRecord(s.jobs[id], w, s.workers[w].leaseSeconds, s.now);
  }

  // ---------- heartbeats and registration ----------

  lemma HeartbeatLaw(s: State, w: WorkerId)
    ensures var (t, r) := Heartbeat(s, w);
            if w !in s.workers then t == s && r == Err(WorkerNotFound)
            else
              var v := s.workers[w];
              if v.leaseExpiresAt <= s.now && v.currentJobId.Some? then t == s && r == Err(LeaseLapsed)
              else
                && r == Ok(())
                && t == s.(workers := s.workers[w := v.(lastHeartbeatAt := s.now, updatedAt := s.now,
                                                        leaseExpiresAt := s.now + v.leaseSeconds)])
  {
  }

  /** A new worker is idle, on a lease of the length it asks for, which has to be positive. */
  lemma RegisterLaw(s: State, newId: WorkerId, name: string, leaseSeconds: int)
    ensures Register(s, newId, name, leaseSeconds)
            == if leaseSeconds <= 0 then s
               else s.(workers := s.workers[newId := Worker(name, Idle, leaseSeconds, s.now, s.now + leaseSeconds,
                                                            None, s.now, s.now)])
  {
  }

  // ---------- canceling ----------

  /** A job that has not ended is canceled; it keeps the name of the worker it ran on, and that worker, if it
      holds the job, has let go of it. */
  lemma CancelLaw(s: State, id: JobId, reason: string)
    ensures var (t, r) := CancelExecution(s, id, reason);
            if id !in s.jobs then t == s && r == Err(JobNotFound)
            else
              var j := s.jobs[id];
              if !(j.status.Queued? || j.status.Scheduled? || j.status.Running?) then t == s && r == Err(WrongStatus)
              else
                && r == Ok(()) && id in t.jobs && t.now == s.now && t.jobs == s.jobs[id := t.jobs[id]]
                && t.jobs[id] == j.(status := Canceled, canceledAt := Some(s.now), cancelReason := Some(Text(reason)),
                                    workerId := if j.status.Running? then j.workerId else None, claimedAt := None,
                                    leaseExpiresAt := None, nextRetryAt := None, result := None, error := None,
                                    updatedAt := s.now, history := t.jobs[id].history)
                && GainedAny(LoadJob(s, id).jobs[id], t.jobs[id], CanceledEvent, s.now)
                && (match j.workerId
                    case Some(w) =>
                      if w in s.workers && s.workers[w].currentJobId == Some(id)
                      then t.workers == s.workers[w := LetGo(s.workers[w], s.now)] else t.workers == s.workers
                    case None => t.workers == s.workers)
  {
    hide LoadJob, Apply, CanceledRecord, GainedAny;
    LoadLaw(s, id);
    if id in s.jobs && Cancelable(LoadJob(s, id).jobs[id]) {
      ApplyOneLaw(LoadJob(s, id), id, Cancel(reason));
      CanceledFields(LoadJob(s, id).jobs[id], Text(reason), s.now);
    }
  }

  // ---------- resetting a worker ----------

  /** A worker as good as new. */
  function Fresh(v: Worker, now: Time): Worker {
    v.(status := Idle, currentJobId := None, lastHeartbeatAt := now, leaseExpiresAt := now + v.leaseSeconds,
       updatedAt := now)
  }

  /** The worker holds a job that runs and names it. */
  predicate RunsItsJob(s: State, w: WorkerId) {
    && w in s.workers && s.workers[w].currentJobId.Some?
    && var id := s.workers[w].currentJobId.value;
       id in s.jobs && s.jobs[id].status.Running? && s.jobs[id].workerId == Some(w)
  }

  /** A reset needs a reason and a known worker. One that runs its job is reset if the job is to be requeued, or
      by force, which leaves the job running; one that holds another job is reset if it is idle, or by force; one
      without a known job always. */
  lemma ResetLaw(s: State, w: WorkerId, reason: string, force: bool, requeue: bool)
    ensures var (t, r) := ResetWorker(s, w, reason, force, requeue);
            if Text.Blank(reason) then t == s && r == Err(InvalidArgument)
            else if w !in s.workers then t == s && r == Err(WorkerNotFound)
            else
              var v := s.workers[w];
              var known := v.currentJobId.Some? && v.currentJobId.value in s.jobs;
              if RunsItsJob(s, w) && requeue then
                var id := v.currentJobId.value;
                && r == Ok(()) && id in t.jobs
                && t == State(s.jobs[id := t.jobs[id]], s.workers[w := Fresh(v, s.now)], s.now)
                && BackInQueue(s.jobs[id], t.jobs[id], WorkerReset(Text.Strip(reason)), s.now)
              else if RunsItsJob(s, w) then
                if force then r == Ok(()) && t == s.(workers := s.workers[w := Fresh(v, s.now)])
                else t == s && r == Err(StillHolding)
              else
                var loaded := if known then LoadJob(s, v.currentJobId.value) else s;
                if known && !force && !v.status.Idle? then t == loaded && r == Err(NotIdle)
                else r == Ok(()) && t == loaded.(workers := s.workers[w := Fresh(v, s.now)])
  {
    hide LoadJob, Apply, Requeued, BackInQueue, GainedAny;
    if w in s.workers && s.workers[w].currentJobId.Some? && s.workers[w].currentJobId.value in s.jobs {
      var id := s.workers[w].currentJobId.value;
      LoadLaw(s, id);
      if RunsItsJob(s, w) {
        assert LoadJob(s, id).jobs == s.jobs;
        ApplyOneLaw(s, id, Requeue(WorkerReset(Text.Strip(reason))));
        RequeuedRecord(s.jobs[id], WorkerReset(Text.Strip(reason)), s.now);
      }
    }
  }
}
