/** What a claim returns: the head of the ready queue, nothing only when there is no work, and an
    error only to a worker that is busy. */
module LeaseScheduling {
  import opened Common
  import opened QueueJobs
  import opened JobAudit
  import opened JobInvariants
  import opened LeaseProtocol
  import opened LeaseSafety

  /** Work there is for an idle worker: queued, due, or running on a lease that has run out. */
  function Claimable(s: State): set<JobId> {
    set id | id in s.jobs && (s.jobs[id].status.Queued? || Due(s.jobs[id], s.now) || LeaseExpired(s.jobs[id], s.now))
  }

  predicate SameRank(j: Job, k: Job) {
    j.priority == k.priority && j.readyAt == k.readyAt && j.createdAt == k.createdAt
  }

  lemma PromotingAndReclaiming(j: Job, reason: Reason, now: Time)
    ensures var p := Promoted(j, Some(ReadyAtElapsed), now);
            && SameRank(j, p) && (LeaseExpired(j, now) <==> LeaseExpired(p, now))
            && (p.status.Queued? <==> j.status.Queued? || Due(j, now)) && !Due(p, now)
            && SameRank(j, Requeued(p, reason, now)) && Requeued(p, reason, now).status.Queued?
  {
  }

  lemma PromotedByAll(s: State)
    ensures var p := PromoteAll(s);
            p.now == s.now && p.jobs.Keys == s.jobs.Keys
            && forall id :: id in s.jobs ==> p.jobs[id] == Promoted(s.jobs[id], Some(ReadyAtElapsed), s.now)
  {
    hide ChangedFields, TransitionEntry;
  }

  lemma RequeuedByReclaim(s: State)
    ensures var t := ReclaimJobs(s, ExpiredJobs(s));
            t.now == s.now && t.jobs.Keys == s.jobs.Keys
            && forall id :: id in s.jobs ==>
                 t.jobs[id] == (if LeaseExpired(s.jobs[id], s.now)
                                then Requeued(s.jobs[id], LeaseExpiredFor(s.jobs[id].workerId), s.now)
                                else s.jobs[id])
  {
    hide Requeued;
  }

  /** Reclaiming queues exactly the claimable jobs and keeps their place in the order. */
  lemma ReclaimQueuesClaimable(s: State)
    ensures QueuedJobs(Reclaim(s)) == Claimable(s) && Reclaim(s).jobs.Keys == s.jobs.Keys
    ensures forall id :: id in s.jobs ==> SameRank(Reclaim(s).jobs[id], s.jobs[id])
    ensures DueJobs(Reclaim(s)) == {} && ExpiredJobs(Reclaim(s)) == {}
  {
    hide Promoted, Requeued, PromoteAll, ReclaimJobs;
    var t, p := Reclaim(s), PromoteAll(s);
    PromotedByAll(s);
    RequeuedByReclaim(p);
    forall id | id in s.jobs
      ensures SameRank(t.jobs[id], s.jobs[id])
      ensures id in QueuedJobs(t) <==> id in Claimable(s)
      ensures !Due(t.jobs[id], t.now) && !LeaseExpired(t.jobs[id], t.now)
    {
      PromotingAndReclaiming(s.jobs[id], LeaseExpiredFor(p.jobs[id].workerId), s.now);
    }
  }

  lemma BeatLeavesJobs(s: State, w: WorkerId)
    requires w in s.workers
    ensures Beat(s, w).jobs == s.jobs && Beat(s, w).now == s.now
  {
  }

  lemma NothingDueNothingPromoted(s: State)
    requires DueJobs(s) == {}
    ensures PromoteAll(s) == s
  {
    var moves: map<JobId, Move> := map id | id in DueJobs(s) :: Promote(Some(ReadyAtElapsed));
    assert moves == map[];
    assert Apply(s, moves).jobs == s.jobs;
  }

  predicate BusyAfterReclaim(s: State, w: WorkerId) {
    w in Reclaim(s).workers && Reclaim(s).workers[w].currentJobId.Some?
  }

  lemma ReclaimKeepsWorkerIds(s: State)
    ensures Reclaim(s).workers.Keys == s.workers.Keys && Reclaim(s).now == s.now
  {
  }

  lemma TakeAssigns(s: State, w: WorkerId, id: JobId)
    requires w in s.workers && id in s.jobs
    ensures var t := Take(s, w, id);
            && OwnsRunning(t, w, id) && t.workers[w].currentJobId == Some(id) && t.now == s.now
            && t.jobs[id].claimedAt == Some(s.now)
  {
  }

  /** From any state: a free registered worker gets the first claimable job, or nothing exactly
      when there is none; nobody else gets a job. */
  lemma ClaimSelectsFirst(s: State, w: WorkerId, s': State, r: Result<Option<JobId>>)
    requires ClaimStep(s, w, s', r)
    ensures r.Ok? <==> w in s.workers && !BusyAfterReclaim(s, w)
    ensures r == Ok(None) ==> Claimable(s) == {}
    ensures r.Ok? && r.value.Some? ==>
              && r.value.value in Claimable(s)
              && (forall other :: other in Claimable(s) ==> ServedBefore(s.jobs[r.value.value], s.jobs[other]))
              && OwnsRunning(s', w, r.value.value) && s'.workers[w].currentJobId == r.value
  {
    hide Moved, Reclaim;
    ReclaimQueuesClaimable(s);
    var s1 := Reclaim(s);
    assert s1.workers.Keys == s.workers.Keys by { ReclaimKeepsWorkerIds(s); }
    if w in s1.workers {
      BeatLeavesJobs(s1, w);
      NothingDueNothingPromoted(Beat(s1, w));
      if r.Ok? && r.value.Some? {
        var id := r.value.value;
        TakeAssigns(Beat(s1, w), w, id);
        forall other | other in Claimable(s) ensures ServedBefore(s.jobs[id], s.jobs[other]) {
          assert SameRank(s1.jobs[id], s.jobs[id]) && SameRank(s1.jobs[other], s.jobs[other]);
        }
      }
    }
  }

  /** In a reachable state the only way a claim can fail is that the worker is unknown or holds a job
      whose lease still runs; it is never turned away for a lapsed lease. */
  lemma ClaimGuardsNeverMisfire(s: State, w: WorkerId, s': State, r: Result<Option<JobId>>)
    requires Inv(s) && ClaimStep(s, w, s', r)
    ensures r.Err? ==> r.error == WorkerNotFound || r.error == AlreadyAssigned
    ensures r == Err(WorkerNotFound) <==> w !in s.workers
    ensures r == Err(AlreadyAssigned) <==>
              w in s.workers && s.workers[w].currentJobId.Some?
              && !LeaseExpired(s.jobs[s.workers[w].currentJobId.value], s.now)
  {
    hide JobOk, Moved, Reclaim, KeysUnique, Claimable, SameRank, PromoteAll, Take;
    ReclaimKeepsInv(s);
    ReclaimQueuesClaimable(s);
    ReclaimKeepsWorkerIds(s);
    var s1 := Reclaim(s);
    if w in s.workers {
      HoldersAfterReclaim(s, w);
      assert LeaseFits(s1, w);
      if s1.workers[w].currentJobId.Some? {
        var id := s1.workers[w].currentJobId.value;
        assert OwnsRunning(s1, w, id);
        RunningHasLease(s1, id);
        assert id !in ExpiredJobs(s1);
      }
    }
  }

  lemma RunningHasLease(s: State, id: JobId)
    requires JobsOk(s) && id in s.jobs && s.jobs[id].status.Running?
    ensures s.jobs[id].leaseExpiresAt.Some?
  {
    assert JobOk(s.jobs[id], s.now);
  }

  /** Reclaiming frees exactly the holders of expired jobs. */
  lemma HoldersAfterReclaim(s: State, w: WorkerId)
    requires Owned(s) && w in s.workers
    ensures var held := s.workers[w].currentJobId;
            w in Reclaim(s).workers && Reclaim(s).workers[w].currentJobId ==
              if held.Some? && LeaseExpired(s.jobs[held.value], s.now) then None else held
  {
    var p := PromoteAll(s);
    if s.workers[w].currentJobId.Some? {
      var id := s.workers[w].currentJobId.value;
      assert OwnsRunning(s, w, id);
      assert p.jobs[id] == s.jobs[id];
    }
  }

  lemma ClaimRecordsTime(s: State, w: WorkerId, s': State, id: JobId)
    requires ClaimStep(s, w, s', Ok(Some(id)))
    ensures id in s'.jobs && s'.jobs[id].claimedAt == Some(s.now) && s'.now == s.now
  {
    hide Moved, Reclaim;
    ReclaimKeepsWorkerIds(s);
    TakeAssigns(PromoteAll(Beat(Reclaim(s), w)), w, id);
  }

  /** No attempt starts early: a claimed job has waited out the doubled delays of all its failures,
      and has attempts left. */
  lemma ClaimedJobWaited(s: State, w: WorkerId, s': State, id: JobId)
    requires Inv(s) && ClaimStep(s, w, s', Ok(Some(id)))
    ensures id in s'.jobs && Faithful(s'.jobs[id])
    ensures var j := s'.jobs[id];
            && j.claimedAt == Some(s.now) && j.attemptCount < j.maxAttempts
            && s.now >= j.readyAt >= Origin(j.history) + j.retryBackoffSeconds * (Pow2(j.attemptCount) - 1)
  {
    hide Inv, ClaimStep;
    ClaimKeepsInv(s, w, s', Ok(Some(id)));
    ClaimSelectsFirst(s, w, s', Ok(Some(id)));
    ClaimRecordsTime(s, w, s', id);
    RunnableJobFacts(s', id);
  }

  lemma RunnableJobFacts(s: State, id: JobId)
    requires Inv(s) && id in s.jobs && s.jobs[id].status.Running?
    ensures var j := s.jobs[id];
            && Faithful(j) && j.attemptCount < j.maxAttempts
            && s.now >= j.readyAt >= Origin(j.history) + j.retryBackoffSeconds * (Pow2(j.attemptCount) - 1)
  {
    hide KeysUnique, WorkersOk, Faithful, Pow2, Origin;
    assert JobOk(s.jobs[id], s.now);
  }
}
