/** The converse of ownership, "every running job has a holder", and exactly which steps break it. */
module LeaseHolding {
  import opened Common
  import opened QueueJobs
  import opened JobInvariants
  import opened LeaseProtocol
  import opened LeaseSafety
  import opened LeaseScheduling
  import Text

  predicate HeldBySome(s: State, id: JobId)
    requires id in s.jobs
  {
    s.jobs[id].workerId.Some? && var w := s.jobs[id].workerId.value;
    w in s.workers && s.workers[w].currentJobId == Some(id)
  }

  /** Every running job is held by the worker it names. */
  predicate Held(s: State) { forall id :: id in s.jobs && s.jobs[id].status.Running? ==> HeldBySome(s, id) }

  /** The calls that leave a running job without a holder: a forced reset of a busy worker that does
      not requeue, and running a canceled job on a worker that is busy with another one. */
  predicate Strands(s: State, op: Op) {
    match op
    case WorkerResetOf(w, reason, force, requeue) =>
      !Text.Blank(reason) && force && !requeue && w in s.workers && s.workers[w].currentJobId.Some?
    case RunJob(w, id, _, _) =>
      && w in s.workers && s.workers[w].currentJobId.Some? && !Lapsed(s.workers[w], s.now)
      && id in s.jobs && s.jobs[id].status.Canceled?
    case _ => false
  }

  /** Updates that neither start nor stop a run, and workers that keep their jobs. */
  predicate Quiet(s: State, t: State) {
    && (forall id :: id in t.jobs && t.jobs[id].status.Running? ==> id in s.jobs && t.jobs[id] == s.jobs[id])
    && (forall w :: w in s.workers ==> w in t.workers && t.workers[w].currentJobId == s.workers[w].currentJobId)
  }

  lemma QuietKeepsHeld(s: State, t: State)
    requires Held(s) && Quiet(s, t)
    ensures Held(t)
  {
    forall id | id in t.jobs && t.jobs[id].status.Running? ensures HeldBySome(t, id) {
      assert HeldBySome(s, id);
    }
  }

  lemma GentleIsQuiet(s: State, moves: map<JobId, Move>)
    requires forall id :: id in moves && id in s.jobs ==> Gentle(s.jobs[id], moves[id])
    ensures Quiet(s, Apply(s, moves))
  {
    hide Moved;
    forall id | id in s.jobs && Apply(s, moves).jobs[id].status.Running?
      ensures Apply(s, moves).jobs[id] == s.jobs[id]
    {
      if id in moves {
        GentleSparesRunning(s.jobs[id], moves[id], s.now);
      }
    }
  }

  lemma PromoteIsQuiet(s: State, ids: set<JobId>, reason: Option<Reason>)
    ensures Quiet(s, PromoteIds(s, ids, reason))
  {
    GentleIsQuiet(s, map id | id in ids :: Promote(reason));
  }

  lemma ReclaimJobsKeepsHeld(s: State, ids: set<JobId>)
    requires Held(s) && ids <= ExpiredJobs(s)
    ensures Held(ReclaimJobs(s, ids))
  {
    var t := ReclaimJobs(s, ids);
    forall id | id in t.jobs && t.jobs[id].status.Running? ensures HeldBySome(t, id) {
      assert id !in ids && t.jobs[id] == s.jobs[id] && HeldBySome(s, id);
    }
  }

  lemma ReclaimKeepsHeld(s: State)
    requires Held(s)
    ensures Held(Reclaim(s))
  {
    PromoteIsQuiet(s, DueJobs(s), Some(ReadyAtElapsed));
    QuietKeepsHeld(s, PromoteAll(s));
    ReclaimJobsKeepsHeld(PromoteAll(s), ExpiredJobs(PromoteAll(s)));
  }

  /** A job that leaves running takes its holder with it. */
  lemma LeavingKeepsHeld(s: State, id: JobId, t: State)
    requires Held(s) && LetGo(s, id, t) && t.jobs.Keys == s.jobs.Keys
    requires forall k :: k in s.jobs && k != id ==> t.jobs[k] == s.jobs[k]
    requires id in s.jobs && !t.jobs[id].status.Running?
    ensures Held(t)
  {
    forall k | k in t.jobs && t.jobs[k].status.Running? ensures HeldBySome(t, k) {
      assert HeldBySome(s, k);
    }
  }

  lemma LeavesRunning(j: Job, m: Move, now: Time)
    requires Enabled(j, m) && (m.Requeue? || m.Finish? || m.Fail? || m.Cancel?)
    ensures !Moved(j, m, now).status.Running?
  {
  }

  lemma ClaimKeepsHeld(s: State, w: WorkerId, s': State, r: Result<Option<JobId>>)
    requires Held(s) && ClaimStep(s, w, s', r)
    ensures Held(s')
  {
    hide Reclaim, Moved;
    ReclaimKeepsHeld(s);
    var s1 := Reclaim(s);
    if w in s1.workers {
      var s2 := Beat(s1, w);
      QuietKeepsHeld(s1, s2);
      PromoteIsQuiet(s2, DueJobs(s2), Some(ReadyAtElapsed));
      QuietKeepsHeld(s2, PromoteAll(s2));
      if r.Ok? && r.value.Some? {
        TakeKeepsHeld(PromoteAll(s2), w, r.value.value);
      }
    }
  }

  lemma TakeKeepsHeld(s: State, w: WorkerId, id: JobId)
    requires Held(s) && w in s.workers && s.workers[w].currentJobId.None? && id in s.jobs
    ensures Held(Take(s, w, id))
  {
    hide Moved;
    var t := Take(s, w, id);
    TakeAssigns(s, w, id);
    forall k | k in t.jobs && t.jobs[k].status.Running? ensures HeldBySome(t, k) {
      assert k != id ==> HeldBySome(s, k);
    }
  }

  lemma RunHeldUnlessStranding(s: State, w: WorkerId, id: JobId, outcome: Outcome, elapsed: nat)
    requires Owned(s) && IdleIffFree(s) && Held(s)
    ensures Held(RunClaimed(s, w, id, outcome, elapsed).0) <==> !Strands(s, RunJob(w, id, outcome, elapsed))
  {
    hide Held, Quiet, Owned, LoadJob, Beat, EndRun, LeaseExpired;
    var t := RunClaimed(s, w, id, outcome, elapsed).0;
    if w in s.workers && !Lapsed(s.workers[w], s.now) {
      var s1 := Beat(s, w);
      BeatKeepsAssignment(s, w);
      QuietKeepsHeld(s, s1);
      if id in s.jobs {
        var s2 := LoadJob(s1, id);
        LoadingIsQuiet(s1, id);
        QuietKeepsHeld(s1, s2);
        if s2.jobs[id].status.Canceled? {
          if s2.workers[w].currentJobId.Some? {
            DroppedJobIsUnheld(s2, w, t);
          }
        } else if RunClaimed(s, w, id, outcome, elapsed).1.Ok? {
          LaterStillHeld(s2, s2.now + elapsed);
          EndRunKeepsHeld(s2.(now := s2.now + elapsed), w, id, outcome);
        }
      }
    }
  }

  lemma LaterStillHeld(s: State, later: Time)
    requires Owned(s) && Held(s)
    ensures Owned(s.(now := later)) && Held(s.(now := later))
  {
  }

  lemma LoadingIsQuiet(s: State, id: JobId)
    requires id in s.jobs
    ensures Quiet(s, LoadJob(s, id)) && (Owned(s) ==> Owned(LoadJob(s, id)))
    ensures LoadJob(s, id).workers == s.workers && LoadJob(s, id).jobs.Keys == s.jobs.Keys
    ensures LoadJob(s, id).jobs[id].status.Canceled? <==> s.jobs[id].status.Canceled?
  {
    PromoteIsQuiet(s, {id}, None);
    LoadingSparesCanceled(s, id);
  }

  lemma BeatKeepsAssignment(s: State, w: WorkerId)
    requires w in s.workers
    ensures Quiet(s, Beat(s, w)) && Beat(s, w).workers.Keys == s.workers.Keys
    ensures Beat(s, w).jobs == s.jobs && Beat(s, w).workers[w].currentJobId == s.workers[w].currentJobId
    ensures Beat(s, w).workers[w].status == s.workers[w].status
    ensures Owned(s) ==> Owned(Beat(s, w))
  {
  }

  lemma LoadingSparesCanceled(s: State, id: JobId)
    requires id in s.jobs
    ensures LoadJob(s, id).jobs[id].status.Canceled? <==> s.jobs[id].status.Canceled?
    ensures Owned(s) ==> Owned(LoadJob(s, id))
    ensures LoadJob(s, id).workers == s.workers && LoadJob(s, id).jobs.Keys == s.jobs.Keys
    ensures LoadJob(s, id).now == s.now
  {
    forall w | Owned(s) && w in s.workers && s.workers[w].currentJobId.Some?
      ensures OwnsRunning(LoadJob(s, id), w, s.workers[w].currentJobId.value)
    {
      assert OwnsRunning(s, w, s.workers[w].currentJobId.value);
    }
  }

  /** Freeing a busy worker without touching its job strands that job. */
  lemma DroppedJobIsUnheld(s: State, w: WorkerId, t: State)
    requires Owned(s) && w in s.workers && s.workers[w].currentJobId.Some?
    requires t.jobs == s.jobs && w in t.workers && t.workers[w].currentJobId.None?
    ensures !Held(t)
  {
    var id := s.workers[w].currentJobId.value;
    assert OwnsRunning(s, w, id);
    assert !HeldBySome(t, id);
  }

  lemma EndRunKeepsHeld(s: State, w: WorkerId, id: JobId, outcome: Outcome)
    requires Owned(s) && Held(s) && w in s.workers && s.workers[w].currentJobId == Some(id)
    ensures Held(EndRun(s, w, id, outcome))
  {
    hide Moved;
    HolderIsOwner(s, w, id);
    var m := match outcome case Returned(r) => Finish(r) case Raised(e) => Fail(e);
    LeavesRunning(s.jobs[id], m, s.now);
    LeavingKeepsHeld(s, id, EndRun(s, w, id, outcome));
  }

  lemma CancelKeepsHeld(s: State, id: JobId, reason: string)
    requires Owned(s) && Held(s)
    ensures Held(CancelExecution(s, id, reason).0)
  {
    hide Moved;
    if id in s.jobs {
      PromoteIsQuiet(s, {id}, None);
      var s1 := LoadJob(s, id);
      QuietKeepsHeld(s, s1);
      LoadingSparesCanceled(s, id);
      if Cancelable(s1.jobs[id]) {
        var t := CancelExecution(s, id, reason).0;
        forall v | v in s1.workers && s1.workers[v].currentJobId == Some(id)
          ensures t.workers[v] == Freed(s1.workers[v], s1.now)
        {
          HolderIsOwner(s1, v, id);
        }
        LeavesRunning(s1.jobs[id], Cancel(reason), s1.now);
        LeavingKeepsHeld(s1, id, t);
      }
    }
  }

  lemma RescheduleKeepsHeld(s: State, id: JobId, delay: int, runAt: Option<Time>)
    requires Held(s)
    ensures Held(RescheduleJob(s, id, delay, runAt).0)
  {
    hide Moved;
    if id in s.jobs {
      PromoteIsQuiet(s, {id}, None);
      var s1 := LoadJob(s, id);
      QuietKeepsHeld(s, s1);
      var readyAt := BuildReadyAt(delay, runAt, s.now);
      if Reschedulable(s1.jobs[id]) && readyAt.Some? {
        GentleIsQuiet(s1, map[id := Reschedule(readyAt.value)]);
        QuietKeepsHeld(s1, Apply(s1, map[id := Reschedule(readyAt.value)]));
      }
    }
  }

  lemma ResetHeldUnlessStranding(s: State, w: WorkerId, reason: string, force: bool, requeue: bool)
    requires Owned(s) && Held(s)
    ensures Held(ResetWorker(s, w, reason, force, requeue).0) <==> !Strands(s, WorkerResetOf(w, reason, force, requeue))
  {
    hide Moved, Quiet, Held, Promoted;
    var t := ResetWorker(s, w, reason, force, requeue).0;
    if !Text.Blank(reason) && w in s.workers {
      if s.workers[w].currentJobId.None? {
        QuietKeepsHeld(s, t);
      } else {
        var id := s.workers[w].currentJobId.value;
        PromoteIsQuiet(s, {id}, None);
        var s1 := LoadJob(s, id);
        QuietKeepsHeld(s, s1);
        LoadingSparesCanceled(s, id);
        assert OwnsRunning(s1, w, id);
        if requeue {
          HolderIsOwner(s1, w, id);
          LeavesRunning(s1.jobs[id], Requeue(WorkerReset(Text.Strip(reason))), s1.now);
          LeavingKeepsHeld(s1, id, t);
        } else if force {
          DroppedJobIsUnheld(s1, w, t);
        }
      }
    }
  }

  lemma RecoverKeepsHeld(s: State, workflow: WorkflowId, actions: Recovery, limit: Option<int>,
                         ids: seq<JobId>, s': State)
    requires Held(s) && RecoverStep(s, workflow, actions, limit, ids, s')
    ensures Held(s')
  {
    hide Held, Moved;
    var expired := RelatedJobs(s, workflow) * ExpiredJobs(s);
    ReclaimJobsKeepsHeld(s, expired);
    var s1 := if actions.reclaimExpired then ReclaimJobs(s, expired) else s;
    var moves := map id | id in Elements(ids) :: Reschedule(s.now);
    forall id | id in moves && id in s1.jobs ensures Gentle(s1.jobs[id], moves[id]) {
      assert id in Recoverable(s, workflow, actions) && s1.jobs[id] == s.jobs[id];
    }
    GentleIsQuiet(s1, moves);
    QuietKeepsHeld(s1, s');
  }

  lemma RepairKeepsHeld(s: State, limit: Option<int>, ids: seq<WorkerId>, s': State)
    requires Owned(s) && IdleIffFree(s) && Held(s) && RepairOrphansStep(s, limit, ids, s')
    ensures Held(s')
  {
    hide Moved;
    var visited := Visited(s, ids, limit);
    var looked := set w |
      w in visited && w in s.workers && s.workers[w].currentJobId.Some? :: s.workers[w].currentJobId.value;
    assert OrphanedWorkers(s) == {};
    PromoteIsQuiet(s, looked, None);
    QuietKeepsHeld(s, s');
  }

  /** Steps that neither start nor stop a run. */
  predicate Unobtrusive(op: Op) {
    || op.CreateJob? || op.RegisterWorker? || op.HeartbeatWorker? || op.GetJob? || op.PromoteDue?
    || op.RepairStaleState? || op.Prune? || op.Wait?
  }

  lemma UnobtrusiveIsQuiet(s: State, op: Op, s': State)
    requires Inv(s) && Step(s, op, s') && Unobtrusive(op)
    ensures Quiet(s, s')
  {
    hide JobsOk, KeysUnique, WorkersOk, Quiet, FirstOf, PromoteIds, RepairStaleIds, CreateStep, PruneStep;
    if s' == s { SameJobsAreQuiet(s, s'); }
    match op
    case CreateJob(newId, q) =>
      var r :| CreateStep(s, newId, q, s', r);
      CreateIsQuiet(s, newId, q, s', r);
    case GetJob(id) => PromoteIsQuiet(s, {id}, None);
    case PromoteDue(limit) =>
      if ValidLimit(limit) {
        var ids: seq<JobId> :| PromoteDueStep(s, limit, ids, s');
        PromoteIsQuiet(s, Elements(ids), Some(ReadyAtElapsed));
      }
    case RepairStaleState(limit) =>
      if ValidLimit(limit) {
        var ids: seq<JobId> :| RepairStaleStep(s, limit, ids, s');
        StaleIsQuiet(s, Elements(ids));
      }
    case Prune(statuses, olderThan, limit) =>
      if ValidStatuses(statuses) && olderThan >= 0 && ValidLimit(limit) {
        var ids: seq<JobId> :| PruneStep(s, statuses, olderThan, limit, ids, s');
        PruneIsQuiet(s, statuses, olderThan, limit, ids, s');
      }
    case _ => SameJobsAreQuiet(s, s');
  }

  lemma CreateIsQuiet(s: State, newId: JobId, q: Request, s': State, r: Result<JobId>)
    requires CreateStep(s, newId, q, s', r)
    ensures Quiet(s, s')
  {
    hide BuildReadyAt, LatestMatch, JobsWithKey, SameRequest;
  }

  lemma PruneIsQuiet(s: State, statuses: Option<seq<Status>>, olderThan: int, limit: Option<int>, ids: seq<JobId>,
                     s': State)
    requires PruneStep(s, statuses, olderThan, limit, ids, s')
    ensures Quiet(s, s')
  {
    hide FirstOf;
  }

  lemma SameJobsAreQuiet(s: State, s': State)
    requires s'.jobs == s.jobs
    requires forall w :: w in s.workers ==>
               w in s'.workers && s'.workers[w].currentJobId == s.workers[w].currentJobId
    ensures Quiet(s, s')
  {
  }

  lemma StaleIsQuiet(s: State, ids: set<JobId>)
    ensures Quiet(s, RepairStaleIds(s, ids))
  {
    hide Quiet, Apply;
    GentleIsQuiet(s, map id | id in ids :: RepairStale);
  }

  lemma OthersStrandNothing(s: State, op: Op)
    requires !op.RunJob? && !op.WorkerResetOf?
    ensures !Strands(s, op)
  {
  }

  /** In a reachable state where every running job is held, a step keeps it so exactly when it is
      none of the stranding calls. */
  lemma StepKeepsHeldUnlessStranding(s: State, op: Op, s': State)
    requires Inv(s) && Held(s) && Step(s, op, s')
    ensures Held(s') <==> !Strands(s, op)
  {
    hide JobsOk, KeysUnique, LeasesNested, Owned, IdleIffFree, Held, Strands, Quiet, FirstOf;
    hide ClaimStep, RunClaimed, CancelExecution, RescheduleJob, ResetWorker, Reclaim, RecoverIds, RepairWorkers;
    hide CreateStep, PromoteDueStep, RepairStaleStep, PruneStep, Register, Heartbeat, LoadJob;
    if !op.RunJob? && !op.WorkerResetOf? { OthersStrandNothing(s, op); }
    match op
    case ReclaimExpired => ReclaimKeepsHeld(s);
    case ClaimNext(w) =>
      var r :| ClaimStep(s, w, s', r);
      ClaimKeepsHeld(s, w, s', r);
    case RunJob(w, id, outcome, elapsed) => RunHeldUnlessStranding(s, w, id, outcome, elapsed);
    case CancelJob(id, reason) => CancelKeepsHeld(s, id, reason);
    case ReschedulingOf(id, delay, runAt) => RescheduleKeepsHeld(s, id, delay, runAt);
    case WorkerResetOf(w, reason, force, requeue) => ResetHeldUnlessStranding(s, w, reason, force, requeue);
    case RepairOrphans(limit) =>
      if ValidLimit(limit) {
        var ids: seq<WorkerId> :| RepairOrphansStep(s, limit, ids, s');
        RepairKeepsHeld(s, limit, ids, s');
      }
    case RecoverWorkflow(workflow, actions, limit) =>
      if actions.Any() && ValidLimit(limit) {
        var ids: seq<JobId> :| RecoverStep(s, workflow, actions, limit, ids, s');
        RecoverKeepsHeld(s, workflow, actions, limit, ids, s');
      }
    case _ =>
      UnobtrusiveIsQuiet(s, op, s');
      QuietKeepsHeld(s, s');
  }

  /** A stranded job is not lost: once its lease is over, the next reclaim or claim queues it. */
  lemma StrandedJobIsReclaimed(s: State, id: JobId)
    requires Inv(s) && id in s.jobs && s.jobs[id].status.Running?
    ensures s.jobs[id].leaseExpiresAt.Some?
    ensures s.now >= s.jobs[id].leaseExpiresAt.value ==> id in QueuedJobs(Reclaim(s))
  {
    RunningHasLease(s, id);
    ReclaimQueuesClaimable(s);
  }
}
