/** Job logs over whole runs: no step rewrites an entry, and every reachable job satisfies its
    replay, accounting, budget and backoff laws. */
module LeaseHistory {
  import opened Common
  import opened QueueJobs
  import opened JobAudit
  import opened JobInvariants
  import opened LeaseProtocol
  import opened LeaseSafety
  import Text

  /** Every job in both states has only gained log entries. */
  predicate LogsGrow(s: State, t: State) {
    forall id :: id in s.jobs && id in t.jobs ==> s.jobs[id].history <= t.jobs[id].history
  }

  lemma ApplyGrowsLogs(s: State, moves: map<JobId, Move>)
    ensures LogsGrow(s, Apply(s, moves)) && Apply(s, moves).jobs.Keys == s.jobs.Keys
  {
    forall id | id in s.jobs ensures s.jobs[id].history <= Apply(s, moves).jobs[id].history {
      if id in moves { MoveGrowsLog(s.jobs[id], moves[id], s.now); }
    }
  }

  lemma MoveGrowsLog(j: Job, m: Move, now: Time)
    ensures j.history <= Moved(j, m, now).history
  {
  }

  lemma PromoteGrowsLogs(s: State, ids: set<JobId>, reason: Option<Reason>)
    ensures LogsGrow(s, PromoteIds(s, ids, reason)) && PromoteIds(s, ids, reason).jobs.Keys == s.jobs.Keys
  {
    ApplyGrowsLogs(s, map id | id in ids :: Promote(reason));
  }

  lemma ThenGrow(s: State, u: State, t: State)
    requires LogsGrow(s, u) && LogsGrow(u, t) && u.jobs.Keys == s.jobs.Keys
    ensures LogsGrow(s, t)
  {
  }

  lemma SameJobsGrow(s: State, u: State, t: State)
    requires LogsGrow(s, u) && t.jobs == u.jobs
    ensures LogsGrow(s, t)
  {
  }

  lemma ReclaimJobsGrowsLogs(s: State, ids: set<JobId>)
    ensures LogsGrow(s, ReclaimJobs(s, ids)) && ReclaimJobs(s, ids).jobs.Keys == s.jobs.Keys
  {
    hide LogsGrow, Apply;
    var moves := RequeueMoves(s, ids);
    ApplyGrowsLogs(s, moves);
    SameJobsGrow(s, Apply(s, moves), ReclaimJobs(s, ids));
  }

  lemma ReclaimGrowsLogs(s: State)
    ensures LogsGrow(s, Reclaim(s)) && Reclaim(s).jobs.Keys == s.jobs.Keys
  {
    hide LogsGrow;
    PromoteGrowsLogs(s, DueJobs(s), Some(ReadyAtElapsed));
    ReclaimJobsGrowsLogs(PromoteAll(s), ExpiredJobs(PromoteAll(s)));
    ThenGrow(s, PromoteAll(s), Reclaim(s));
  }

  /** Load a job, then apply one update to it. */
  lemma LoadThenMoveGrowsLogs(s: State, id: JobId, m: Move, later: Time, t: State)
    requires t.jobs == LoadJob(s, id).jobs || t.jobs == Apply(LoadJob(s, id).(now := later), map[id := m]).jobs
    ensures LogsGrow(s, t)
  {
    hide LogsGrow, Apply, PromoteIds;
    var u := LoadJob(s, id);
    PromoteGrowsLogs(s, {id}, None);
    var v := u.(now := later);
    ApplyGrowsLogs(v, map[id := m]);
    SameJobsGrow(s, u, v);
    ThenGrow(s, v, Apply(v, map[id := m]));
    if t.jobs == u.jobs { SameJobsGrow(s, u, t); } else { SameJobsGrow(s, Apply(v, map[id := m]), t); }
  }

  lemma ClaimGrowsLogs(s: State, w: WorkerId, s': State, r: Result<Option<JobId>>)
    requires ClaimStep(s, w, s', r)
    ensures LogsGrow(s, s')
  {
    hide LogsGrow, Reclaim, Apply, PromoteIds;
    ReclaimGrowsLogs(s);
    var s1 := Reclaim(s);
    if w in s1.workers {
      var s2 := Beat(s1, w);
      SameJobsGrow(s, s1, s2);
      PromoteGrowsLogs(s2, DueJobs(s2), Some(ReadyAtElapsed));
      PromoteKeepsRest(s2, DueJobs(s2), Some(ReadyAtElapsed));
      var s3 := PromoteAll(s2);
      ThenGrow(s, s2, s3);
      if r.Ok? && r.value.Some? {
        var moves := map[r.value.value := Claim(w, s3.workers[w].leaseSeconds)];
        ApplyGrowsLogs(s3, moves);
        ThenGrow(s, s3, Apply(s3, moves));
        SameJobsGrow(s, Apply(s3, moves), s');
      }
    }
  }

  lemma NoChangeGrows(s: State, t: State)
    requires forall id :: id in s.jobs && id in t.jobs ==> t.jobs[id] == s.jobs[id]
    ensures LogsGrow(s, t)
  {
  }

  lemma RunGrowsLogs(s: State, w: WorkerId, id: JobId, outcome: Outcome, elapsed: nat)
    ensures LogsGrow(s, RunClaimed(s, w, id, outcome, elapsed).0)
  {
    hide LogsGrow, Apply, PromoteIds;
    var t := RunClaimed(s, w, id, outcome, elapsed).0;
    if w in s.workers && !Lapsed(s.workers[w], s.now) && id in s.jobs {
      var s1 := Beat(s, w);
      var m := match outcome case Returned(r) => Finish(r) case Raised(e) => Fail(e);
      PromoteKeepsRest(s1, {id}, None);
      LoadThenMoveGrowsLogs(s1, id, m, s1.now + elapsed, t);
      NoChangeGrows(s, s1);
      ThenGrow(s, s1, t);
    } else {
      NoChangeGrows(s, t);
    }
  }

  lemma PromoteKeepsRest(s: State, ids: set<JobId>, reason: Option<Reason>)
    ensures PromoteIds(s, ids, reason).workers == s.workers && PromoteIds(s, ids, reason).now == s.now
  {
  }

  lemma CancelGrowsLogs(s: State, id: JobId, reason: string)
    ensures LogsGrow(s, CancelExecution(s, id, reason).0)
  {
    hide LogsGrow, Apply, PromoteIds;
    var t := CancelExecution(s, id, reason).0;
    PromoteKeepsRest(s, {id}, None);
    if id in s.jobs {
      var u := LoadJob(s, id);
      assert u.(now := s.now) == u;
      LoadThenMoveGrowsLogs(s, id, Cancel(reason), s.now, t);
    } else {
      NoChangeGrows(s, t);
    }
  }

  lemma RescheduleGrowsLogs(s: State, id: JobId, delay: int, runAt: Option<Time>)
    ensures LogsGrow(s, RescheduleJob(s, id, delay, runAt).0)
  {
    hide LogsGrow, Apply, PromoteIds;
    var t := RescheduleJob(s, id, delay, runAt).0;
    PromoteKeepsRest(s, {id}, None);
    if id in s.jobs {
      var u := LoadJob(s, id);
      assert u.(now := s.now) == u;
      var readyAt := BuildReadyAt(delay, runAt, s.now);
      LoadThenMoveGrowsLogs(s, id, Reschedule(if readyAt.Some? then readyAt.value else 0), s.now, t);
    } else {
      NoChangeGrows(s, t);
    }
  }

  lemma ResetGrowsLogs(s: State, w: WorkerId, reason: string, force: bool, requeue: bool)
    ensures LogsGrow(s, ResetWorker(s, w, reason, force, requeue).0)
  {
    hide LogsGrow, Apply, PromoteIds;
    var t := ResetWorker(s, w, reason, force, requeue).0;
    if t.jobs != s.jobs {
      var id := s.workers[w].currentJobId.value;
      PromoteKeepsRest(s, {id}, None);
      var u := LoadJob(s, id);
      assert u.(now := s.now) == u;
      LoadThenMoveGrowsLogs(s, id, Requeue(WorkerReset(Text.Strip(reason))), s.now, t);
    } else {
      NoChangeGrows(s, t);
    }
  }

  lemma RecoverGrowsLogs(s: State, workflow: WorkflowId, actions: Recovery, rescheduled: set<JobId>)
    ensures LogsGrow(s, RecoverIds(s, workflow, actions, rescheduled))
  {
    hide LogsGrow, Apply, ReclaimJobs;
    NoChangeGrows(s, s);
    ReclaimJobsGrowsLogs(s, RelatedJobs(s, workflow) * ExpiredJobs(s));
    var s1 := if actions.reclaimExpired then ReclaimJobs(s, RelatedJobs(s, workflow) * ExpiredJobs(s)) else s;
    var moves := map id | id in rescheduled :: Reschedule(s.now);
    ApplyGrowsLogs(s1, moves);
    ThenGrow(s, s1, Apply(s1, moves));
  }

  /** No step rewrites or drops a log entry of a job it keeps. */
  lemma StepGrowsLogs(s: State, op: Op, s': State)
    requires Step(s, op, s')
    ensures LogsGrow(s, s')
  {
    hide LogsGrow, ClaimStep, RunClaimed, CancelExecution, RescheduleJob, ResetWorker, Reclaim, PromoteIds, RecoverIds;
    hide Apply, FirstOf, Requested, ValidRequest, BuildReadyAt, LatestMatch;
    if s'.jobs == s.jobs { NoChangeGrows(s, s'); }
    match op
    case CreateJob(newId, q) =>
      var r :| CreateStep(s, newId, q, s', r);
      NoChangeGrows(s, s');
    case GetJob(id) => PromoteGrowsLogs(s, {id}, None);
    case PromoteDue(limit) =>
      if ValidLimit(limit) {
        var ids: seq<JobId> :| PromoteDueStep(s, limit, ids, s');
        PromoteGrowsLogs(s, Elements(ids), Some(ReadyAtElapsed));
      }
    case ReclaimExpired => ReclaimGrowsLogs(s);
    case ClaimNext(w) =>
      var r :| ClaimStep(s, w, s', r);
      ClaimGrowsLogs(s, w, s', r);
    case RunJob(w, id, outcome, elapsed) => RunGrowsLogs(s, w, id, outcome, elapsed);
    case CancelJob(id, reason) => CancelGrowsLogs(s, id, reason);
    case ReschedulingOf(id, delay, runAt) => RescheduleGrowsLogs(s, id, delay, runAt);
    case WorkerResetOf(w, reason, force, requeue) => ResetGrowsLogs(s, w, reason, force, requeue);
    case RepairOrphans(limit) =>
      if ValidLimit(limit) {
        var ids: seq<WorkerId> :| RepairOrphansStep(s, limit, ids, s');
        var visited := Visited(s, ids, limit);
        var looked := set w |
          w in visited && w in s.workers && s.workers[w].currentJobId.Some? :: s.workers[w].currentJobId.value;
        PromoteGrowsLogs(s, looked, None);
        SameJobsGrow(s, PromoteIds(s, looked, None), s');
      }
    case RepairStaleState(limit) =>
      if ValidLimit(limit) {
        var ids: seq<JobId> :| RepairStaleStep(s, limit, ids, s');
        ApplyGrowsLogs(s, map id | id in Elements(ids) :: RepairStale);
      }
    case Prune(statuses, olderThan, limit) =>
      if ValidStatuses(statuses) && olderThan >= 0 && ValidLimit(limit) {
        var ids: seq<JobId> :| PruneStep(s, statuses, olderThan, limit, ids, s');
        NoChangeGrows(s, s');
      }
    case RecoverWorkflow(workflow, actions, limit) =>
      if actions.Any() && ValidLimit(limit) {
        var ids: seq<JobId> :| RecoverStep(s, workflow, actions, limit, ids, s');
        RecoverGrowsLogs(s, workflow, actions, Elements(ids));
      }
    case _ => NoChangeGrows(s, s');
  }

  // ---------- the laws of a reachable job ----------

  lemma ReachableJobOk(trace: seq<State>, ops: seq<Op>, i: nat, id: JobId)
    requires Run(trace, ops) && i < |trace| && id in trace[i].jobs
    ensures JobOk(trace[i].jobs[id], trace[i].now)
  {
    hide Run, JobOk;
    RunsAreSafe(trace, ops);
    assert Inv(trace[i]);
  }

  /** The log of any reachable job replays to its twelve tracked fields, and each entry says what
      the fields were before it. */
  lemma ReachableJobReplays(trace: seq<State>, ops: seq<Op>, i: nat, id: JobId, k: nat, f: Field)
    requires Run(trace, ops) && i < |trace| && id in trace[i].jobs
    ensures var j := trace[i].jobs[id];
            && LogShape(j.history)
            && Replayed(j.history, f) == Tracked(j, f)
            && (0 < k < |j.history| && f in j.history[k].changed ==>
                LogShape(j.history[..k]) && LogShape(j.history[..k + 1])
                && j.history[k].changed[f].was == Replayed(j.history[..k], f)
                && j.history[k].changed[f].becomes == Replayed(j.history[..k + 1], f))
  {
    hide Run;
    ReachableJobOk(trace, ops, i, id);
    var j := trace[i].jobs[id];
    if 0 < k < |j.history| && f in j.history[k].changed {
      ChainAt(j.history, k, f);
    }
  }

  /** Claims of any reachable job: one more than the exits exactly while it runs; and if it was never
      rescheduled, one per attempt and per reclaim plus the one still open, completed or canceled. */
  lemma ReachableClaimsAccounted(trace: seq<State>, ops: seq<Op>, i: nat, id: JobId)
    requires Run(trace, ops) && i < |trace| && id in trace[i].jobs
    ensures var j := trace[i].jobs[id];
            && Claims(j.history) - Exits(j.history) == (if j.status.Running? then 1 else 0)
            && (NeverRescheduled(j.history) ==>
                Claims(j.history) == j.attemptCount + j.reclaimCount
                  + (if j.status.Running? || j.status.Completed? || CanceledWhileRunning(j.history) then 1 else 0))
  {
    hide Run;
    ReachableJobOk(trace, ops, i, id);
    RunningMeansOneOpenClaim(trace[i].jobs[id]);
  }

  /** Attempts never exceed the budget; failed and dead-lettered mean it is exactly spent. */
  lemma ReachableBudget(trace: seq<State>, ops: seq<Op>, i: nat, id: JobId)
    requires Run(trace, ops) && i < |trace| && id in trace[i].jobs
    ensures var j := trace[i].jobs[id];
            && j.attemptCount <= j.maxAttempts
            && (j.attemptCount == j.maxAttempts <==> j.status.Failed? || j.status.DeadLetter?)
            && (j.status.Failed? ==> j.maxAttempts == 1)
            && (j.status.DeadLetter? ==> j.maxAttempts > 1)
  {
    hide Run;
    ReachableJobOk(trace, ops, i, id);
  }

  /** Geometric backoff: a live job that has failed n times is not ready before b + 2b + ... past its
      origin, and while queued or running its ready time has come. */
  lemma ReachableBackoff(trace: seq<State>, ops: seq<Op>, i: nat, id: JobId)
    requires Run(trace, ops) && i < |trace| && id in trace[i].jobs
    ensures var j := trace[i].jobs[id];
            && LogShape(j.history)
            && (Live(j) ==> j.readyAt >= Origin(j.history) + j.retryBackoffSeconds * (Pow2(j.attemptCount) - 1))
            && (j.status.Queued? || j.status.Running? ==> j.readyAt <= trace[i].now)
  {
    hide Run;
    ReachableJobOk(trace, ops, i, id);
  }

  /** The ownership law: what a worker holds exists, runs, and is that worker's alone. */
  lemma ReachableOwnership(trace: seq<State>, ops: seq<Op>, i: nat, v: WorkerId, w: WorkerId, id: JobId)
    requires Run(trace, ops) && i < |trace| && w in trace[i].workers && v in trace[i].workers
    requires trace[i].workers[w].currentJobId == Some(id)
    ensures OwnsRunning(trace[i], w, id) && trace[i].workers[w].status.Busy?
    ensures trace[i].workers[v].currentJobId == Some(id) ==> v == w
  {
    hide Run, JobsOk, KeysUnique, LeasesNested;
    RunsAreSafe(trace, ops);
    assert Inv(trace[i]);
    HolderIsOwner(trace[i], w, id);
  }
}
