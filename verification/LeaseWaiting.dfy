/** How long a job waits: over every run nothing is queued or claimed before the time it was created or last
    rescheduled for. */
module LeaseWaiting {
  import opened Common
  import opened QueueJobs
  import opened JobInvariants
  import opened LeaseProtocol
  import opened LeaseSafety
  import opened QueueLaws
  import opened LeaseLaws
  import opened LeaseListings

  /** What is still to run was to run before, and not later than now. */
  predicate NoSooner(j: Job, k: Job) { Live(k) ==> Live(j) && j.readyAt <= k.readyAt }

  predicate AllNoSooner(s: State, t: State) {
    forall id :: id in s.jobs && id in t.jobs ==> NoSooner(s.jobs[id], t.jobs[id])
  }

  predicate RunsTimely(s: State) {
    forall id :: id in s.jobs && s.jobs[id].status.Running? ==> s.jobs[id].readyAt <= s.now
  }

  lemma ReachableRunsTimely(s: State)
    requires Inv(s)
    ensures RunsTimely(s)
  {
    hide KeysUnique, WorkersOk;
    forall id | id in s.jobs ensures JobOk(s.jobs[id], s.now) {}
  }

  // ---------- one step ----------

  lemma ClaimWaits(s: State, w: WorkerId, s': State, r: Result<Option<JobId>>)
    requires ClaimStep(s, w, s', r)
    ensures AllNoSooner(s, s')
  {
    hide Reclaim, ClaimStep, AllNoSooner, NotAfter, Waiting, FreeForWork, Gained;
    var t := Reclaim(s);
    ReclaimWaits(s);
    if FreeForWork(s, w) {
      ClaimLaw(s, w, s', r);
      BeatLaw(t, w);
      if r.value.Some? {
        RankStays(s, r.value.value);
        OneRunsNow(t, r.value.value, s');
        WaitsThrough(s, t, s');
      } else {
        SameWaits(t, s');
        WaitsThrough(s, t, s');
      }
    } else {
      ClaimRefusals(s, w, s', r);
      if w in t.workers { BeatLaw(t, w); }
      SameWaits(t, s');
      WaitsThrough(s, t, s');
    }
  }

  lemma OneRunsNow(s: State, id: JobId, t: State)
    requires id in s.jobs && Live(s.jobs[id]) && id in t.jobs && t.jobs == s.jobs[id := t.jobs[id]]
    requires t.jobs[id].readyAt == s.jobs[id].readyAt
    ensures AllNoSooner(s, t)
  {
  }

  lemma WaitsThrough(s: State, t: State, u: State)
    requires AllNoSooner(s, t) && AllNoSooner(t, u) && s.jobs.Keys <= t.jobs.Keys
    ensures AllNoSooner(s, u)
  {
    hide Live;
  }

  lemma RunWaits(s: State, w: WorkerId, id: JobId, outcome: Outcome, elapsed: nat)
    requires RunsTimely(s)
    ensures AllNoSooner(s, RunClaimed(s, w, id, outcome, elapsed).0)
  {
    hide RunClaimed, GainedAny, Gained, Pow2, LoadJob, Beat;
    RunRefusals(s, w, id, outcome, elapsed);
    if Refusal(s, w, id).Some? {
      if w in s.workers {
        BeatLaw(s, w);
        LoadLaw(Beat(s, w), id);
      }
    } else if s.jobs[id].status.Canceled? {
      RunCanceledLaw(s, w, id, outcome, elapsed);
    } else if outcome.Returned? {
      RunReturnsLaw(s, w, id, outcome.result, elapsed);
    } else {
      RunRaisesLaw(s, w, id, outcome.error, elapsed);
      assert s.jobs[id].retryBackoffSeconds * Pow2(s.jobs[id].attemptCount) >= 0;
    }
  }

  lemma CancelWaits(s: State, id: JobId, reason: string)
    ensures AllNoSooner(s, CancelExecution(s, id, reason).0)
  {
    hide CancelExecution, GainedAny;
    CancelLaw(s, id, reason);
  }

  lemma ResetWaits(s: State, w: WorkerId, reason: string, force: bool, requeue: bool)
    ensures AllNoSooner(s, ResetWorker(s, w, reason, force, requeue).0)
  {
    hide ResetWorker, GainedAny, Gained, LoadJob;
    ResetLaw(s, w, reason, force, requeue);
    if w in s.workers && s.workers[w].currentJobId.Some? { LoadLaw(s, s.workers[w].currentJobId.value); }
  }

  lemma CreateWaits(s: State, newId: JobId, q: Request, s': State, r: Result<JobId>)
    requires CreateStep(s, newId, q, s', r) && newId !in s.jobs
    ensures AllNoSooner(s, s')
  {
    hide CreateStep;
    CreateLaw(s, newId, q, s', r);
  }

  /** The job is started afresh: by an operator, or in the recovery of its workflow. */
  predicate StartsAfresh(s: State, op: Op, t: State, id: JobId)
    requires id in s.jobs && id in t.jobs
  {
    var j := s.jobs[id];
    || (op.ReschedulingOf? && op.job == id && !(j.status.Running? || j.status.Completed? || j.status.Canceled?)
        && !BadTime(op.delaySeconds, op.runAt))
    || (op.RecoverWorkflow? && !Live(j) && Live(t.jobs[id]))
  }

  lemma RescheduleWaits(s: State, op: Op, s': State, id: JobId)
    requires op.ReschedulingOf? && s' == RescheduleJob(s, op.job, op.delaySeconds, op.runAt).0
    requires id in s.jobs && id in s'.jobs && !StartsAfresh(s, op, s', id)
    ensures NoSooner(s.jobs[id], s'.jobs[id])
  {
    hide RescheduleJob, GainedAny, LoadJob, Afresh;
    RescheduleLaw(s, op.job, op.delaySeconds, op.runAt);
    LoadLaw(s, op.job);
  }

  lemma RecoverWaits(s: State, op: Op, ids: seq<JobId>, s': State, id: JobId)
    requires op.RecoverWorkflow? && RecoverStep(s, op.workflow, op.actions, op.limit, ids, s')
    requires id in s.jobs && id in s'.jobs && !StartsAfresh(s, op, s', id)
    ensures NoSooner(s.jobs[id], s'.jobs[id])
  {
    hide RecoverStep, GainedAny, Gained;
    RecoverLaw(s, op.workflow, op.actions, op.limit, ids, s');
    RecoverChoice(s, op.workflow, op.actions, op.limit, ids, s');
  }

  lemma PromoteDueWaits(s: State, limit: Option<int>, ids: seq<JobId>, s': State)
    requires PromoteDueStep(s, limit, ids, s')
    ensures AllNoSooner(s, s')
  {
    hide PromoteDueStep, GainedAny, Chosen, DueNoLater;
    PromoteDueLaw(s, limit, ids, s');
  }

  lemma RepairOrphansWaits(s: State, limit: Option<int>, ids: seq<WorkerId>, s': State)
    requires RepairOrphansStep(s, limit, ids, s')
    ensures AllNoSooner(s, s')
  {
    hide RepairOrphansStep, GainedAny;
    RepairOrphansLaw(s, limit, ids, s');
  }

  lemma RepairStaleWaits(s: State, limit: Option<int>, ids: seq<JobId>, s': State)
    requires RepairStaleStep(s, limit, ids, s')
    ensures AllNoSooner(s, s')
  {
    hide RepairStaleStep;
    RepairStaleLaw(s, limit, ids, s');
  }

  lemma PruneWaits(s: State, statuses: Option<seq<Status>>, olderThan: int, limit: Option<int>, ids: seq<JobId>,
                   s': State)
    requires PruneStep(s, statuses, olderThan, limit, ids, s')
    ensures AllNoSooner(s, s')
  {
    hide PruneStep, TerminalTimestamp, Chosen;
    PruneLaw(s, statuses, olderThan, limit, ids, s');
  }

  lemma OneIsEnough(s: State, t: State, id: JobId)
    requires AllNoSooner(s, t) && id in s.jobs && id in t.jobs
    ensures NoSooner(s.jobs[id], t.jobs[id])
  {
  }

  /** Whatever happens, a job that is not started afresh does not become ready any sooner. */
  lemma StepWaits(s: State, op: Op, s': State, id: JobId)
    requires RunsTimely(s) && Step(s, op, s') && id in s.jobs && id in s'.jobs && !StartsAfresh(s, op, s', id)
    ensures NoSooner(s.jobs[id], s'.jobs[id])
  {
    hide CreateStep, ClaimStep, RunClaimed, CancelExecution, RescheduleJob, ResetWorker, Reclaim, LoadJob, RecoverStep;
    hide PromoteDueStep, RepairOrphansStep, RepairStaleStep, PruneStep, AllNoSooner, RunsTimely, NoSooner, StartsAfresh;
    if s'.jobs == s.jobs { SameWaits(s, s'); }
    match op
    case CreateJob(newId, q) =>
      var r :| CreateStep(s, newId, q, s', r);
      CreateWaits(s, newId, q, s', r);
      OneIsEnough(s, s', id);
    case GetJob(job) =>
      LoadWaits(s, job);
      OneIsEnough(s, s', id);
    case ReclaimExpired =>
      ReclaimWaits(s);
      OneIsEnough(s, s', id);
    case ClaimNext(w) =>
      var r :| ClaimStep(s, w, s', r);
      ClaimWaits(s, w, s', r);
      OneIsEnough(s, s', id);
    case RunJob(w, job, outcome, elapsed) =>
      RunWaits(s, w, job, outcome, elapsed);
      OneIsEnough(s, s', id);
    case CancelJob(job, reason) =>
      CancelWaits(s, job, reason);
      OneIsEnough(s, s', id);
    case ReschedulingOf(_, _, _) => RescheduleWaits(s, op, s', id);
    case WorkerResetOf(w, reason, force, requeue) =>
      ResetWaits(s, w, reason, force, requeue);
      OneIsEnough(s, s', id);
    case RecoverWorkflow(workflow, actions, limit) =>
      if actions.Any() && ValidLimit(limit) {
        var ids: seq<JobId> :| RecoverStep(s, workflow, actions, limit, ids, s');
        RecoverWaits(s, op, ids, s', id);
      } else {
        OneIsEnough(s, s', id);
      }
    case PromoteDue(limit) =>
      if ValidLimit(limit) {
        var ids: seq<JobId> :| PromoteDueStep(s, limit, ids, s');
        PromoteDueWaits(s, limit, ids, s');
      }
      OneIsEnough(s, s', id);
    case RepairOrphans(limit) =>
      if ValidLimit(limit) {
        var ids: seq<WorkerId> :| RepairOrphansStep(s, limit, ids, s');
        RepairOrphansWaits(s, limit, ids, s');
      }
      OneIsEnough(s, s', id);
    case RepairStaleState(limit) =>
      if ValidLimit(limit) {
        var ids: seq<JobId> :| RepairStaleStep(s, limit, ids, s');
        RepairStaleWaits(s, limit, ids, s');
      }
      OneIsEnough(s, s', id);
    case Prune(statuses, olderThan, limit) =>
      if ValidStatuses(statuses) && olderThan >= 0 && ValidLimit(limit) {
        var ids: seq<JobId> :| PruneStep(s, statuses, olderThan, limit, ids, s');
        PruneWaits(s, statuses, olderThan, limit, ids, s');
      }
      OneIsEnough(s, s', id);
    case _ => OneIsEnough(s, s', id);
  }

  lemma SameWaits(s: State, t: State)
    requires t.jobs == s.jobs
    ensures AllNoSooner(s, t)
  {
  }

  lemma LoadWaits(s: State, id: JobId)
    ensures AllNoSooner(s, LoadJob(s, id))
  {
    hide LoadJob, GainedAny;
    LoadLaw(s, id);
  }

  lemma ReclaimWaits(s: State)
    ensures AllNoSooner(s, Reclaim(s)) && Reclaim(s).jobs.Keys == s.jobs.Keys
  {
    hide Reclaim, GainedAny, Gained;
    ReclaimLaw(s);
  }

  // ---------- whole runs ----------

  /** From state `i` to state `k` the job is there, and is not started afresh. */
  predicate Undisturbed(trace: seq<State>, ops: seq<Op>, i: nat, k: nat, id: JobId)
    requires k < |trace| == |ops| + 1
  {
    && (forall m :: i <= m <= k ==> id in trace[m].jobs)
    && (forall m :: i <= m < k ==> !StartsAfresh(trace[m], ops[m], trace[m + 1], id))
  }

  lemma {:induction false} WaitsThroughout(trace: seq<State>, ops: seq<Op>, i: nat, k: nat, id: JobId)
    requires Run(trace, ops) && i <= k < |trace| && Undisturbed(trace, ops, i, k, id)
    ensures NoSooner(trace[i].jobs[id], trace[k].jobs[id])
  {
    hide Inv, Step, StartsAfresh, RunsTimely;
    if i < k {
      WaitsThroughout(trace, ops, i, k - 1, id);
      RunsAreSafe(trace, ops);
      assert Inv(trace[k - 1]);
      ReachableRunsTimely(trace[k - 1]);
      assert Step(trace[k - 1], ops[k - 1], trace[k - 1 + 1]);
      StepWaits(trace[k - 1], ops[k - 1], trace[k], id);
    }
  }

  /** The call gives the job a time to be ready at: it creates it, or reschedules it, with this delay or for this
      run time, and is not refused. */
  predicate Sets(s: State, op: Op, t: State, id: JobId) {
    || (op.CreateJob? && op.freshJob == id && id in t.jobs)
    || (op.ReschedulingOf? && op.job == id && id in s.jobs && id in t.jobs && StartsAfresh(s, op, t, id))
  }

  function TimeSet(s: State, op: Op): Time
    requires op.CreateJob? || op.ReschedulingOf?
  {
    var (delay, runAt) := if op.CreateJob? then (op.request.delaySeconds, op.request.runAt)
                          else (op.delaySeconds, op.runAt);
    match runAt case Some(t) => t case None => s.now + delay
  }

  lemma SettingIsMet(s: State, op: Op, s': State, id: JobId)
    requires Step(s, op, s') && Sets(s, op, s', id)
    ensures id in s'.jobs && s'.jobs[id].readyAt == TimeSet(s, op)
  {
    hide CreateStep, RescheduleJob, Afresh;
    if op.CreateJob? {
      var r :| CreateStep(s, id, op.request, s', r);
      CreateLaw(s, id, op.request, s', r);
    } else {
      RescheduleLaw(s, id, op.delaySeconds, op.runAt);
    }
  }

  /** Over every run: from its creation, or from a rescheduling, on and until it is started afresh, a job is neither
      queued nor running before the time it was given: the run time, or the time of the call and the delay. */
  lemma NothingRunsEarly(trace: seq<State>, ops: seq<Op>, i: nat, k: nat, id: JobId)
    requires Run(trace, ops) && i < k < |trace| && Sets(trace[i], ops[i], trace[i + 1], id)
    requires Undisturbed(trace, ops, i + 1, k, id)
    ensures trace[k].jobs[id].status.Queued? || trace[k].jobs[id].status.Running? ==>
              trace[k].now >= TimeSet(trace[i], ops[i])
  {
    hide Inv, Step, StartsAfresh, Sets, TimeSet, Undisturbed;
    assert Step(trace[i], ops[i], trace[i + 1]);
    SettingIsMet(trace[i], ops[i], trace[i + 1], id);
    assert id in trace[k].jobs by { PresentAt(trace, ops, i + 1, k, id); }
    WaitsThroughout(trace, ops, i + 1, k, id);
    RunsAreSafe(trace, ops);
    assert Inv(trace[k]);
    if trace[k].jobs[id].status.Queued? || trace[k].jobs[id].status.Running? { QueuedIsReady(trace[k], id); }
  }

  lemma PresentAt(trace: seq<State>, ops: seq<Op>, i: nat, k: nat, id: JobId)
    requires i <= k < |trace| == |ops| + 1 && Undisturbed(trace, ops, i, k, id)
    ensures id in trace[k].jobs
  {
  }

  lemma QueuedIsReady(s: State, id: JobId)
    requires Inv(s) && id in s.jobs && (s.jobs[id].status.Queued? || s.jobs[id].status.Running?)
    ensures s.jobs[id].readyAt <= s.now
  {
    hide KeysUnique, WorkersOk;
    assert JobOk(s.jobs[id], s.now);
  }

  /** So no worker claims it before that time. */
  lemma NothingIsClaimedEarly(trace: seq<State>, ops: seq<Op>, i: nat, k: nat, id: JobId, w: WorkerId)
    requires Run(trace, ops) && i < k < |ops| && Sets(trace[i], ops[i], trace[i + 1], id)
    requires Undisturbed(trace, ops, i + 1, k, id)
    requires ClaimStep(trace[k], w, trace[k + 1], Ok(Some(id)))
    ensures trace[k].now >= TimeSet(trace[i], ops[i])
  {
    hide Inv, Run, Step, StartsAfresh, Sets, TimeSet, Undisturbed, ClaimStep, NotAfter, FreeForWork, Reclaim, Gained;
    assert Step(trace[i], ops[i], trace[i + 1]) && |trace| == |ops| + 1 by { RunSteps(trace, ops, i); }
    SettingIsMet(trace[i], ops[i], trace[i + 1], id);
    assert id in trace[k].jobs by { PresentAt(trace, ops, i + 1, k, id); }
    WaitsThroughout(trace, ops, i + 1, k, id);
    RunsAreSafe(trace, ops);
    assert Inv(trace[k]);
    if FreeForWork(trace[k], w) {
      ClaimLaw(trace[k], w, trace[k + 1], Ok(Some(id)));
      if !trace[k].jobs[id].status.Scheduled? { QueuedIsReady(trace[k], id); }
    } else {
      ClaimRefusals(trace[k], w, trace[k + 1], Ok(Some(id)));
    }
  }

  lemma RunSteps(trace: seq<State>, ops: seq<Op>, i: nat)
    requires Run(trace, ops) && i < |ops|
    ensures |trace| == |ops| + 1 && Step(trace[i], ops[i], trace[i + 1])
  {
    hide Step;
  }
}
