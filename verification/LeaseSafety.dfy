/** Safety over every run of API steps: the two record stores agree on who runs what, and every
    job record keeps its invariants. */
module LeaseSafety {
  import opened Common
  import opened QueueJobs
  import opened JobAudit
  import opened JobInvariants
  import opened LeaseProtocol

  // ---------- the invariant ----------

  ghost predicate JobsOk(s: State) { forall id :: id in s.jobs ==> JobOk(s.jobs[id], s.now) }

  /** A worker's current job exists, is running, and names that worker. */
  predicate Owned(s: State) {
    forall w :: w in s.workers && s.workers[w].currentJobId.Some? ==> OwnsRunning(s, w, s.workers[w].currentJobId.value)
  }

  /** A worker is idle exactly when it has no job. */
  predicate IdleIffFree(s: State) {
    forall w :: w in s.workers ==>
      !s.workers[w].status.Expired? && (s.workers[w].status.Idle? <==> s.workers[w].currentJobId.None?)
  }

  predicate LeaseFits(s: State, w: WorkerId)
    requires w in s.workers
  {
    var r := s.workers[w];
    && r.lastHeartbeatAt <= s.now && r.leaseExpiresAt == r.lastHeartbeatAt + r.leaseSeconds
    && (r.currentJobId.Some? && r.currentJobId.value in s.jobs && s.jobs[r.currentJobId.value].leaseExpiresAt.Some? ==>
        s.jobs[r.currentJobId.value].leaseExpiresAt.value <= r.leaseExpiresAt)
  }

  /** A worker's own lease never ends before the lease of the job it holds. */
  predicate LeasesNested(s: State) { forall w :: w in s.workers ==> LeaseFits(s, w) }

  predicate SameKey(j: Job, k: Job) { j.idempotencyKey.Some? && j.idempotencyKey == k.idempotencyKey }

  /** No two stored jobs share an idempotency key. */
  predicate KeysUnique(s: State) {
    forall a, b :: a in s.jobs && b in s.jobs && SameKey(s.jobs[a], s.jobs[b]) ==> a == b
  }

  predicate WorkersOk(s: State) { Owned(s) && IdleIffFree(s) && LeasesNested(s) }

  ghost predicate Inv(s: State) { JobsOk(s) && WorkersOk(s) && KeysUnique(s) }

  // ---------- job records under a set of moves ----------

  predicate AllEnabled(s: State, moves: map<JobId, Move>) {
    forall id :: id in moves && id in s.jobs ==> Enabled(s.jobs[id], moves[id])
  }

  lemma ApplyKeepsJobs(s: State, moves: map<JobId, Move>)
    requires JobsOk(s) && KeysUnique(s) && AllEnabled(s, moves)
    ensures JobsOk(Apply(s, moves)) && KeysUnique(Apply(s, moves))
    ensures Apply(s, moves).jobs.Keys == s.jobs.Keys && Apply(s, moves).now == s.now
  {
    var t := Apply(s, moves);
    forall id | id in t.jobs ensures JobOk(t.jobs[id], t.now) {
      if id in moves {
        MoveKeepsJobOk(s.jobs[id], moves[id], s.now);
      }
    }
    forall id | id in s.jobs ensures t.jobs[id].idempotencyKey == s.jobs[id].idempotencyKey {
      if id in moves {
        MoveKeepsIdentity(s.jobs[id], moves[id], s.now);
      }
    }
  }

  lemma MoveKeepsIdentity(j: Job, m: Move, now: Time)
    ensures var k := Moved(j, m, now);
            k.idempotencyKey == j.idempotencyKey && k.createdAt == j.createdAt && k.maxAttempts == j.maxAttempts
            && k.jobType == j.jobType && k.payload == j.payload && k.priority == j.priority
  {
    hide ChangedFields, TransitionEntry;
  }

  /** Moves that leave running jobs, and the jobs workers hold, alone. */
  predicate Gentle(j: Job, m: Move) {
    m.Promote? || m.RepairStale? || (m.Reschedule? && Reschedulable(j))
  }

  lemma GentleSparesRunning(j: Job, m: Move, now: Time)
    requires Gentle(j, m)
    ensures j.status.Running? ==> Moved(j, m, now) == j
    ensures j.status.Running? <==> Moved(j, m, now).status.Running?
  {
  }

  lemma GentleKeepsInv(s: State, moves: map<JobId, Move>)
    requires Inv(s) && AllEnabled(s, moves)
    requires forall id :: id in moves && id in s.jobs ==> Gentle(s.jobs[id], moves[id])
    ensures Inv(Apply(s, moves))
  {
    hide JobOk, Moved, Gentle;
    ApplyKeepsJobs(s, moves);
    var t := Apply(s, moves);
    forall id | id in s.jobs && s.jobs[id].status.Running? ensures t.jobs[id] == s.jobs[id] {
      if id in moves {
        GentleSparesRunning(s.jobs[id], moves[id], s.now);
      }
    }
    forall w | w in t.workers ensures LeaseFits(t, w) {
      assert LeaseFits(s, w);
    }
  }

  lemma PromoteKeepsInv(s: State, ids: set<JobId>, reason: Option<Reason>)
    requires Inv(s) && reason != Some(OperatorReschedule)
    ensures Inv(PromoteIds(s, ids, reason))
    ensures PromoteIds(s, ids, reason).jobs.Keys == s.jobs.Keys
  {
    GentleKeepsInv(s, map id | id in ids :: Promote(reason));
  }

  // ---------- the building blocks ----------

  lemma ReclaimingKeepsWorkers(s: State, ids: set<JobId>, t: State)
    requires WorkersOk(s) && t.now == s.now
    requires t.workers == map w | w in s.workers ::
               if HoldsOneOf(s, w, ids) then Freed(s.workers[w], s.now) else s.workers[w]
    requires forall id :: id in s.jobs && id !in ids ==> id in t.jobs && t.jobs[id] == s.jobs[id]
    ensures WorkersOk(t)
  {
    forall w | w in t.workers
      ensures t.workers[w].currentJobId.Some? ==> OwnsRunning(t, w, t.workers[w].currentJobId.value)
      ensures !t.workers[w].status.Expired? && (t.workers[w].status.Idle? <==> t.workers[w].currentJobId.None?)
      ensures LeaseFits(t, w)
    {
      assert LeaseFits(s, w);
      if s.workers[w].currentJobId.Some? {
        assert OwnsRunning(s, w, s.workers[w].currentJobId.value);
      }
    }
  }

  lemma ReclaimJobsKeepsInv(s: State, ids: set<JobId>)
    requires Inv(s) && ids <= ExpiredJobs(s)
    ensures Inv(ReclaimJobs(s, ids)) && ReclaimJobs(s, ids).jobs.Keys == s.jobs.Keys
  {
    hide JobsOk, KeysUnique, WorkersOk, Moved;
    var moves := RequeueMoves(s, ids);
    ApplyKeepsJobs(s, moves);
    ReclaimingKeepsWorkers(s, ids, ReclaimJobs(s, ids));
    SameJobsSameOk(Apply(s, moves), ReclaimJobs(s, ids));
  }

  lemma ReclaimKeepsInv(s: State)
    requires Inv(s)
    ensures Inv(Reclaim(s)) && Reclaim(s).jobs.Keys == s.jobs.Keys
  {
    hide Inv, Moved;
    PromoteKeepsInv(s, DueJobs(s), Some(ReadyAtElapsed));
    ReclaimJobsKeepsInv(PromoteAll(s), ExpiredJobs(PromoteAll(s)));
  }

  lemma BeatKeepsInv(s: State, w: WorkerId)
    requires Inv(s) && w in s.workers
    ensures Inv(Beat(s, w))
  {
    hide JobOk;
    var t := Beat(s, w);
    forall v | v in t.workers ensures LeaseFits(t, v) {
      assert LeaseFits(s, v);
    }
  }

  lemma ReleaseKeepsInv(s: State, w: WorkerId)
    requires Inv(s) && w in s.workers
    ensures Inv(Release(s, w))
  {
    hide JobOk;
    var t := Release(s, w);
    forall v | v in t.workers ensures LeaseFits(t, v) {
      assert LeaseFits(s, v);
    }
  }

  /** Every worker that held `id` lets go of it; the others stay as they are. */
  predicate LetGo(s: State, id: JobId, t: State) {
    && t.now == s.now && t.workers.Keys == s.workers.Keys
    && forall v :: v in s.workers ==>
         if s.workers[v].currentJobId == Some(id) then
           t.workers[v] == Freed(s.workers[v], s.now) || t.workers[v] == ResetRecord(s.workers[v], s.now)
         else t.workers[v] == s.workers[v]
  }

  predicate OthersUntouched(s: State, id: JobId, t: State) {
    forall k :: k in s.jobs && k != id ==> k in t.jobs && t.jobs[k] == s.jobs[k]
  }

  lemma LettingGoKeepsWorkers(s: State, id: JobId, t: State)
    requires WorkersOk(s) && LetGo(s, id, t) && OthersUntouched(s, id, t)
    ensures WorkersOk(t)
  {
    forall v | v in t.workers
      ensures t.workers[v].currentJobId.Some? ==> OwnsRunning(t, v, t.workers[v].currentJobId.value)
      ensures !t.workers[v].status.Expired? && (t.workers[v].status.Idle? <==> t.workers[v].currentJobId.None?)
      ensures LeaseFits(t, v)
    {
      assert LeaseFits(s, v);
      if t.workers[v].currentJobId.Some? {
        assert OwnsRunning(s, v, s.workers[v].currentJobId.value);
      }
    }
  }

  /** One job leaves running (or was not running) while every worker that held it lets go. */
  lemma LeavingKeepsInv(s: State, id: JobId, m: Move, t: State)
    requires Inv(s) && id in s.jobs && Enabled(s.jobs[id], m)
    requires t.jobs == Apply(s, map[id := m]).jobs && LetGo(s, id, t)
    ensures Inv(t)
  {
    hide JobOk, Moved, Enabled, WorkersOk;
    ApplyKeepsJobs(s, map[id := m]);
    assert OthersUntouched(s, id, t);
    LettingGoKeepsWorkers(s, id, t);
    var a := Apply(s, map[id := m]);
    assert JobsOk(t) && KeysUnique(t);
  }

  /** Only its named worker can hold a job. */
  lemma HolderIsOwner(s: State, w: WorkerId, id: JobId)
    requires Owned(s) && w in s.workers && s.workers[w].currentJobId == Some(id)
    ensures OwnsRunning(s, w, id)
    ensures forall v :: v in s.workers && s.workers[v].currentJobId == Some(id) ==> v == w
  {
  }

  lemma TakingKeepsWorkers(s: State, w: WorkerId, id: JobId, t: State)
    requires WorkersOk(s) && w in s.workers && s.workers[w].currentJobId.None?
    requires id in s.jobs && !s.jobs[id].status.Running? && OthersUntouched(s, id, t)
    requires t.now == s.now && t.workers == s.workers[w := Assigned(s.workers[w], id, s.now)]
    requires OwnsRunning(t, w, id) && t.jobs[id].leaseExpiresAt == Some(s.now + s.workers[w].leaseSeconds)
    ensures WorkersOk(t)
  {
    forall v | v in t.workers
      ensures t.workers[v].currentJobId.Some? ==> OwnsRunning(t, v, t.workers[v].currentJobId.value)
      ensures !t.workers[v].status.Expired? && (t.workers[v].status.Idle? <==> t.workers[v].currentJobId.None?)
      ensures LeaseFits(t, v)
    {
      assert LeaseFits(s, v);
      if v != w && s.workers[v].currentJobId.Some? {
        assert OwnsRunning(s, v, s.workers[v].currentJobId.value);
      }
    }
  }

  lemma TakeKeepsInv(s: State, w: WorkerId, id: JobId)
    requires Inv(s) && w in s.workers && s.workers[w].currentJobId.None?
    requires id in s.jobs && s.jobs[id].status.Queued?
    ensures Inv(Take(s, w, id))
  {
    hide JobsOk, KeysUnique, WorkersOk;
    var moves := map[id := Claim(w, s.workers[w].leaseSeconds)];
    ApplyKeepsJobs(s, moves);
    var t := Take(s, w, id);
    TakingKeepsWorkers(s, w, id, t);
    SameJobsSameOk(Apply(s, moves), t);
  }

  lemma SameJobsSameOk(s: State, t: State)
    requires JobsOk(s) && KeysUnique(s) && t.jobs == s.jobs && t.now == s.now
    ensures JobsOk(t) && KeysUnique(t)
  {
    hide JobOk;
  }

  lemma EndRunKeepsInv(s: State, w: WorkerId, id: JobId, outcome: Outcome)
    requires Inv(s) && w in s.workers && s.workers[w].currentJobId == Some(id)
    ensures Inv(EndRun(s, w, id, outcome))
  {
    hide JobsOk, KeysUnique, LeasesNested, IdleIffFree, Moved;
    HolderIsOwner(s, w, id);
    var m := match outcome case Returned(r) => Finish(r) case Raised(e) => Fail(e);
    LeavingKeepsInv(s, id, m, EndRun(s, w, id, outcome));
  }

  lemma WaitKeepsInv(s: State, seconds: nat)
    requires Inv(s)
    ensures Inv(s.(now := s.now + seconds))
  {
    hide JobOk;
    var t := s.(now := s.now + seconds);
    forall id | id in t.jobs ensures JobOk(t.jobs[id], t.now) {
      LaterIsOk(s.jobs[id], s.now, t.now);
    }
    forall w | w in t.workers ensures LeaseFits(t, w) {
      assert LeaseFits(s, w);
    }
  }

  // ---------- the API functions ----------

  lemma CreateKeepsInv(s: State, newId: JobId, q: Request, s': State, r: Result<JobId>)
    requires Inv(s) && newId !in s.jobs && CreateStep(s, newId, q, s', r)
    ensures Inv(s')
  {
    hide JobOk;
    if s' != s {
      var job := Requested(s, q);
      NewJobOk(job, BuildReadyAt(q.delaySeconds, q.runAt, s.now).value, s.now);
      assert s'.jobs[newId] == job;
      assert forall id :: id in s.jobs ==> s'.jobs[id] == s.jobs[id];
      forall w | w in s'.workers ensures LeaseFits(s', w) {
        assert LeaseFits(s, w);
      }
      assert forall id :: id in s.jobs && q.key.Some? ==> id !in JobsWithKey(s, q.key.value);
    }
  }

  lemma RegisterKeepsInv(s: State, newId: WorkerId, name: string, leaseSeconds: int)
    requires Inv(s) && newId !in s.workers
    ensures Inv(Register(s, newId, name, leaseSeconds))
  {
    hide JobOk;
    var t := Register(s, newId, name, leaseSeconds);
    forall w | w in t.workers ensures LeaseFits(t, w) {
      assert w in s.workers ==> LeaseFits(s, w);
    }
  }

  lemma ClaimKeepsInv(s: State, w: WorkerId, s': State, r: Result<Option<JobId>>)
    requires Inv(s) && ClaimStep(s, w, s', r)
    ensures Inv(s')
  {
    hide Inv, Moved, Reclaim;
    ReclaimKeepsInv(s);
    var s1 := Reclaim(s);
    if w in s1.workers {
      BeatKeepsInv(s1, w);
      var s2 := Beat(s1, w);
      PromoteKeepsInv(s2, DueJobs(s2), Some(ReadyAtElapsed));
      if r.Ok? && r.value.Some? {
        TakeKeepsInv(PromoteAll(s2), w, r.value.value);
      }
    }
  }

  lemma RunKeepsInv(s: State, w: WorkerId, id: JobId, outcome: Outcome, elapsed: nat)
    requires Inv(s)
    ensures Inv(RunClaimed(s, w, id, outcome, elapsed).0)
  {
    hide JobsOk, KeysUnique, LeasesNested, IdleIffFree, Moved;
    if w in s.workers && !Lapsed(s.workers[w], s.now) {
      BeatKeepsInv(s, w);
      var s1 := Beat(s, w);
      if id in s1.jobs {
        PromoteKeepsInv(s1, {id}, None);
        var s2 := LoadJob(s1, id);
        ReleaseKeepsInv(s2, w);
        WaitKeepsInv(s2, elapsed);
        if s2.workers[w].currentJobId == Some(id) {
          EndRunKeepsInv(s2.(now := s2.now + elapsed), w, id, outcome);
        }
      }
    }
  }

  lemma CancelKeepsInv(s: State, id: JobId, reason: string)
    requires Inv(s)
    ensures Inv(CancelExecution(s, id, reason).0)
  {
    hide JobsOk, KeysUnique, LeasesNested, IdleIffFree, Moved;
    if id in s.jobs {
      PromoteKeepsInv(s, {id}, None);
      var s1 := LoadJob(s, id);
      if Cancelable(s1.jobs[id]) {
        var t := CancelExecution(s, id, reason).0;
        forall v | v in s1.workers && s1.workers[v].currentJobId == Some(id)
          ensures t.workers[v] == Freed(s1.workers[v], s1.now)
        {
          HolderIsOwner(s1, v, id);
        }
        LeavingKeepsInv(s1, id, Cancel(reason), t);
      }
    }
  }

  lemma RescheduleKeepsInv(s: State, id: JobId, delay: int, runAt: Option<Time>)
    requires Inv(s)
    ensures Inv(RescheduleJob(s, id, delay, runAt).0)
  {
    hide Inv, Moved;
    if id in s.jobs {
      PromoteKeepsInv(s, {id}, None);
      var s1 := LoadJob(s, id);
      var readyAt := BuildReadyAt(delay, runAt, s.now);
      if Reschedulable(s1.jobs[id]) && readyAt.Some? {
        GentleKeepsInv(s1, map[id := Reschedule(readyAt.value)]);
      }
    }
  }

  /** Dropping a worker's assignment never breaks the invariant, whatever becomes of the job. */
  lemma DropKeepsInv(s: State, w: WorkerId)
    requires Inv(s) && w in s.workers
    ensures Inv(SetWorker(s, w, ResetRecord(s.workers[w], s.now)))
  {
    hide JobOk;
    var t := SetWorker(s, w, ResetRecord(s.workers[w], s.now));
    forall v | v in t.workers ensures LeaseFits(t, v) {
      assert LeaseFits(s, v);
    }
  }

  lemma ResetKeepsInv(s: State, w: WorkerId, reason: string, force: bool, requeue: bool)
    requires Inv(s)
    ensures Inv(ResetWorker(s, w, reason, force, requeue).0)
  {
    hide JobsOk, KeysUnique, LeasesNested, IdleIffFree, Moved;
    if w in s.workers {
      DropKeepsInv(s, w);
      if s.workers[w].currentJobId.Some? {
        var id := s.workers[w].currentJobId.value;
        PromoteKeepsInv(s, {id}, None);
        var s1 := LoadJob(s, id);
        DropKeepsInv(s1, w);
        var t := ResetWorker(s, w, reason, force, requeue);
        if t.1.Ok? && OwnsRunning(s1, w, id) && requeue {
          HolderIsOwner(s1, w, id);
          LeavingKeepsInv(s1, id, Requeue(WorkerReset(Text.Strip(reason))), t.0);
        }
      }
    }
  }

  lemma RepairOrphansKeepsInv(s: State, limit: Option<int>, ids: seq<WorkerId>, s': State)
    requires Inv(s) && RepairOrphansStep(s, limit, ids, s')
    ensures Inv(s')
  {
    hide JobOk, Moved;
    var visited := Visited(s, ids, limit);
    var looked := set w |
      w in visited && w in s.workers && s.workers[w].currentJobId.Some? :: s.workers[w].currentJobId.value;
    PromoteKeepsInv(s, looked, None);
    assert OrphanedWorkers(s) == {};
    assert s' == PromoteIds(s, looked, None);
  }

  lemma PruneKeepsInv(s: State, statuses: Option<seq<Status>>, olderThan: int, limit: Option<int>,
                      ids: seq<JobId>, s': State)
    requires Inv(s) && ValidStatuses(statuses) && PruneStep(s, statuses, olderThan, limit, ids, s')
    ensures Inv(s')
  {
    hide JobOk;
    assert forall id :: id in Elements(ids) ==> id in s.jobs && s.jobs[id].status.Terminal();
    forall w | w in s'.workers
      ensures s'.workers[w].currentJobId.Some? ==> OwnsRunning(s', w, s'.workers[w].currentJobId.value)
      ensures LeaseFits(s', w)
    {
      assert LeaseFits(s, w);
      if s.workers[w].currentJobId.Some? {
        assert OwnsRunning(s, w, s.workers[w].currentJobId.value);
      }
    }
  }

  lemma RecoverKeepsInv(s: State, workflow: WorkflowId, actions: Recovery, limit: Option<int>,
                        ids: seq<JobId>, s': State)
    requires Inv(s) && RecoverStep(s, workflow, actions, limit, ids, s')
    ensures Inv(s')
  {
    hide Inv, Moved;
    var expired := RelatedJobs(s, workflow) * ExpiredJobs(s);
    ReclaimJobsKeepsInv(s, expired);
    var s1 := if actions.reclaimExpired then ReclaimJobs(s, expired) else s;
    forall id | id in Elements(ids) ensures id in s.jobs && s1.jobs[id] == s.jobs[id] && Reschedulable(s1.jobs[id]) {
      assert id in Recoverable(s, workflow, actions);
    }
    var moves := map id | id in Elements(ids) :: Reschedule(s.now);
    assert forall id :: id in moves && id in s1.jobs ==> Gentle(s1.jobs[id], moves[id]);
    GentleKeepsInv(s1, moves);
  }

  lemma StepKeepsInv(s: State, op: Op, s': State)
    requires Inv(s) && Step(s, op, s')
    ensures Inv(s')
  {
    hide Inv, ClaimStep, CreateStep, RunClaimed, CancelExecution, RescheduleJob, ResetWorker, Reclaim, Beat, PromoteIds;
    match op
    case CreateJob(newId, q) =>
      var r :| CreateStep(s, newId, q, s', r);
      CreateKeepsInv(s, newId, q, s', r);
    case RegisterWorker(newId, name, seconds) => RegisterKeepsInv(s, newId, name, seconds);
    case HeartbeatWorker(w) => if w in s.workers { BeatKeepsInv(s, w); }
    case GetJob(id) => PromoteKeepsInv(s, {id}, None);
    case PromoteDue(limit) =>
      if ValidLimit(limit) {
        var ids: seq<JobId> :| PromoteDueStep(s, limit, ids, s');
        PromoteKeepsInv(s, Elements(ids), Some(ReadyAtElapsed));
      }
    case ReclaimExpired => ReclaimKeepsInv(s);
    case ClaimNext(w) =>
      var r :| ClaimStep(s, w, s', r);
      ClaimKeepsInv(s, w, s', r);
    case RunJob(w, id, outcome, elapsed) => RunKeepsInv(s, w, id, outcome, elapsed);
    case CancelJob(id, reason) => CancelKeepsInv(s, id, reason);
    case ReschedulingOf(id, delay, runAt) => RescheduleKeepsInv(s, id, delay, runAt);
    case WorkerResetOf(w, reason, force, requeue) => ResetKeepsInv(s, w, reason, force, requeue);
    case RepairOrphans(limit) =>
      if ValidLimit(limit) {
        var ids: seq<WorkerId> :| RepairOrphansStep(s, limit, ids, s');
        RepairOrphansKeepsInv(s, limit, ids, s');
      }
    case RepairStaleState(limit) =>
      if ValidLimit(limit) {
        var ids: seq<JobId> :| RepairStaleStep(s, limit, ids, s');
        GentleKeepsInv(s, map id | id in Elements(ids) :: RepairStale);
      }
    case Prune(statuses, olderThan, limit) =>
      if ValidStatuses(statuses) && olderThan >= 0 && ValidLimit(limit) {
        var ids: seq<JobId> :| PruneStep(s, statuses, olderThan, limit, ids, s');
        PruneKeepsInv(s, statuses, olderThan, limit, ids, s');
      }
    case RecoverWorkflow(workflow, actions, limit) =>
      if actions.Any() && ValidLimit(limit) {
        var ids: seq<JobId> :| RecoverStep(s, workflow, actions, limit, ids, s');
        RecoverKeepsInv(s, workflow, actions, limit, ids, s');
      }
    case Wait(seconds) => WaitKeepsInv(s, seconds);
  }

  // ---------- over whole runs ----------

  lemma EmptyIsSafe(s: State)
    requires Initial(s)
    ensures Inv(s)
  {
  }

  lemma {:induction false} RunsAreSafe(trace: seq<State>, ops: seq<Op>)
    requires Run(trace, ops)
    ensures forall i :: 0 <= i < |trace| ==> Inv(trace[i])
  {
    hide Inv, Step;
    if ops == [] {
      assert Inv(trace[0]) by { EmptyIsSafe(trace[0]); }
    } else {
      var k := |ops| - 1;
      RunsAreSafe(trace[..k + 1], ops[..k]);
      assert trace[..k + 1][k] == trace[k];
      StepKeepsInv(trace[k], ops[k], trace[k + 1]);
      forall i | 0 <= i < |trace| ensures Inv(trace[i]) {
        if i <= k { assert trace[..k + 1][i] == trace[i]; }
      }
    }
  }
}
