/** What the repair and recovery functions restore, from any state whatever. */
module LeaseRecovery {
  import opened Common
  import opened QueueJobs
  import opened JobInvariants
  import opened LeaseProtocol
  import opened LeaseSafety

  // ---------- repair_orphaned_workers ----------

  lemma PromotionSparesOwnership(s: State, ids: set<JobId>, w: WorkerId, id: JobId)
    ensures OwnsRunning(PromoteIds(s, ids, None), w, id) <==> OwnsRunning(s, w, id)
  {
  }

  /** A repair removes exactly the chosen workers from the orphans and touches no other worker. */
  lemma RepairRemovesChosen(s: State, chosen: set<WorkerId>, visited: set<WorkerId>)
    ensures var t := RepairWorkers(s, chosen, visited);
            && OrphanedWorkers(t) == OrphanedWorkers(s) - chosen
            && t.workers.Keys == s.workers.Keys
            && forall w :: w in s.workers ==>
                 if w in chosen then t.workers[w] == ResetRecord(s.workers[w], s.now) else t.workers[w] == s.workers[w]
  {
    var t := RepairWorkers(s, chosen, visited);
    var looked := set w |
      w in visited && w in s.workers && s.workers[w].currentJobId.Some? :: s.workers[w].currentJobId.value;
    forall w | w in s.workers ensures Orphaned(t, w) <==> Orphaned(s, w) && w !in chosen {
      if w !in chosen && s.workers[w].currentJobId.Some? {
        PromotionSparesOwnership(s, looked, w, s.workers[w].currentJobId.value);
      }
    }
  }

  lemma FirstOfCounts(ids: seq<nat>, eligible: set<nat>, limit: Option<int>)
    requires FirstOf(ids, eligible, limit, (a: nat, b: nat) => a <= b)
    ensures |eligible - Elements(ids)| == |eligible| - |ids|
  {
    DistinctCount(ids);
    assert eligible == Elements(ids) + (eligible - Elements(ids));
  }

  /** With limit k, exactly the first min(k, n) of n orphans in id order are repaired. */
  lemma LimitedRepairCounts(s: State, limit: Option<int>, ids: seq<WorkerId>, s': State)
    requires ValidLimit(limit) && RepairOrphansStep(s, limit, ids, s')
    ensures var n := |OrphanedWorkers(s)|;
            |ids| == (if limit.Some? then Min(limit.value, n) else n)
            && OrphanedWorkers(s') == OrphanedWorkers(s) - Elements(ids)
            && |OrphanedWorkers(s')| == n - |ids|
    ensures forall a, b :: a in ids && b in OrphanedWorkers(s') ==> a < b
  {
    hide RepairWorkers, Orphaned;
    RepairRemovesChosen(s, Elements(ids), Visited(s, ids, limit));
    FirstOfCounts(ids, OrphanedWorkers(s), limit);
    var left := OrphanedWorkers(s');
    forall a, b | a in ids && b in left ensures a < b {
      assert a in Elements(ids) && b !in Elements(ids);
    }
  }

  /** A consistent holder that nevertheless is not marked busy: the one thing the repair overlooks. */
  predicate MislabeledHolder(s: State, w: WorkerId) {
    w in s.workers && s.workers[w].currentJobId.Some? && !s.workers[w].status.Busy? && !Orphaned(s, w)
  }

  /** From any state, an unlimited repair re-establishes ownership and leaves no freed worker marked
      busy. It restores "idle exactly when free" unless a consistent holder was mislabeled before. */
  lemma UnlimitedRepairRestoresOwnership(s: State, ids: seq<WorkerId>, s': State)
    requires RepairOrphansStep(s, None, ids, s')
    ensures Owned(s')
    ensures forall w :: w in s'.workers && s'.workers[w].currentJobId.None? ==> s'.workers[w].status.Idle?
    ensures forall w :: w in s.workers && !Orphaned(s, w) ==> s'.workers[w] == s.workers[w]
    ensures IdleIffFree(s') <==> !exists w :: MislabeledHolder(s, w)
  {
    hide RepairWorkers, OwnsRunning;
    RepairRemovesChosen(s, Elements(ids), Visited(s, ids, None));
    FirstOfAll(ids, OrphanedWorkers(s), None, (a: nat, b: nat) => a <= b);
    forall w | w in s'.workers ensures !Orphaned(s', w) {
      assert w !in OrphanedWorkers(s');
    }
    if w :| MislabeledHolder(s, w) {
      assert w !in Elements(ids) && s'.workers[w] == s.workers[w];
    } else {
      forall w | w in s'.workers
        ensures !s'.workers[w].status.Expired? && (s'.workers[w].status.Idle? <==> s'.workers[w].currentJobId.None?)
      {
        assert !MislabeledHolder(s, w);
      }
    }
  }

  lemma NothingToRepair(s: State, visited: set<WorkerId>)
    requires Owned(s)
    ensures RepairWorkers(s, {}, visited) == s
  {
    var t := RepairWorkers(s, {}, visited);
    forall id | id in s.jobs ensures t.jobs[id] == s.jobs[id] {
      var looked := set w |
        w in visited && w in s.workers && s.workers[w].currentJobId.Some? :: s.workers[w].currentJobId.value;
      assert id in looked ==> s.jobs[id].status.Running?;
    }
    assert t.jobs == s.jobs;
    assert t.workers == s.workers;
  }

  predicate LabelFits(w: Worker) {
    !w.status.Expired? && (w.status.Idle? <==> w.currentJobId.None?)
  }

  lemma RepairedJobsOk(c: State, chosen: set<WorkerId>, visited: set<WorkerId>, t: State)
    requires JobsOk(c) && KeysUnique(c) && t == RepairWorkers(c, chosen, visited)
    ensures JobsOk(t) && KeysUnique(t) && t.now == c.now && t.jobs.Keys == c.jobs.Keys
    ensures forall id :: id in c.jobs && t.jobs[id].status.Running? ==> t.jobs[id] == c.jobs[id]
  {
    hide JobOk;
    var looked := set w |
      w in visited && w in c.workers && c.workers[w].currentJobId.Some? :: c.workers[w].currentJobId.value;
    var moves := map id | id in looked :: Promote(None);
    ApplyKeepsJobs(c, moves);
    SameJobsSameOk(Apply(c, moves), t);
    forall id | id in c.jobs && t.jobs[id].status.Running? ensures t.jobs[id] == c.jobs[id] {
      GentleSparesRunning(c.jobs[id], Promote(None), c.now);
    }
  }

  /** Repairing a second time changes nothing. */
  lemma RepairIsIdempotent(s: State, ids: seq<WorkerId>, s': State, limit: Option<int>, again: seq<WorkerId>,
                           s'': State)
    requires ValidLimit(limit) && RepairOrphansStep(s, None, ids, s') && RepairOrphansStep(s', limit, again, s'')
    ensures again == [] && s'' == s'
  {
    hide RepairWorkers;
    UnlimitedRepairRestoresOwnership(s, ids, s');
    assert OrphanedWorkers(s') == {};
    assert again == [] && Elements(again) == {};
    NothingToRepair(s', Visited(s', [], limit));
  }

  /** The witness for the exception: an idle-looking holder of a running job survives every repair. */
  lemma MislabeledHolderSurvives() returns (s: State, s': State)
    ensures RepairOrphansStep(s, None, [], s') && !IdleIffFree(s')
  {
    var job := Claimed(NewJob(WorkflowStart, Payload(None, ""), 100, 0, None, None, None, 1, 30, 0), 1, 30, 0);
    s := State(map[7 := job], map[1 := Worker("worker", Idle, 30, 0, 30, Some(7), 0, 0)], 0);
    assert OwnsRunning(s, 1, 7);
    assert OrphanedWorkers(s) == {};
    s' := RepairWorkers(s, Elements([]), Visited(s, [], None));
    assert 1 in s'.workers && s'.workers[1].status.Idle? && s'.workers[1].currentJobId.Some?;
  }

  // ---------- recover_workflow ----------

  /** has_recovery_actions of workflow_recovery_summary. */
  predicate HasRecoveryActions(s: State, workflow: WorkflowId) {
    exists id :: id in RelatedJobs(s, workflow)
                 && (LeaseExpired(s.jobs[id], s.now) || s.jobs[id].status.Failed? || s.jobs[id].status.DeadLetter?)
  }

  const ALL_ACTIONS := Recovery(true, true, true)

  /** One job under full recovery: reclaimed if expired, rescheduled if chosen, else untouched. */
  lemma RecoveredJob(s: State, workflow: WorkflowId, rescheduled: set<JobId>, id: JobId)
    requires id in s.jobs && rescheduled <= Recoverable(s, workflow, ALL_ACTIONS)
    ensures var t := RecoverIds(s, workflow, ALL_ACTIONS, rescheduled);
            && t.jobs.Keys == s.jobs.Keys && t.now == s.now
            && t.jobs[id] == (if id in RelatedJobs(s, workflow) && LeaseExpired(s.jobs[id], s.now)
                              then Requeued(s.jobs[id], LeaseExpiredFor(s.jobs[id].workerId), s.now)
                              else if id in rescheduled then Rescheduled(s.jobs[id], s.now, s.now)
                              else s.jobs[id])
  {
    hide ChangedFields, TransitionEntry;
  }

  lemma RecoveredRecord(j: Job, now: Time)
    ensures Requeued(j, LeaseExpiredFor(j.workerId), now).status.Queued?
    ensures Rescheduled(j, now, now).status.Queued?
  {
  }

  predicate Settled(j: Job, now: Time) {
    !LeaseExpired(j, now) && !j.status.Failed? && !j.status.DeadLetter?
  }

  /** What full recovery makes of each job: the unrelated ones and the ones left out stay as they
      are, every other related one ends up settled. */
  lemma RecoveredJobs(s: State, workflow: WorkflowId, rescheduled: set<JobId>, t: State)
    requires rescheduled <= Recoverable(s, workflow, ALL_ACTIONS)
    requires t == RecoverIds(s, workflow, ALL_ACTIONS, rescheduled)
    ensures t.jobs.Keys == s.jobs.Keys && t.now == s.now
    ensures forall id :: id in s.jobs && id !in RelatedJobs(s, workflow) ==> t.jobs[id] == s.jobs[id]
    ensures forall id :: id in RelatedJobs(s, workflow) ==>
              if id in Recoverable(s, workflow, ALL_ACTIONS) && id !in rescheduled then t.jobs[id] == s.jobs[id]
              else Settled(t.jobs[id], t.now)
  {
    hide Requeued, Rescheduled;
    assert s.jobs != map[] ==> t.jobs.Keys == s.jobs.Keys && t.now == s.now by {
      if id :| id in s.jobs { RecoveredJob(s, workflow, rescheduled, id); }
    }
    forall id | id in s.jobs
      ensures id !in RelatedJobs(s, workflow) ==> t.jobs[id] == s.jobs[id]
      ensures id in RelatedJobs(s, workflow) ==>
                if id in Recoverable(s, workflow, ALL_ACTIONS) && id !in rescheduled then t.jobs[id] == s.jobs[id]
                else Settled(t.jobs[id], t.now)
    {
      RecoveredJob(s, workflow, rescheduled, id);
      RecoveredRecord(s.jobs[id], s.now);
    }
  }

  /** Full recovery changes no unrelated job, and leaves nothing to recover exactly when the limit
      covers every failed and dead-lettered related job. */
  lemma FullRecoveryIsComplete(s: State, workflow: WorkflowId, limit: Option<int>, ids: seq<JobId>, s': State)
    requires ValidLimit(limit) && RecoverStep(s, workflow, ALL_ACTIONS, limit, ids, s')
    ensures s'.jobs.Keys == s.jobs.Keys
    ensures forall id :: id in s.jobs && id !in RelatedJobs(s, workflow) ==> s'.jobs[id] == s.jobs[id]
    ensures HasRecoveryActions(s', workflow) <==>
              limit.Some? && |Recoverable(s, workflow, ALL_ACTIONS)| > limit.value
  {
    hide Moved, RecoverIds;
    var recoverable, chosen := Recoverable(s, workflow, ALL_ACTIONS), Elements(ids);
    RecoveredJobs(s, workflow, chosen, s');
    DistinctCount(ids);
    if limit.Some? && |recoverable| > limit.value {
      assert !(recoverable <= chosen) by {
        if recoverable <= chosen { SubsetCount(recoverable, chosen); }
      }
      var missed :| missed in recoverable && missed !in chosen;
      assert s'.jobs[missed] == s.jobs[missed] && missed in RelatedJobs(s', workflow);
    } else {
      FirstOfAll(ids, recoverable, limit, (a: nat, b: nat) => CreatedBefore(s.jobs, a, b));
      forall id | id in RelatedJobs(s', workflow) ensures Settled(s'.jobs[id], s'.now) {
        assert id in RelatedJobs(s, workflow);
      }
    }
  }

  /** At the same instant a second full recovery has nothing to do and changes nothing. */
  lemma FullRecoveryIsFixpoint(s: State, workflow: WorkflowId, ids: seq<JobId>, s': State,
                               again: seq<JobId>, s'': State)
    requires RecoverStep(s, workflow, ALL_ACTIONS, None, ids, s')
    requires RecoverStep(s', workflow, ALL_ACTIONS, None, again, s'')
    ensures again == [] && s'' == s'
  {
    hide RecoverIds;
    FullRecoveryIsComplete(s, workflow, None, ids, s');
    forall id | id in RelatedJobs(s', workflow) ensures Settled(s'.jobs[id], s'.now) {
    }
    assert RelatedJobs(s', workflow) * ExpiredJobs(s') == {};
    assert Recoverable(s', workflow, ALL_ACTIONS) == {};
    assert again == [] && Elements(again) == {};
    NothingToRecover(s', workflow);
  }

  lemma NothingToRecover(s: State, workflow: WorkflowId)
    requires RelatedJobs(s, workflow) * ExpiredJobs(s) == {}
    ensures RecoverIds(s, workflow, ALL_ACTIONS, {}) == s
  {
    var t := RecoverIds(s, workflow, ALL_ACTIONS, {});
    assert t.jobs == s.jobs;
    assert t.workers == s.workers;
  }
}
