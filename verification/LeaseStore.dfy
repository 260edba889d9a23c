/** The stores as the runtime keeps them: records rewritten in place by loops. Each method is proved to
    perform the step LeaseProtocol gives for it. */
module LeaseStore {
  import opened Common
  import opened QueueJobs
  import opened JobInvariants
  import opened LeaseProtocol
  import opened LeaseCrash
  import opened LeaseSafety
  import Text

  // ---------- one more record ----------

  lemma ApplyOneMore(s: State, moves: map<JobId, Move>, id: JobId, m: Move)
    requires id in s.jobs && id !in moves
    ensures id in Apply(s, moves).jobs && Apply(s, moves).jobs[id] == s.jobs[id]
    ensures Apply(s, moves[id := m]).jobs == Apply(s, moves).jobs[id := Moved(s.jobs[id], m, s.now)]
  {
  }

  lemma PromoteOneMore(s: State, ids: set<JobId>, id: JobId, reason: Option<Reason>)
    requires id in s.jobs && id !in ids
    ensures id in PromoteIds(s, ids, reason).jobs && PromoteIds(s, ids, reason).jobs[id] == s.jobs[id]
    ensures PromoteIds(s, ids + {id}, reason) ==
              s.(jobs := PromoteIds(s, ids, reason).jobs[id := Promoted(s.jobs[id], reason, s.now)])
  {
    hide Apply;
    var moves: map<JobId, Move> := map k | k in ids :: Promote(reason);
    var more: map<JobId, Move> := map k | k in ids + {id} :: Promote(reason);
    assert more == moves[id := Promote(reason)];
    ApplyOneMore(s, moves, id, Promote(reason));
    ApplyKeepsRest(s, more);
  }

  /** The same along a list without repetitions. */
  lemma PromoteNext(s: State, ids: seq<JobId>, i: nat, reason: Option<Reason>)
    requires i < |ids| && Distinct(ids) && ids[i] in s.jobs
    ensures var done := PromoteIds(s, Elements(ids[..i]), reason).jobs;
            ids[i] in done && done[ids[i]] == s.jobs[ids[i]]
    ensures PromoteIds(s, Elements(ids[..i + 1]), reason) ==
              s.(jobs := PromoteIds(s, Elements(ids[..i]), reason).jobs
                           [ids[i] := Promoted(s.jobs[ids[i]], reason, s.now)])
  {
    hide PromoteIds;
    assert Elements(ids[..i + 1]) == Elements(ids[..i]) + {ids[i]};
    PromoteOneMore(s, Elements(ids[..i]), ids[i], reason);
  }

  lemma ApplyKeepsRest(s: State, moves: map<JobId, Move>)
    ensures Apply(s, moves) == s.(jobs := Apply(s, moves).jobs)
  {
  }

  lemma NothingApplied(s: State, moves: map<JobId, Move>)
    requires moves == map[]
    ensures Apply(s, moves) == s
  {
    assert Apply(s, moves).jobs == s.jobs;
  }

  lemma NoPromotion(s: State, reason: Option<Reason>)
    ensures PromoteIds(s, {}, reason) == s
  {
    var none: set<JobId> := {};
    NothingApplied(s, map id | id in none :: Promote(reason));
  }

  lemma ReclaimOneMore(s: State, ids: set<JobId>, id: JobId)
    requires id in s.jobs && id !in ids
    ensures id in ReclaimJobs(s, ids).jobs && ReclaimJobs(s, ids).jobs[id] == s.jobs[id]
    ensures ReclaimJobs(s, ids).now == s.now
    ensures ReclaimJobs(s, ids + {id}) == ReleaseHolder(AfterRequeue(s, ids, id), s.jobs[id].workerId, id)
  {
    hide Moved;
    var owner := s.jobs[id].workerId;
    var moves, more := RequeueMoves(s, ids), RequeueMoves(s, ids + {id});
    assert more == moves[id := Requeue(LeaseExpiredFor(owner))];
    ApplyOneMore(s, moves, id, Requeue(LeaseExpiredFor(owner)));
    assert AfterRequeue(s, ids, id).jobs == Apply(s, more).jobs by {
      RequeueIsMove(s.jobs[id], LeaseExpiredFor(owner), s.now);
    }
    assert ReclaimJobs(s, ids + {id}).workers == ReleaseHolder(AfterRequeue(s, ids, id), owner, id).workers;
  }

  lemma RequeueIsMove(j: Job, why: Reason, now: Time)
    ensures Moved(j, Requeue(why), now) == Requeued(j, why, now)
  {
  }

  function AfterRequeue(s: State, ids: set<JobId>, id: JobId): State
    requires id in s.jobs
  {
    var t := ReclaimJobs(s, ids);
    t.(jobs := t.jobs[id := Requeued(s.jobs[id], LeaseExpiredFor(s.jobs[id].workerId), s.now)])
  }

  lemma NothingReclaimed(s: State)
    ensures ReclaimJobs(s, {}) == s
  {
    NothingApplied(s, RequeueMoves(s, {}));
    assert ReclaimJobs(s, {}).workers == s.workers;
  }

  // ---------- what single writes amount to ----------

  lemma OneMove(s: State, id: JobId, m: Move)
    requires id in s.jobs
    ensures Apply(s, map[id := m]) == s.(jobs := s.jobs[id := Moved(s.jobs[id], m, s.now)])
  {
    assert Apply(s, map[id := m]).jobs == s.jobs[id := Moved(s.jobs[id], m, s.now)];
  }

  lemma TakeWrites(s: State, w: WorkerId, id: JobId)
    requires w in s.workers && id in s.jobs
    ensures Take(s, w, id) ==
              State(s.jobs[id := Claimed(s.jobs[id], w, s.workers[w].leaseSeconds, s.now)],
                    s.workers[w := Assigned(s.workers[w], id, s.now)], s.now)
  {
    OneMove(s, id, Claim(w, s.workers[w].leaseSeconds));
  }

  lemma EndRunWrites(s: State, w: WorkerId, id: JobId, outcome: Outcome)
    requires w in s.workers && id in s.jobs
    ensures EndRun(s, w, id, outcome) ==
              Release(s.(jobs := s.jobs[id := match outcome
                case Returned(result) => Finished(s.jobs[id], result, s.now)
                case Raised(error) => FailureRecorded(s.jobs[id], error, s.now)]), w)
  {
    OneMove(s, id, match outcome case Returned(result) => Finish(result) case Raised(error) => Fail(error));
  }

  lemma PromotionKeepsWorkers(s: State)
    ensures PromoteAll(s).workers == s.workers && PromoteAll(s).now == s.now
  {
  }

  lemma ClaimedIsOwned(j: Job, w: WorkerId, leaseSeconds: Pos, now: Time)
    ensures var k := Claimed(j, w, leaseSeconds, now);
            k.status.Running? && k.workerId == Some(w) && k.leaseExpiresAt == Some(now + leaseSeconds)
  {
  }

  /** In a listing of the queued jobs, list order is service order. */
  lemma HeadOfListing(s: State, listing: seq<JobId>)
    requires listing != [] && Elements(listing) == QueuedJobs(s)
    requires FirstOf(listing, QueuedJobs(s), None, (a: nat, b: nat) => ListedBefore(s.jobs, a, b))
    ensures HeadOfQueue(s, listing[0])
  {
    assert listing[0] in Elements(listing);
    forall other | other in QueuedJobs(s) ensures ServedBefore(s.jobs[listing[0]], s.jobs[other]) {
      assert other in Elements(listing);
      var k :| 0 <= k < |listing| && listing[k] == other;
      assert k > 0 ==> ListedBefore(s.jobs, listing[0], listing[k]);
    }
  }

  lemma LoadingIsNothing(s: State, id: JobId)
    requires id in s.jobs && !Due(s.jobs[id], s.now)
    ensures LeaseProtocol.LoadJob(s, id) == s
  {
    assert LeaseProtocol.LoadJob(s, id).jobs == s.jobs;
  }

  function ForEach(ids: set<JobId>, m: Move): map<JobId, Move> { map id | id in ids :: m }

  lemma ApplyNext(s: State, ids: seq<JobId>, i: nat, m: Move)
    requires i < |ids| && Distinct(ids) && ids[i] in s.jobs
    ensures var done := Apply(s, ForEach(Elements(ids[..i]), m)).jobs;
            && ids[i] in done && done[ids[i]] == s.jobs[ids[i]]
            && Apply(s, ForEach(Elements(ids[..i + 1]), m)) ==
                 s.(jobs := done[ids[i] := Moved(s.jobs[ids[i]], m, s.now)])
  {
    hide Moved;
    var moves, more := ForEach(Elements(ids[..i]), m), ForEach(Elements(ids[..i + 1]), m);
    assert Elements(ids[..i + 1]) == Elements(ids[..i]) + {ids[i]};
    assert more == moves[ids[i] := m];
    ApplyOneMore(s, moves, ids[i], m);
  }

  lemma RepairWorkersNext(s: State, chosen: set<WorkerId>, visited: set<WorkerId>, w: WorkerId)
    requires w in s.workers && w !in visited && chosen <= visited
    ensures var t := RepairWorkers(s, chosen, visited);
            && t.workers.Keys == s.workers.Keys && t.workers[w] == s.workers[w] && t.now == s.now
            && RepairWorkers(s, chosen, visited + {w}) == LookedAt(t, w)
            && RepairWorkers(s, chosen + {w}, visited + {w}) ==
                 SetWorker(LookedAt(t, w), w, ResetRecord(s.workers[w], s.now))
            && (Orphaned(LookedAt(t, w), w) <==> Orphaned(s, w))
  {
    hide ResetRecord, RepairWorkers, Promoted, LookedAt, Orphaned;
    RepairedWorkers(s, chosen, visited);
    RepairedJobs(s, chosen, visited);
    LookAtOneMore(s, chosen, visited, w);
    ChooseOneMore(s, chosen, visited + {w}, w);
    var u := RepairWorkers(s, chosen, visited + {w});
    RepairedWorkers(s, chosen, visited + {w});
    RepairedJobs(s, chosen, visited + {w});
    forall id | id in s.jobs
      ensures u.jobs[id].status.Running? <==> s.jobs[id].status.Running?
      ensures u.jobs[id].workerId == s.jobs[id].workerId
    {
      PromotingTwice(s.jobs[id], s.now);
    }
    SameStanding(s, u, w);
  }

  lemma LookAtOneMore(s: State, chosen: set<WorkerId>, visited: set<WorkerId>, w: WorkerId)
    requires w in s.workers && w !in chosen
    ensures var t := RepairWorkers(s, chosen, visited);
            w in t.workers && RepairWorkers(s, chosen, visited + {w}) == LookedAt(t, w)
  {
    hide ResetRecord, RepairWorkers, Promoted, LookedAt;
    var t, more := RepairWorkers(s, chosen, visited), RepairWorkers(s, chosen, visited + {w});
    RepairedWorkers(s, chosen, visited);
    RepairedWorkers(s, chosen, visited + {w});
    RepairedJobs(s, chosen, visited);
    RepairedJobs(s, chosen, visited + {w});
    LookedAtJobs(t, w);
    forall id | id in s.jobs ensures more.jobs[id] == LookedAt(t, w).jobs[id] {
      PromotingTwice(s.jobs[id], s.now);
    }
    assert more.jobs == LookedAt(t, w).jobs;
  }

  lemma ChooseOneMore(s: State, chosen: set<WorkerId>, visited: set<WorkerId>, w: WorkerId)
    requires w in s.workers
    ensures RepairWorkers(s, chosen + {w}, visited) ==
              SetWorker(RepairWorkers(s, chosen, visited), w, ResetRecord(s.workers[w], s.now))
  {
    hide ResetRecord, Promoted, Moved;
    var t, more := RepairWorkers(s, chosen, visited), RepairWorkers(s, chosen + {w}, visited);
    assert more.workers == t.workers[w := ResetRecord(s.workers[w], s.now)];
  }

  lemma SameStanding(s: State, u: State, w: WorkerId)
    requires w in s.workers && w in u.workers && u.workers[w] == s.workers[w] && u.jobs.Keys == s.jobs.Keys
    requires forall id :: id in s.jobs ==> (u.jobs[id].status.Running? <==> s.jobs[id].status.Running?)
                                           && u.jobs[id].workerId == s.jobs[id].workerId
    ensures Orphaned(u, w) <==> Orphaned(s, w)
  {
  }

  predicate Referenced(s: State, visited: set<WorkerId>, id: JobId) {
    exists w :: w in visited && w in s.workers && s.workers[w].currentJobId == Some(id)
  }

  lemma RepairedJobs(s: State, chosen: set<WorkerId>, visited: set<WorkerId>)
    ensures var t := RepairWorkers(s, chosen, visited);
            && t.jobs.Keys == s.jobs.Keys && t.now == s.now
            && forall id :: id in s.jobs ==>
                 t.jobs[id] == if Referenced(s, visited, id) then Promoted(s.jobs[id], None, s.now) else s.jobs[id]
  {
    hide Promoted;
  }

  lemma RepairedWorkers(s: State, chosen: set<WorkerId>, visited: set<WorkerId>)
    ensures RepairWorkers(s, chosen, visited).workers ==
              map w | w in s.workers :: if w in chosen then ResetRecord(s.workers[w], s.now) else s.workers[w]
  {
  }

  lemma LookedAtJobs(s: State, w: WorkerId)
    requires w in s.workers
    ensures var u := LookedAt(s, w);
            && u.jobs.Keys == s.jobs.Keys && u.workers == s.workers && u.now == s.now
            && forall id :: id in s.jobs ==>
                 u.jobs[id] == (if s.workers[w].currentJobId == Some(id) then Promoted(s.jobs[id], None, s.now)
                                else s.jobs[id])
  {
    hide Promoted;
  }

  lemma PromotingTwice(j: Job, now: Time)
    ensures Promoted(Promoted(j, None, now), None, now) == Promoted(j, None, now)
    ensures Promoted(j, None, now).status.Running? <==> j.status.Running?
    ensures Promoted(j, None, now).workerId == j.workerId
  {
  }

  lemma VisitedIsScanned(s: State, repaired: seq<WorkerId>, order: seq<WorkerId>, i: nat, limit: Option<int>)
    requires i <= |order| && Elements(order) == s.workers.Keys && Distinct(order)
    requires SortedBy(order, (a: nat, b: nat) => a <= b)
    requires if limit.Some? && |repaired| == limit.value
             then repaired != [] && 0 < i && repaired[|repaired| - 1] == order[i - 1]
             else i == |order|
    ensures Visited(s, repaired, limit) == Elements(order[..i])
  {
    if limit.Some? && |repaired| == limit.value {
      forall w | w in s.workers ensures w in Elements(order[..i]) <==> w <= order[i - 1] {
        assert w in Elements(order);
        var k :| 0 <= k < |order| && order[k] == w;
        assert k < i ==> order[..i][k] == w;
        assert i - 1 < k ==> order[i - 1] <= order[k] && order[i - 1] != order[k];
        if w in order[..i] {
          var m :| 0 <= m < i && order[m] == w;
        }
      }
    } else {
      assert order[..i] == order;
    }
  }

  lemma StaleRepairNext(s: State, repaired: seq<JobId>, id: JobId)
    requires id in s.jobs && id !in repaired
    ensures var t := RepairStaleIds(s, Elements(repaired));
            id in t.jobs && t.jobs[id] == s.jobs[id] && t.now == s.now
            && RepairStaleIds(s, Elements(repaired + [id]))
               == t.(jobs := t.jobs[id := StaleRepaired(s.jobs[id], s.now)])
  {
    hide Apply;
    var moves: map<JobId, Move> := map k | k in Elements(repaired) :: RepairStale;
    var more: map<JobId, Move> := map k | k in Elements(repaired + [id]) :: RepairStale;
    assert Elements(repaired + [id]) == Elements(repaired) + {id};
    assert more == moves[id := RepairStale];
    ApplyOneMore(s, moves, id, RepairStale);
    ApplyKeepsRest(s, moves);
    ApplyKeepsRest(s, more);
  }

  /** Where repair_stale_job_state is after `i` listed jobs. */
  ghost predicate StaleScan(s: State, current: State, repaired: seq<JobId>, listing: seq<JobId>, i: nat) {
    && current == RepairStaleIds(s, Elements(repaired))
    && Scanned(repaired, listing, i, StaleJobs(s), (a: nat, b: nat) => ListedBefore(s.jobs, a, b))
  }

  ghost predicate FullListing(s: State, listing: seq<JobId>) {
    Elements(listing) == s.jobs.Keys
    && FirstOf(listing, s.jobs.Keys, None, (a: nat, b: nat) => ListedBefore(s.jobs, a, b))
  }

  lemma StaleScanStep(s: State, current: State, repaired: seq<JobId>, listing: seq<JobId>, i: nat)
    requires StaleScan(s, current, repaired, listing, i) && i < |listing| && FullListing(s, listing)
    ensures listing[i] in s.jobs && listing[i] in current.jobs && current.jobs[listing[i]] == s.jobs[listing[i]]
    ensures current.now == s.now
    ensures var id := listing[i];
            StaleScan(s, current.(jobs := current.jobs[id := StaleRepaired(s.jobs[id], s.now)]),
                      if Stale(s.jobs[id], s.now) then repaired + [id] else repaired, listing, i + 1)
  {
    hide Stale, Moved;
    var id := listing[i];
    assert id in Elements(listing);
    ScanNext(repaired, listing, i, StaleJobs(s), (a: nat, b: nat) => ListedBefore(s.jobs, a, b));
    if Stale(s.jobs[id], s.now) {
      StaleRepairNext(s, repaired, id);
    } else {
      assert current.jobs == current.jobs[id := StaleRepaired(s.jobs[id], s.now)] by {
        assert StaleRepaired(s.jobs[id], s.now) == s.jobs[id];
      }
    }
  }

  lemma StaleScanStart(s: State, listing: seq<JobId>)
    requires Elements(listing) == s.jobs.Keys
    requires FirstOf(listing, s.jobs.Keys, None, (a: nat, b: nat) => ListedBefore(s.jobs, a, b))
    ensures FullListing(s, listing) && StaleScan(s, s, [], listing, 0)
  {
    NothingStaleRepaired(s);
    ScanStart(listing, StaleJobs(s), (a: nat, b: nat) => ListedBefore(s.jobs, a, b));
  }

  lemma StaleScanDone(s: State, current: State, repaired: seq<JobId>, listing: seq<JobId>, i: nat, limit: Option<int>)
    requires StaleScan(s, current, repaired, listing, i) && FullListing(s, listing) && i <= |listing|
    requires limit.Some? ==> |repaired| <= limit.value
    requires i == |listing| || (limit.Some? && |repaired| == limit.value)
    ensures RepairStaleStep(s, limit, repaired, current)
  {
    ScanDone(repaired, listing, i, s.jobs.Keys, StaleJobs(s), limit, (a: nat, b: nat) => ListedBefore(s.jobs, a, b));
  }

  lemma NothingStaleRepaired(s: State)
    ensures RepairStaleIds(s, Elements([])) == s
  {
    var none := Elements<JobId>([]);
    assert none == {};
    NothingApplied(s, map id | id in none :: RepairStale);
  }

  /** The rescheduling phase sees the chosen jobs as they were before the reclaiming phase. */
  lemma RecoverPhases(s: State, workflow: WorkflowId, actions: Recovery, limit: Option<int>, s1: State,
                      chosen: seq<JobId>)
    requires s1 == if actions.reclaimExpired then ReclaimJobs(s, RelatedJobs(s, workflow) * ExpiredJobs(s)) else s
    requires FirstOf(chosen, Recoverable(s, workflow, actions), limit, (a: nat, b: nat) => CreatedBefore(s.jobs, a, b))
    ensures Distinct(chosen) && Elements(chosen) <= s1.jobs.Keys
    ensures forall id :: id in Elements(chosen) ==> s1.jobs[id].status.Failed? || s1.jobs[id].status.DeadLetter?
    ensures RecoverIds(s, workflow, actions, Elements(chosen)) ==
              Apply(s1, ForEach(Elements(chosen), Reschedule(s1.now)))
  {
    hide ReclaimJobs, Apply, RelatesTo, FirstOf;
    ChosenFacts(chosen, Recoverable(s, workflow, actions), limit, (a: nat, b: nat) => CreatedBefore(s.jobs, a, b));
    var expired, ids := RelatedJobs(s, workflow) * ExpiredJobs(s), Elements(chosen);
    forall id | id in ids
      ensures id in s.jobs && id !in expired && (s.jobs[id].status.Failed? || s.jobs[id].status.DeadLetter?)
    {
      assert id in Recoverable(s, workflow, actions);
    }
    ReclaimingSparesRest(s, expired, ids);
    assert ForEach(ids, Reschedule(s.now)) == (map id | id in ids :: Reschedule(s.now));
  }

  lemma NothingRescheduled(s: State)
    ensures Apply(s, ForEach({}, Reschedule(s.now))) == s
  {
    NothingApplied(s, ForEach({}, Reschedule(s.now)));
  }

  lemma ReclaimingSparesRest(s: State, ids: set<JobId>, others: set<JobId>)
    requires others <= s.jobs.Keys && ids * others == {}
    ensures forall id :: id in others ==> id in ReclaimJobs(s, ids).jobs && ReclaimJobs(s, ids).jobs[id] == s.jobs[id]
    ensures ReclaimJobs(s, ids).now == s.now
  {
    hide Moved;
    forall id | id in others ensures ReclaimJobs(s, ids).jobs[id] == s.jobs[id] {
      assert id in ids ==> id in ids * others;
    }
  }

  /** Where repair_orphaned_workers is after `i` workers. */
  ghost predicate OrphanScan(s: State, current: State, repaired: seq<WorkerId>, order: seq<WorkerId>, i: nat) {
    && Scanned(repaired, order, i, OrphanedWorkers(s), (a: nat, b: nat) => a <= b)
    && current == RepairWorkers(s, Elements(repaired), Elements(order[..i]))
  }

  ghost predicate WorkerOrder(s: State, order: seq<WorkerId>) {
    Elements(order) == s.workers.Keys && FirstOf(order, s.workers.Keys, None, (a: nat, b: nat) => a <= b)
  }

  lemma OrphanScanStart(s: State, order: seq<WorkerId>)
    ensures OrphanScan(s, s, [], order, 0)
  {
    NothingRepaired(s);
    ScanStart(order, OrphanedWorkers(s), (a: nat, b: nat) => a <= b);
  }

  function LookedAt(current: State, w: WorkerId): State
    requires w in current.workers
  {
    var held := current.workers[w].currentJobId;
    if held.Some? && held.value in current.jobs then LeaseProtocol.LoadJob(current, held.value) else current
  }

  lemma OrphanScanStep(s: State, current: State, repaired: seq<WorkerId>, order: seq<WorkerId>, i: nat)
    requires OrphanScan(s, current, repaired, order, i) && i < |order| && WorkerOrder(s, order)
    ensures var w := order[i];
            && w in current.workers && w in LookedAt(current, w).workers
            && LookedAt(current, w).workers == current.workers && LookedAt(current, w).now == current.now
            && if Orphaned(LookedAt(current, w), w)
               then OrphanScan(s, SetWorker(LookedAt(current, w), w, ResetRecord(current.workers[w], current.now)),
                               repaired + [w], order, i + 1)
               else OrphanScan(s, LookedAt(current, w), repaired, order, i + 1)
  {
    hide RepairWorkers, Orphaned, LeaseProtocol.LoadJob;
    var w := order[i];
    assert w in Elements(order);
    ScanSubset(repaired, order, i, OrphanedWorkers(s), (a: nat, b: nat) => a <= b);
    ScanNext(repaired, order, i, OrphanedWorkers(s), (a: nat, b: nat) => a <= b);
    RepairWorkersNext(s, Elements(repaired), Elements(order[..i]), w);
    assert Elements(repaired + [w]) == Elements(repaired) + {w};
    LoadKeepsWorkers(current);
  }

  lemma LoadKeepsWorkers(s: State)
    ensures forall id :: LeaseProtocol.LoadJob(s, id).workers == s.workers && LeaseProtocol.LoadJob(s, id).now == s.now
  {
  }

  lemma OrphanScanDone(s: State, current: State, repaired: seq<WorkerId>, order: seq<WorkerId>, i: nat,
                       limit: Option<int>)
    requires OrphanScan(s, current, repaired, order, i) && WorkerOrder(s, order) && i <= |order|
    requires limit.Some? ==> |repaired| <= limit.value
    requires if limit.Some? && |repaired| == limit.value
             then repaired != [] && 0 < i && repaired[|repaired| - 1] == order[i - 1]
             else i == |order|
    ensures RepairOrphansStep(s, limit, repaired, current)
  {
    hide RepairWorkers, Orphaned;
    SortedFacts(order, s.workers.Keys, (a: nat, b: nat) => a <= b);
    ScanDone(repaired, order, i, s.workers.Keys, OrphanedWorkers(s), limit, (a: nat, b: nat) => a <= b);
    VisitedIsScanned(s, repaired, order, i, limit);
  }

  lemma NothingRepaired(s: State)
    ensures RepairWorkers(s, {}, {}) == s
  {
    var t := RepairWorkers(s, {}, {});
    assert t.jobs == s.jobs && t.workers == s.workers;
  }

  lemma PrunedAreThere(s: State, statuses: Option<seq<Status>>, olderThan: int, pruned: seq<JobId>)
    requires ValidStatuses(statuses) && Elements(pruned) <= PrunableJobs(s, statuses, olderThan)
    ensures forall i :: 0 <= i < |pruned| ==> pruned[i] in s.jobs && !s.jobs[pruned[i]].status.Running?
  {
    assert forall i :: 0 <= i < |pruned| ==> pruned[i] in Elements(pruned);
  }

  lemma ResetIsWrite(s: State, w: WorkerId)
    requires w in s.workers
    ensures WorkerWrite(s, w, ResetRecord(s.workers[w], s.now))
  {
  }

  // ---------- sort keys are total preorders ----------

  lemma ListOrder(jobs: map<JobId, Job>, ids: set<JobId>)
    requires ids <= jobs.Keys
    ensures Preorder(ids, (a: nat, b: nat) => ListedBefore(jobs, a, b))
    ensures Preorder(ids, (a: nat, b: nat) => DueBefore(jobs, a, b))
    ensures Preorder(ids, (a: nat, b: nat) => PrunedBefore(jobs, a, b))
    ensures Preorder(ids, (a: nat, b: nat) => CreatedBefore(jobs, a, b))
  {
  }

  // ---------- the calls as steps of the protocol ----------

  lemma PromotingIsStep(s: State, limit: Option<int>, ids: seq<JobId>, t: State)
    requires if ValidLimit(limit) then PromoteDueStep(s, limit, ids, t) else t == s
    ensures Step(s, PromoteDue(limit), t)
  {
    hide PromoteDueStep;
  }

  lemma ResettingIsStep(s: State, w: WorkerId, reason: string, force: bool, requeue: bool)
    ensures Step(s, WorkerResetOf(w, reason, force, requeue), LeaseProtocol.ResetWorker(s, w, reason, force, requeue).0)
  {
    hide LeaseProtocol.ResetWorker;
  }

  lemma RepairingIsStep(s: State, limit: Option<int>, ids: seq<JobId>, t: State)
    requires if ValidLimit(limit) then RepairStaleStep(s, limit, ids, t) else t == s
    ensures Step(s, RepairStaleState(limit), t)
  {
    hide RepairStaleStep;
  }

  lemma PruningIsStep(s: State, statuses: Option<seq<Status>>, olderThan: int, limit: Option<int>, ids: seq<JobId>,
                      t: State)
    requires if ValidStatuses(statuses) && olderThan >= 0 && ValidLimit(limit)
             then PruneStep(s, statuses, olderThan, limit, ids, t) else t == s
    ensures Step(s, Prune(statuses, olderThan, limit), t)
  {
    hide PruneStep;
  }

  class Store {
    var jobs: map<JobId, Job>
    var workers: map<WorkerId, Worker>
    var now: Time
    /** The states after each record write, as they are on disk if the process stops there. */
    ghost var trail: seq<State>

    ghost function Value(): State
      reads this
    {
      State(jobs, workers, now)
    }

    constructor (start: Time)
      ensures Initial(Value()) && now == start
    {
      jobs, workers, now, trail := map[], map[], start, [];
    }

    method Wait(seconds: nat)
      modifies this
      ensures Value() == old(Value()).(now := old(now) + seconds)
      ensures Step(old(Value()), LeaseProtocol.Wait(seconds), Value())
      ensures Logged(old(trail), trail, old(Value()), Value())
    {
      ghost var s := Value();
      now := now + seconds;
      LogTime(trail, s, now);
      trail := trail + [Value()];
    }

    // ---------- the record writes ----------

    /** update_job: one write of one job's record. */
    method UpdateJob(id: JobId, j: Job, ghost m: Move)
      requires id in jobs && Enabled(jobs[id], m) && j == Moved(jobs[id], m, now)
      requires m.Claim? ==> m.worker in workers && workers[m.worker].currentJobId.None?
      modifies this`jobs, this`trail
      ensures jobs == old(jobs)[id := j]
      ensures Logged(old(trail), trail, old(Value()), Value())
    {
      hide Moved, Enabled;
      LogJob(trail, Value(), id, m);
      jobs := jobs[id := j];
      trail := trail + [Value()];
    }

    /** update_worker: one write of one worker's record. */
    method UpdateWorker(w: WorkerId, r: Worker)
      requires WorkerWrite(Value(), w, r)
      modifies this`workers, this`trail
      ensures workers == old(workers)[w := r]
      ensures Logged(old(trail), trail, old(Value()), Value())
    {
      LogWorker(trail, Value(), w, r);
      workers := workers[w := r];
      trail := trail + [Value()];
    }

    // ---------- reading and promoting ----------

    /** load_job: reading a due job promotes it. */
    method LoadJob(id: JobId) returns (r: Result<Job>)
      modifies this`jobs, this`trail
      ensures if id !in old(jobs) then r == Err(JobNotFound) && Value() == old(Value())
              else Value() == LeaseProtocol.LoadJob(old(Value()), id) && id in jobs && r == Ok(jobs[id])
      ensures Step(old(Value()), LeaseProtocol.GetJob(id), Value())
      ensures Logged(old(trail), trail, old(Value()), Value())
    {
      hide Logged;
      ghost var s := Value();
      LogNothing(trail, s);
      if id !in jobs {
        return Err(JobNotFound);
      }
      NoPromotion(s, None);
      PromoteOneMore(s, {}, id, None);
      assert {} + {id} == {id};
      if Due(jobs[id], now) {
        UpdateJob(id, Updated(jobs[id], jobs[id].(status := Queued), None, now), Promote(None));
      }
      assert jobs == s.jobs[id := Promoted(s.jobs[id], None, now)];
      r := Ok(jobs[id]);
    }

    method PromoteDueJobs(limit: Option<int>) returns (r: Result<seq<JobId>>)
      modifies this`jobs, this`trail
      ensures r.Err? <==> !ValidLimit(limit)
      ensures r.Err? ==> Value() == old(Value())
      ensures r.Ok? ==> PromoteDueStep(old(Value()), limit, r.value, Value())
      ensures limit.None? ==> Value() == PromoteAll(old(Value()))
      ensures Step(old(Value()), LeaseProtocol.PromoteDue(limit), Value())
      ensures Logged(old(trail), trail, old(Value()), Value())
    {
      hide PromoteIds, Updated, Preorder, Logged, Step;
      ghost var s, start := Value(), trail;
      LogNothing(start, s);
      if limit.Some? && limit.value <= 0 {
        PromotingIsStep(s, limit, [], s);
        return Err(InvalidArgument);
      }
      var due := set id | id in jobs && Due(jobs[id], now);
      var snapshot := jobs;
      ListOrder(jobs, due);
      var scheduled := SortAndCut(due, limit, (a: nat, b: nat) => DueBefore(snapshot, a, b));
      NoPromotion(s, Some(ReadyAtElapsed));
      assert Elements(scheduled[..0]) == {};
      for i := 0 to |scheduled|
        invariant Value() == PromoteIds(s, Elements(scheduled[..i]), Some(ReadyAtElapsed))
        invariant Logged(start, trail, s, Value())
      {
        var id := scheduled[i];
        assert id in Elements(scheduled);
        PromoteNext(s, scheduled, i, Some(ReadyAtElapsed));
        ghost var u, mid := Value(), trail;
        UpdateJob(id, Updated(jobs[id], jobs[id].(status := Queued), Some(ReadyAtElapsed), now),
                  Promote(Some(ReadyAtElapsed)));
        LogThen(start, mid, trail, s, u, Value());
      }
      assert scheduled[..|scheduled|] == scheduled;
      PromotingIsStep(s, limit, scheduled, Value());
      r := Ok(scheduled);
    }

    /** list_jobs: unless told otherwise it promotes the due jobs first; then the stored records, with a
        status filter, in list order. */
    method ListJobs(status: Option<Status>, promoteDue: bool) returns (listing: seq<JobId>)
      modifies this`jobs, this`trail
      ensures Value() == if promoteDue then PromoteAll(old(Value())) else old(Value())
      ensures var records := jobs;
              var ids := set id | id in records && (status.None? || records[id].status == status.value);
              Elements(listing) == ids && FirstOf(listing, ids, None, (a: nat, b: nat) => ListedBefore(records, a, b))
      ensures Logged(old(trail), trail, old(Value()), Value())
    {
      hide PromoteIds, PromoteDueStep, Logged;
      LogNothing(trail, Value());
      if promoteDue {
        var promoted := PromoteDueJobs(None);
      }
      var ids := set id | id in jobs && (status.None? || jobs[id].status == status.value);
      var snapshot := jobs;
      ListOrder(jobs, ids);
      listing := SortIds(ids, (a: nat, b: nat) => ListedBefore(snapshot, a, b));
    }

    /** The loop of reclaim_expired_leases and reclaim_related_expired_jobs over a listing. */
    method ReclaimListed(listing: seq<JobId>) returns (reclaimed: seq<JobId>)
      requires Distinct(listing) && Elements(listing) <= jobs.Keys
      modifies this`jobs, this`workers, this`trail
      ensures Value() == ReclaimJobs(old(Value()), Elements(listing) * ExpiredJobs(old(Value())))
      ensures Distinct(reclaimed) && Elements(reclaimed) == Elements(listing) * ExpiredJobs(old(Value()))
      ensures Logged(old(trail), trail, old(Value()), Value())
    {
      hide ReclaimJobs, Requeued, Logged;
      ghost var s, start := Value(), trail;
      var snapshot := jobs;
      NothingReclaimed(s);
      LogNothing(start, s);
      reclaimed := [];
      assert Elements(reclaimed) == {};
      for i := 0 to |listing|
        invariant Distinct(reclaimed) && Elements(reclaimed) == Elements(listing[..i]) * ExpiredJobs(s)
        invariant Value() == ReclaimJobs(s, Elements(reclaimed))
        invariant Logged(start, trail, s, Value())
      {
        var id := listing[i];
        assert id in Elements(listing) && id !in Elements(listing[..i]);
        assert Elements(listing[..i + 1]) == Elements(listing[..i]) + {id};
        ghost var todo := Elements(listing[..i + 1]) * ExpiredJobs(s);
        if LeaseExpired(snapshot[id], now) {
          ReclaimOneMore(s, Elements(reclaimed), id);
          assert todo == Elements(reclaimed) + {id};
          ghost var u, mid := Value(), trail;
          RequeueAndFree(id);
          LogThen(start, mid, trail, s, u, Value());
          assert Elements(reclaimed + [id]) == Elements(reclaimed) + {id};
          reclaimed := reclaimed + [id];
        } else {
          assert todo == Elements(reclaimed);
        }
      }
      assert listing[..|listing|] == listing;
    }

    /** Requeue one expired job, then free the worker that holds it. */
    method RequeueAndFree(id: JobId)
      requires id in jobs && LeaseExpired(jobs[id], now)
      modifies this`jobs, this`workers, this`trail
      ensures var s := old(Value()); var owner := s.jobs[id].workerId;
              Value() == ReleaseHolder(s.(jobs := s.jobs[id := Requeued(s.jobs[id], LeaseExpiredFor(owner), s.now)]),
                                       owner, id)
      ensures Logged(old(trail), trail, old(Value()), Value())
    {
      hide Requeued, Logged, Freed;
      ghost var s, start := Value(), trail;
      var owner := jobs[id].workerId;
      RequeueIsMove(jobs[id], LeaseExpiredFor(owner), now);
      UpdateJob(id, Requeued(jobs[id], LeaseExpiredFor(owner), now), Requeue(LeaseExpiredFor(owner)));
      if owner.Some? && owner.value in workers && workers[owner.value].currentJobId == Some(id) {
        ghost var u, mid := Value(), trail;
        UpdateWorker(owner.value, Freed(workers[owner.value], now));
        LogThen(start, mid, trail, s, u, Value());
      }
    }

    method ReclaimExpiredLeases() returns (reclaimed: seq<JobId>)
      modifies this`jobs, this`workers, this`trail
      ensures Value() == Reclaim(old(Value()))
      ensures Distinct(reclaimed) && Elements(reclaimed) == ExpiredJobs(PromoteAll(old(Value())))
      ensures Step(old(Value()), LeaseProtocol.ReclaimExpired, Value())
      ensures Logged(old(trail), trail, old(Value()), Value())
    {
      hide PromoteIds, ReclaimJobs, PromoteDueStep, Logged;
      ghost var s, start := Value(), trail;
      var running := ListJobs(Some(Running), true);
      assert Elements(running) * ExpiredJobs(Value()) == ExpiredJobs(Value());
      ghost var u, mid := Value(), trail;
      reclaimed := ReclaimListed(running);
      LogThen(start, mid, trail, s, u, Value());
    }

    // ---------- creating records ----------

    /** find_job_by_idempotency_key */
    method FindJobByIdempotencyKey(key: string) returns (found: Option<JobId>)
      ensures found.None? <==> JobsWithKey(Value(), key) == {}
      ensures found.Some? ==> LatestMatch(Value(), key, found.value)
    {
      var matches := set id | id in jobs && jobs[id].idempotencyKey == Some(key);
      if matches == {} {
        return None;
      }
      var snapshot := jobs;
      ListOrder(jobs, matches);
      var order := SortIds(matches, (a: nat, b: nat) => CreatedBefore(snapshot, a, b));
      DistinctCount(order);
      var last := order[|order| - 1];
      assert last in Elements(order);
      forall other | other in matches ensures CreatedBefore(jobs, other, last) {
        assert other in Elements(order);
        var k :| 0 <= k < |order| && order[k] == other;
      }
      found := Some(last);
    }

    /** create_job; `newId` is the fresh uuid. */
    method CreateJob(newId: JobId, q: Request) returns (r: Result<JobId>)
      requires newId !in jobs
      modifies this`jobs, this`trail
      ensures CreateStep(old(Value()), newId, q, Value(), r)
      ensures Step(old(Value()), LeaseProtocol.CreateJob(newId, q), Value())
      ensures Logged(old(trail), trail, old(Value()), Value())
    {
      hide Logged;
      ghost var s, start := Value(), trail;
      LogNothing(start, s);
      if (q.key.Some? && Text.Blank(q.key.value)) || q.maxAttempts <= 0 || q.retryBackoffSeconds < 0 {
        return Err(InvalidArgument);
      }
      if q.key.Some? {
        var existing := FindJobByIdempotencyKey(q.key.value);
        if existing.Some? {
          r := if SameRequest(jobs[existing.value], q) then Ok(existing.value) else Err(KeyConflict);
          assert LatestMatch(Value(), q.key.value, existing.value);
          return;
        }
      }
      var readyAt := BuildReadyAt(q.delaySeconds, q.runAt, now);
      if readyAt.None? {
        return Err(InvalidArgument);
      }
      jobs := jobs[newId := NewJob(q.jobType, q.payload, q.priority, readyAt.value, q.workflowId, q.parentJobId,
                                   q.key, q.maxAttempts, q.retryBackoffSeconds, now)];
      LogNewJob(start, s, newId, q);
      trail := trail + [Value()];
      r := Ok(newId);
    }

    method RegisterWorker(newId: WorkerId, name: string, leaseSeconds: int) returns (r: Result<WorkerId>)
      requires newId !in workers
      modifies this`workers, this`trail
      ensures Value() == Register(old(Value()), newId, name, leaseSeconds)
      ensures r == if leaseSeconds <= 0 then Err(InvalidArgument) else Ok(newId)
      ensures Step(old(Value()), LeaseProtocol.RegisterWorker(newId, name, leaseSeconds), Value())
      ensures Logged(old(trail), trail, old(Value()), Value())
    {
      hide Logged;
      LogNothing(trail, Value());
      if leaseSeconds <= 0 {
        return Err(InvalidArgument);
      }
      UpdateWorker(newId, Worker(name, Idle, leaseSeconds, now, now + leaseSeconds, None, now, now));
      r := Ok(newId);
    }

    // ---------- the worker's side ----------

    method HeartbeatWorker(w: WorkerId) returns (r: Result<()>)
      modifies this`workers, this`trail
      ensures (Value(), r) == Heartbeat(old(Value()), w)
      ensures Step(old(Value()), LeaseProtocol.HeartbeatWorker(w), Value())
      ensures Logged(old(trail), trail, old(Value()), Value())
    {
      hide Logged;
      LogNothing(trail, Value());
      if w !in workers {
        return Err(WorkerNotFound);
      }
      if Lapsed(workers[w], now) && workers[w].currentJobId.Some? {
        return Err(LeaseLapsed);
      }
      UpdateWorker(w, Beaten(workers[w], now));
      r := Ok(());
    }

    /** release_worker */
    method ReleaseWorker(w: WorkerId)
      requires w in workers
      modifies this`workers, this`trail
      ensures Value() == Release(old(Value()), w)
      ensures Logged(old(trail), trail, old(Value()), Value())
    {
      UpdateWorker(w, Freed(workers[w], now));
    }

    method ClaimNextJob(w: WorkerId) returns (r: Result<Option<JobId>>)
      modifies this`jobs, this`workers, this`trail
      ensures ClaimStep(old(Value()), w, Value(), r)
      ensures Step(old(Value()), LeaseProtocol.ClaimNext(w), Value())
      ensures Logged(old(trail), trail, old(Value()), Value())
    {
      hide Reclaim, PromoteDueStep, PromoteIds, Moved, Logged;
      ghost var s, start := Value(), trail;
      var reclaimed := ReclaimExpiredLeases();
      if w !in workers {
        return Err(WorkerNotFound);
      }
      if Lapsed(workers[w], now) && workers[w].currentJobId.Some? {
        return Err(LeaseLapsed);
      }
      ghost var s1, t1 := Value(), trail;
      var beat := HeartbeatWorker(w);
      ghost var s2, t2 := Value(), trail;
      LogThen(start, t1, t2, s, s1, s2);
      if workers[w].currentJobId.Some? {
        return Err(AlreadyAssigned);
      }
      var listing := ListJobs(Some(Queued), true);
      ghost var s3, t3 := Value(), trail;
      LogThen(start, t2, t3, s, s2, s3);
      if listing == [] {
        assert QueuedJobs(Value()) == Elements(listing) == {};
        return Ok(None);
      }
      PromotionKeepsWorkers(s2);
      var id := listing[0];
      assert id in Elements(listing);
      HeadOfListing(s3, listing);
      TakeJob(w, id);
      LogThen(start, t3, trail, s, s3, Value());
      r := Ok(Some(id));
    }

    /** The two writes of a claim: the job first, then the worker. */
    method TakeJob(w: WorkerId, id: JobId)
      requires w in workers && id in jobs && jobs[id].status.Queued? && workers[w].currentJobId.None?
      modifies this`jobs, this`workers, this`trail
      ensures Value() == Take(old(Value()), w, id)
      ensures Logged(old(trail), trail, old(Value()), Value())
    {
      hide Logged, Assigned;
      ghost var s, start := Value(), trail;
      TakeWrites(s, w, id);
      var leaseSeconds := workers[w].leaseSeconds;
      UpdateJob(id, Claimed(jobs[id], w, leaseSeconds, now), Claim(w, leaseSeconds));
      ghost var u, mid := Value(), trail;
      ClaimedIsOwned(s.jobs[id], w, leaseSeconds, now);
      assert OwnsRunning(u, w, id);
      UpdateWorker(w, Assigned(workers[w], id, now));
      LogThen(start, mid, trail, s, u, Value());
    }

    /** The dispatch, its completion or failure, and the release that follows either. */
    method Dispatch(w: WorkerId, id: JobId, outcome: Outcome, elapsed: nat)
      requires w in workers && id in jobs && jobs[id].status.Running?
      modifies this
      ensures Value() == EndRun(old(Value()).(now := old(now) + elapsed), w, id, outcome)
      ensures Logged(old(trail), trail, old(Value()), Value())
    {
      hide Logged, Finished, FailureRecorded, EndRun;
      ghost var s, start := Value(), trail;
      Wait(elapsed);
      ghost var s1, t1 := Value(), trail;
      EndRunWrites(s1, w, id, outcome);
      match outcome {
        case Returned(result) => UpdateJob(id, Finished(jobs[id], result, now), Finish(result));
        case Raised(error) => UpdateJob(id, FailureRecorded(jobs[id], error, now), Fail(error));
      }
      ghost var s2, t2 := Value(), trail;
      LogThen(start, t1, t2, s, s1, s2);
      ReleaseWorker(w);
      LogThen(start, t2, trail, s, s2, Value());
    }

    /** dispatch_job, which takes `elapsed` seconds, is the parameter `outcome`. */
    method RunClaimedJob(w: WorkerId, id: JobId, outcome: Outcome, elapsed: nat) returns (r: Result<()>)
      modifies this
      ensures (Value(), r) == RunClaimed(old(Value()), w, id, outcome, elapsed)
      ensures Step(old(Value()), LeaseProtocol.RunJob(w, id, outcome, elapsed), Value())
      ensures Logged(old(trail), trail, old(Value()), Value())
    {
      hide PromoteIds, EndRun, LeaseExpired, Freed, Logged;
      ghost var s, start := Value(), trail;
      LogNothing(start, s);
      if w !in workers {
        return Err(WorkerNotFound);
      }
      if Lapsed(workers[w], now) {
        return Err(LeaseLapsed);
      }
      var beat := HeartbeatWorker(w);
      ghost var s1, t1 := Value(), trail;
      var loaded := LoadJob(id);
      ghost var s2, t2 := Value(), trail;
      LogThen(start, t1, t2, s, s1, s2);
      if loaded.Err? {
        return Err(JobNotFound);
      }
      var job := loaded.value;
      if job.status.Canceled? {
        if workers[w].currentJobId == Some(id) || !workers[w].status.Idle? {
          ReleaseWorker(w);
          LogThen(start, t2, trail, s, s2, Value());
        }
        return Ok(());
      }
      if workers[w].currentJobId != Some(id) {
        return Err(NotAssigned);
      }
      if !job.status.Running? {
        return Err(NotRunning);
      }
      if job.workerId != Some(w) {
        return Err(NotClaimedByWorker);
      }
      if LeaseExpired(job, now) {
        return Err(LeaseLapsed);
      }
      Dispatch(w, id, outcome, elapsed);
      LogThen(start, t2, trail, s, s2, Value());
      r := Ok(());
    }

    // ---------- the operator's side ----------

    method CancelJobExecution(id: JobId, reason: string) returns (r: Result<()>)
      modifies this`jobs, this`workers, this`trail
      ensures (Value(), r) == CancelExecution(old(Value()), id, reason)
      ensures Step(old(Value()), LeaseProtocol.CancelJob(id, reason), Value())
      ensures Logged(old(trail), trail, old(Value()), Value())
    {
      hide PromoteIds, Apply, Logged;
      ghost var s, start := Value(), trail;
      var loaded := LoadJob(id);
      if loaded.Err? {
        return Err(JobNotFound);
      }
      if !Cancelable(loaded.value) {
        return Err(WrongStatus);
      }
      ghost var s1, t1 := Value(), trail;
      OneMove(s1, id, Cancel(reason));
      UpdateJob(id, CanceledRecord(jobs[id], Text(reason), now), Cancel(reason));
      ghost var s2, t2 := Value(), trail;
      LogThen(start, t1, t2, s, s1, s2);
      var owner := loaded.value.workerId;
      if owner.Some? && owner.value in workers && workers[owner.value].currentJobId == Some(id) {
        ReleaseWorker(owner.value);
        LogThen(start, t2, trail, s, s2, Value());
      }
      r := Ok(());
    }

    method RescheduleJob(id: JobId, delaySeconds: int, runAt: Option<Time>) returns (r: Result<()>)
      modifies this`jobs, this`trail
      ensures (Value(), r) == LeaseProtocol.RescheduleJob(old(Value()), id, delaySeconds, runAt)
      ensures Step(old(Value()), LeaseProtocol.ReschedulingOf(id, delaySeconds, runAt), Value())
      ensures Logged(old(trail), trail, old(Value()), Value())
    {
      hide PromoteIds, Apply, Logged;
      ghost var s, start := Value(), trail;
      var loaded := LoadJob(id);
      if loaded.Err? {
        return Err(JobNotFound);
      }
      if !Reschedulable(loaded.value) {
        return Err(WrongStatus);
      }
      var readyAt := BuildReadyAt(delaySeconds, runAt, now);
      if readyAt.None? {
        return Err(InvalidArgument);
      }
      ghost var s1, t1 := Value(), trail;
      OneMove(s1, id, Reschedule(readyAt.value));
      UpdateJob(id, Rescheduled(jobs[id], readyAt.value, now), Reschedule(readyAt.value));
      LogThen(start, t1, trail, s, s1, Value());
      r := Ok(());
    }

    method ResetWorker(w: WorkerId, reason: string, force: bool, requeueRunningJob: bool) returns (r: Result<()>)
      modifies this`jobs, this`workers, this`trail
      ensures (Value(), r) == LeaseProtocol.ResetWorker(old(Value()), w, reason, force, requeueRunningJob)
      ensures Step(old(Value()), LeaseProtocol.WorkerResetOf(w, reason, force, requeueRunningJob), Value())
      ensures Logged(old(trail), trail, old(Value()), Value())
    {
      hide LeaseProtocol.LoadJob, Apply, Logged, Requeued, Step;
      ghost var s, start := Value(), trail;
      LogNothing(start, s);
      ResettingIsStep(s, w, reason, force, requeueRunningJob);
      if Text.Blank(reason) {
        return Err(InvalidArgument);
      }
      if w !in workers {
        return Err(WorkerNotFound);
      }
      var current := workers[w].currentJobId;
      if current.Some? {
        var loaded := LoadJob(current.value);
        if loaded.Ok? {
          var job := loaded.value;
          if job.status.Running? && job.workerId == Some(w) {
            if requeueRunningJob {
              ghost var s1, t1 := Value(), trail;
              var why := WorkerReset(Text.Strip(reason));
              OneMove(s1, current.value, Requeue(why));
              RequeueIsMove(job, why, now);
              UpdateJob(current.value, Requeued(job, why, now), Requeue(why));
              LogThen(start, t1, trail, s, s1, Value());
            } else if !force {
              return Err(StillHolding);
            }
          } else if !force && !workers[w].status.Idle? {
            return Err(NotIdle);
          }
        }
      }
      ghost var s2, t2 := Value(), trail;
      UpdateWorker(w, ResetRecord(workers[w], now));
      LogThen(start, t2, trail, s, s2, Value());
      r := Ok(());
    }

    // ---------- repair and maintenance ----------

    /** list_workers */
    method ListWorkers() returns (order: seq<WorkerId>)
      ensures WorkerOrder(Value(), order)
    {
      order := SortIds(workers.Keys, (a: nat, b: nat) => a <= b);
    }

    /** The check repair_orphaned_workers makes of one worker, loading the job it refers to. */
    method LookAtWorker(w: WorkerId) returns (orphaned: bool)
      requires w in workers
      modifies this`jobs, this`trail
      ensures Value() == LookedAt(old(Value()), w)
      ensures w in workers && orphaned == Orphaned(Value(), w)
      ensures Logged(old(trail), trail, old(Value()), Value())
    {
      hide LeaseProtocol.LoadJob, Logged;
      LogNothing(trail, Value());
      var current := workers[w].currentJobId;
      if current.None? {
        orphaned := !workers[w].status.Idle?;
      } else {
        var loaded := LoadJob(current.value);
        orphaned := loaded.Err? || !loaded.value.status.Running? || loaded.value.workerId != Some(w);
      }
    }

    /** repair_orphaned_workers: scan the workers in id order, stopping at the limit. */
    method RepairOrphanedWorkers(limit: Option<int>) returns (r: Result<seq<WorkerId>>)
      modifies this`jobs, this`workers, this`trail
      ensures r.Err? <==> !ValidLimit(limit)
      ensures r.Err? ==> Value() == old(Value())
      ensures r.Ok? ==> RepairOrphansStep(old(Value()), limit, r.value, Value())
      ensures limit.None? && Intact(old(Value())) ==> Inv(Value())
      ensures Step(old(Value()), LeaseProtocol.RepairOrphans(limit), Value())
      ensures Logged(old(trail), trail, old(Value()), Value())
    {
      hide OrphanScan, LookedAt, Orphaned, WorkerOrder, RepairOrphansStep, Logged, ResetRecord, Intact, Inv;
      ghost var s, start := Value(), trail;
      LogNothing(start, s);
      if limit.Some? && limit.value <= 0 {
        return Err(InvalidArgument);
      }
      var order := ListWorkers();
      var repaired: seq<WorkerId> := [];
      var i := 0;
      OrphanScanStart(s, order);
      while i < |order| && (limit.None? || |repaired| < limit.value)
        invariant i <= |order| && OrphanScan(s, Value(), repaired, order, i)
        invariant limit.Some? ==> |repaired| <= limit.value
        invariant limit.Some? && |repaired| == limit.value ==> 0 < i && repaired[|repaired| - 1] == order[i - 1]
        invariant Logged(start, trail, s, Value())
        decreases |order| - i
      {
        ghost var s1, t1 := Value(), trail;
        OrphanScanStep(s, Value(), repaired, order, i);
        var orphaned := LookAtWorker(order[i]);
        ghost var s2, t2 := Value(), trail;
        LogThen(start, t1, t2, s, s1, s2);
        if orphaned {
          ResetIsWrite(s2, order[i]);
          UpdateWorker(order[i], ResetRecord(workers[order[i]], now));
          LogThen(start, t2, trail, s, s2, Value());
          repaired := repaired + [order[i]];
        }
        i := i + 1;
      }
      OrphanScanDone(s, Value(), repaired, order, i, limit);
      if limit.None? && Intact(s) { RepairMends(s, repaired, Value()); }
      r := Ok(repaired);
    }

    /** The body of the loop of repair_stale_job_state. */
    method RepairStaleJob(id: JobId) returns (changed: bool)
      requires id in jobs
      modifies this`jobs, this`trail
      ensures jobs == old(jobs)[id := StaleRepaired(old(jobs)[id], now)]
      ensures changed == Stale(old(jobs)[id], now)
      ensures Logged(old(trail), trail, old(Value()), Value())
    {
      hide Logged;
      LogNothing(trail, Value());
      var job := jobs[id];
      var changes := job;
      changed := false;
      if job.status.Scheduled? && StatusForReadyAt(job.readyAt, now).Queued? {
        changes := changes.(status := Queued);
        changed := true;
      }
      if !job.status.Running? {
        if job.workerId.Some? {
          changes := changes.(workerId := None);
          changed := true;
        }
        if job.claimedAt.Some? {
          changes := changes.(claimedAt := None);
          changed := true;
        }
        if job.leaseExpiresAt.Some? {
          changes := changes.(leaseExpiresAt := None);
          changed := true;
        }
      }
      if !changed {
        return;
      }
      UpdateJob(id, Updated(job, changes, Some(StaleStateRepair), now), RepairStale);
    }

    /** repair_stale_job_state: scan the listing, stopping at the limit. */
    method RepairStaleJobState(limit: Option<int>) returns (r: Result<seq<JobId>>)
      modifies this`jobs, this`trail
      ensures r.Err? <==> !ValidLimit(limit)
      ensures r.Err? ==> Value() == old(Value())
      ensures r.Ok? ==> RepairStaleStep(old(Value()), limit, r.value, Value())
      ensures Step(old(Value()), LeaseProtocol.RepairStaleState(limit), Value())
      ensures Logged(old(trail), trail, old(Value()), Value())
    {
      hide StaleScan, FullListing, StaleRepaired, Stale, Logged, Step, RepairStaleStep;
      ghost var s, start := Value(), trail;
      LogNothing(start, s);
      if limit.Some? && limit.value <= 0 {
        RepairingIsStep(s, limit, [], s);
        return Err(InvalidArgument);
      }
      var listing := ListJobs(None, false);
      var repaired: seq<JobId> := [];
      var i := 0;
      StaleScanStart(s, listing);
      while i < |listing| && (limit.None? || |repaired| < limit.value)
        invariant i <= |listing| && StaleScan(s, Value(), repaired, listing, i)
        invariant limit.Some? ==> |repaired| <= limit.value
        invariant Logged(start, trail, s, Value())
        decreases |listing| - i
      {
        ghost var s1, t1 := Value(), trail;
        StaleScanStep(s, Value(), repaired, listing, i);
        var changed := RepairStaleJob(listing[i]);
        LogThen(start, t1, trail, s, s1, Value());
        if changed {
          repaired := repaired + [listing[i]];
        }
        i := i + 1;
      }
      StaleScanDone(s, Value(), repaired, listing, i, limit);
      RepairingIsStep(s, limit, repaired, Value());
      r := Ok(repaired);
    }

    method PruneJobs(statuses: Option<seq<Status>>, olderThanSeconds: int, limit: Option<int>)
      returns (r: Result<seq<JobId>>)
      modifies this`jobs, this`trail
      ensures r.Err? <==> !ValidStatuses(statuses) || olderThanSeconds < 0 || !ValidLimit(limit)
      ensures r.Err? ==> Value() == old(Value())
      ensures r.Ok? ==> PruneStep(old(Value()), statuses, olderThanSeconds, limit, r.value, Value())
      ensures Step(old(Value()), LeaseProtocol.Prune(statuses, olderThanSeconds, limit), Value())
      ensures Logged(old(trail), trail, old(Value()), Value())
    {
      hide Logged, TerminalTimestamp, FirstOf, Step;
      ghost var start := trail;
      LogNothing(start, Value());
      if !ValidStatuses(statuses) || olderThanSeconds < 0 || (limit.Some? && limit.value <= 0) {
        PruningIsStep(Value(), statuses, olderThanSeconds, limit, [], Value());
        return Err(InvalidArgument);
      }
      ghost var s := Value();
      var snapshot := jobs;
      var wanted := if statuses.Some? then statuses.value else [DeadLetter];
      var cutoff := now - olderThanSeconds;
      var candidates := set id | id in jobs && jobs[id].status in wanted && TerminalTimestamp(jobs[id]) <= cutoff;
      assert candidates == PrunableJobs(s, statuses, olderThanSeconds);
      ListOrder(jobs, candidates);
      var pruned := SortAndCut(candidates, limit, (a: nat, b: nat) => PrunedBefore(snapshot, a, b));
      PrunedAreThere(s, statuses, olderThanSeconds, pruned);
      RemoveEach(pruned);
      PruningIsStep(s, statuses, olderThanSeconds, limit, pruned, Value());
      r := Ok(pruned);
    }

    /** The unlinking loop of prune_jobs. */
    method RemoveEach(ids: seq<JobId>)
      requires Distinct(ids) && forall i :: 0 <= i < |ids| ==> ids[i] in jobs && !jobs[ids[i]].status.Running?
      modifies this`jobs, this`trail
      ensures jobs == old(jobs) - Elements(ids)
      ensures Logged(old(trail), trail, old(Value()), Value())
    {
      hide Logged;
      ghost var s, start := Value(), trail;
      LogNothing(start, s);
      for i := 0 to |ids|
        invariant jobs == s.jobs - Elements(ids[..i])
        invariant Logged(start, trail, s, Value())
      {
        assert ids[..i + 1] == ids[..i] + [ids[i]];
        assert ids[i] !in ids[..i];
        ghost var s1, t1 := Value(), trail;
        LogDrop(t1, s1, ids[i]);
        jobs := jobs - {ids[i]};
        trail := trail + [Value()];
        LogThen(start, t1, trail, s, s1, Value());
      }
      assert ids[..|ids|] == ids;
    }

    /** The rescheduling loop of recover_workflow. */
    method RescheduleAll(ids: seq<JobId>)
      requires Distinct(ids) && Elements(ids) <= jobs.Keys
      requires forall id :: id in Elements(ids) ==> jobs[id].status.Failed? || jobs[id].status.DeadLetter?
      modifies this`jobs, this`trail
      ensures Value() == Apply(old(Value()), ForEach(Elements(ids), Reschedule(now)))
      ensures Logged(old(trail), trail, old(Value()), Value())
    {
      hide Apply, Moved, Rescheduled, Logged;
      ghost var s, start := Value(), trail;
      LogNothing(start, s);
      NothingRescheduled(s);
      assert Elements(ids[..0]) == {};
      for i := 0 to |ids|
        invariant Value() == Apply(s, ForEach(Elements(ids[..i]), Reschedule(s.now)))
        invariant Logged(start, trail, s, Value())
      {
        var id := ids[i];
        assert id in Elements(ids);
        ApplyNext(s, ids, i, Reschedule(s.now));
        LoadingIsNothing(Value(), id);
        OneMove(Value(), id, Reschedule(now));
        ghost var s1, t1 := Value(), trail;
        var rescheduled := RescheduleJob(id, 0, None);
        LogThen(start, t1, trail, s, s1, Value());
      }
      assert ids[..|ids|] == ids;
    }

    /** related_jobs_for_workflow */
    method RelatedJobsFor(workflow: WorkflowId) returns (related: seq<JobId>)
      ensures Distinct(related) && Elements(related) == RelatedJobs(Value(), workflow)
      ensures var records := jobs;
              FirstOf(related, RelatedJobs(Value(), workflow), None, (a: nat, b: nat) => CreatedBefore(records, a, b))
    {
      var snapshot := jobs;
      var ids := set id | id in jobs && RelatesTo(jobs[id], workflow);
      ListOrder(jobs, ids);
      related := SortIds(ids, (a: nat, b: nat) => CreatedBefore(snapshot, a, b));
    }

    /** The failed and dead-lettered jobs of the listing that recover_workflow is asked to reschedule. */
    static method ChooseRecoverable(snapshot: map<JobId, Job>, related: seq<JobId>, actions: Recovery,
                                    limit: Option<int>)
      returns (chosen: seq<JobId>)
      requires Elements(related) <= snapshot.Keys && ValidLimit(limit)
      ensures var candidates := set id | id in Elements(related)
                && ((actions.rescheduleFailed && snapshot[id].status.Failed?)
                    || (actions.rescheduleDeadLetter && snapshot[id].status.DeadLetter?));
              FirstOf(chosen, candidates, limit, (a: nat, b: nat) => CreatedBefore(snapshot, a, b))
    {
      var candidates := set id | id in Elements(related)
        && ((actions.rescheduleFailed && snapshot[id].status.Failed?)
            || (actions.rescheduleDeadLetter && snapshot[id].status.DeadLetter?));
      ListOrder(snapshot, candidates);
      chosen := SortAndCut(candidates, limit, (a: nat, b: nat) => CreatedBefore(snapshot, a, b));
    }

    /** recover_workflow, for a workflow that exists; returns the reclaimed and the rescheduled jobs. */
    method RecoverWorkflow(workflow: WorkflowId, actions: Recovery, limit: Option<int>)
      returns (r: Result<(seq<JobId>, seq<JobId>)>)
      modifies this`jobs, this`workers, this`trail
      ensures r.Err? <==> !actions.Any() || !ValidLimit(limit)
      ensures r.Err? ==> Value() == old(Value())
      ensures r.Ok? ==> RecoverStep(old(Value()), workflow, actions, limit, r.value.1, Value())
      ensures r.Ok? && actions.reclaimExpired ==>
                Elements(r.value.0) == RelatedJobs(old(Value()), workflow) * ExpiredJobs(old(Value()))
      ensures Step(old(Value()), LeaseProtocol.RecoverWorkflow(workflow, actions, limit), Value())
      ensures Logged(old(trail), trail, old(Value()), Value())
    {
      hide ReclaimJobs, Apply, FirstOf, RelatesTo, Logged;
      ghost var s, start := Value(), trail;
      LogNothing(start, s);
      if !actions.Any() || (limit.Some? && limit.value <= 0) {
        return Err(InvalidArgument);
      }
      var snapshot := jobs;
      var related := RelatedJobsFor(workflow);
      var reclaimed := [];
      if actions.reclaimExpired {
        reclaimed := ReclaimListed(related);
      }
      ghost var s1, t1 := Value(), trail;
      var chosen := ChooseRecoverable(snapshot, related, actions, limit);
      RecoverPhases(s, workflow, actions, limit, s1, chosen);
      RescheduleAll(chosen);
      LogThen(start, t1, trail, s, s1, Value());
      r := Ok((reclaimed, chosen));
    }
  }
}
