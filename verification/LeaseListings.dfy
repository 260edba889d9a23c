/** The calls that work through a listing up to a limit: which records they choose, in which order, and what they
    make of every record, chosen or not. */
module LeaseListings {
  import opened Common
  import opened QueueJobs
  import opened JobInvariants
  import opened LeaseProtocol
  import opened QueueLaws
  import opened LeaseLaws

  /** As many of the eligible as the limit lets through, each once. */
  ghost predicate Chosen(ids: seq<nat>, eligible: set<nat>, limit: Option<int>) {
    && (forall i, j :: 0 <= i < j < |ids| ==> ids[i] != ids[j])
    && (forall i :: 0 <= i < |ids| ==> ids[i] in eligible)
    && |ids| == (if limit.Some? && limit.value < |eligible| then limit.value else |eligible|)
  }

  // ---------- the orders ----------

  /** The queued before all others; within both, the order in which work is given out. */
  predicate ListedNoLater(x: Job, y: Job) {
    (y.status.Queued? ==> x.status.Queued?) && (x.status.Queued? == y.status.Queued? ==> NotAfter(x, y))
  }

  /** list_jobs and what works through its listing. */
  lemma ListedInOrder(jobs: map<JobId, Job>, ids: set<JobId>, limit: Option<int>, listing: seq<JobId>)
    requires FirstOf(listing, ids, limit, (a: nat, b: nat) => ListedBefore(jobs, a, b)) && ids <= jobs.Keys
    ensures Chosen(listing, ids, limit)
    ensures forall i, j :: 0 <= i < j < |listing| ==> ListedNoLater(jobs[listing[i]], jobs[listing[j]])
    ensures forall i, b :: 0 <= i < |listing| && b in ids && b !in listing ==>
              ListedNoLater(jobs[listing[i]], jobs[b])
  {
    ChosenFirst(listing, ids, limit, (a: nat, b: nat) => ListedBefore(jobs, a, b));
  }

  lemma ChosenFirst(ids: seq<nat>, eligible: set<nat>, limit: Option<int>, before: (nat, nat) -> bool)
    requires FirstOf(ids, eligible, limit, before)
    ensures Chosen(ids, eligible, limit)
    ensures forall i, j :: 0 <= i < j < |ids| ==> before(ids[i], ids[j])
    ensures forall i, b :: 0 <= i < |ids| && b in eligible && b !in ids ==> before(ids[i], b)
  {
    assert forall i :: 0 <= i < |ids| ==> ids[i] in Elements(ids);
  }

  /** The earlier time, then the higher priority, then the earlier creation. */
  predicate DueNoLater(x: Job, y: Job) {
    && x.readyAt <= y.readyAt
    && (x.readyAt == y.readyAt ==> x.priority >= y.priority)
    && (x.readyAt == y.readyAt && x.priority == y.priority ==> x.createdAt <= y.createdAt)
  }

  predicate EarlierOrSmaller(s: Time, a: nat, t: Time, b: nat) { s < t || (s == t && a <= b) }

  // ---------- the arguments ----------

  /** The arguments of the listed calls that are refused: a limit that is not positive, an empty list of statuses or
      one with a status in which a job has not ended, and a recovery that asks for nothing. */
  lemma ArgumentsLaw(limit: Option<int>, statuses: Option<seq<Status>>, actions: Recovery)
    ensures ValidLimit(limit) <==> limit.None? || limit.value >= 1
    ensures ValidStatuses(statuses) <==>
              statuses.None?
              || (|statuses.value| >= 1
                  && forall x :: x in statuses.value ==> x in {Completed, Failed, DeadLetter, Canceled})
    ensures !actions.Any() <==> actions == Recovery(false, false, false)
  {
  }

  // ---------- promoting what is due ----------

  lemma PromoteDueLaw(s: State, limit: Option<int>, ids: seq<JobId>, s': State)
    requires PromoteDueStep(s, limit, ids, s')
    ensures var due := set id | id in s.jobs && s.jobs[id].status.Scheduled? && s.jobs[id].readyAt <= s.now;
            && Chosen(ids, due, limit)
            && (forall i, j :: 0 <= i < j < |ids| ==> DueNoLater(s.jobs[ids[i]], s.jobs[ids[j]]))
            && (forall i, b :: 0 <= i < |ids| && b in due && b !in ids ==> DueNoLater(s.jobs[ids[i]], s.jobs[b]))
            && s' == s.(jobs := s'.jobs) && s'.jobs.Keys == s.jobs.Keys
            && forall id :: id in s.jobs ==>
                 if id in ids then PromotedIfDue(s.jobs[id], s'.jobs[id], s.now) else s'.jobs[id] == s.jobs[id]
  {
    hide PromoteIds, FirstOf, PromotedIfDue;
    var due := set id | id in s.jobs && s.jobs[id].status.Scheduled? && s.jobs[id].readyAt <= s.now;
    assert due == DueJobs(s);
    ChosenFirst(ids, due, limit, (a: nat, b: nat) => DueBefore(s.jobs, a, b));
    PromoteIdsLaw(s, Elements(ids), Some(ReadyAtElapsed));
  }

  // ---------- repairing workers ----------

  /** A worker and what it is supposed to do disagree: busy without a job, or with a job that is not known, does
      not run or names another worker. */
  predicate Astray(s: State, w: WorkerId)
    requires w in s.workers
  {
    if s.workers[w].currentJobId.None? then !s.workers[w].status.Idle? else !RunsItsJob(s, w)
  }

  /** The scan looks at a worker: it goes by id and stops at the last one it repairs, once the limit is reached. */
  predicate LookedAt(ids: seq<WorkerId>, limit: Option<int>, w: WorkerId) {
    if limit.Some? && |ids| == limit.value && ids != [] then w <= ids[|ids| - 1] else true
  }

  /** A repair chooses the first workers that are astray, by id. */
  lemma RepairOrphansChoice(s: State, limit: Option<int>, ids: seq<WorkerId>, s': State)
    requires RepairOrphansStep(s, limit, ids, s')
    ensures var astray := set w | w in s.workers && Astray(s, w);
            && Chosen(ids, astray, limit)
            && (forall i, j :: 0 <= i < j < |ids| ==> ids[i] < ids[j])
            && (forall i, b :: 0 <= i < |ids| && b in astray && b !in ids ==> ids[i] < b)
  {
    hide FirstOf, RepairWorkers;
    var astray := set w | w in s.workers && Astray(s, w);
    assert astray == OrphanedWorkers(s);
    ChosenFirst(ids, astray, limit, (a: nat, b: nat) => a <= b);
  }

  /** The chosen workers are as good as new, the others stay. Of the jobs, those are promoted that are due and held
      by a worker the scan looked at. */
  lemma RepairOrphansLaw(s: State, limit: Option<int>, ids: seq<WorkerId>, s': State)
    requires RepairOrphansStep(s, limit, ids, s')
    ensures s'.now == s.now && s'.workers.Keys == s.workers.Keys && s'.jobs.Keys == s.jobs.Keys
    ensures forall w :: w in s.workers ==>
              s'.workers[w] == if w in ids then Fresh(s.workers[w], s.now) else s.workers[w]
    ensures forall id :: id in s.jobs ==>
              if exists w :: w in s.workers && LookedAt(ids, limit, w) && s.workers[w].currentJobId == Some(id)
              then PromotedIfDue(s.jobs[id], s'.jobs[id], s.now) else s'.jobs[id] == s.jobs[id]
  {
    hide FirstOf, PromotedIfDue, PromoteIds, LookedAt, Orphaned, OrphanedWorkers;
    var visited := Visited(s, ids, limit);
    VisitedAreLookedAt(s, ids, limit);
    var looked := set w |
      w in visited && w in s.workers && s.workers[w].currentJobId.Some? :: s.workers[w].currentJobId.value;
    PromoteIdsLaw(s, looked, None);
    assert s'.jobs == PromoteIds(s, looked, None).jobs;
  }

  lemma VisitedAreLookedAt(s: State, ids: seq<WorkerId>, limit: Option<int>)
    ensures forall w :: w in s.workers ==> (w in Visited(s, ids, limit) <==> LookedAt(ids, limit, w))
  {
  }

  // ---------- repairing stale jobs ----------

  /** A scheduled job whose time has come, or one that does not run and has traces of a run. */
  predicate OutOfDate(j: Job, now: Time) {
    || (j.status.Scheduled? && j.readyAt <= now)
    || (!j.status.Running? && !(j.workerId.None? && j.claimedAt.None? && j.leaseExpiresAt.None?))
  }

  lemma StaleIsOutOfDate(s: State)
    ensures forall id :: id in StaleJobs(s) <==> id in s.jobs && OutOfDate(s.jobs[id], s.now)
  {
  }

  /** Queued if its time has come, and without a worker. */
  predicate Mended(j: Job, k: Job, now: Time) {
    k == j.(status := if j.status.Scheduled? && j.readyAt <= now then Queued else j.status, workerId := None,
            claimedAt := None, leaseExpiresAt := None, updatedAt := now, history := k.history)
  }

  lemma StaleIsMended(j: Job, now: Time)
    requires OutOfDate(j, now)
    ensures Mended(j, StaleRepaired(j, now), now)
  {
    hide StaleRepaired;
    RepairedFields(j, now);
  }

  lemma RepairStaleChoice(s: State, limit: Option<int>, ids: seq<JobId>, s': State)
    requires RepairStaleStep(s, limit, ids, s')
    ensures var stale := set id | id in s.jobs && OutOfDate(s.jobs[id], s.now);
            && Chosen(ids, stale, limit)
            && (forall i, j :: 0 <= i < j < |ids| ==> ListedNoLater(s.jobs[ids[i]], s.jobs[ids[j]]))
            && (forall i, b :: 0 <= i < |ids| && b in stale && b !in ids ==>
                  ListedNoLater(s.jobs[ids[i]], s.jobs[b]))
  {
    hide FirstOf, RepairStaleIds, ListedBefore, ListedNoLater, Stale, Chosen, OutOfDate;
    var stale := set id | id in s.jobs && OutOfDate(s.jobs[id], s.now);
    StaleIsOutOfDate(s);
    assert stale == StaleJobs(s);
    ListedInOrder(s.jobs, stale, limit, ids);
  }

  /** The first stale jobs in the order of the listing are mended, all other records stay. */
  lemma RepairStaleLaw(s: State, limit: Option<int>, ids: seq<JobId>, s': State)
    requires RepairStaleStep(s, limit, ids, s')
    ensures s' == s.(jobs := s'.jobs) && s'.jobs.Keys == s.jobs.Keys
    ensures forall id :: id in s.jobs ==>
              if id in ids then Mended(s.jobs[id], s'.jobs[id], s.now) else s'.jobs[id] == s.jobs[id]
  {
    hide StaleRepaired, ListedBefore, ListedNoLater, OutOfDate, Mended, Stale;
    StaleIsOutOfDate(s);
    forall id | id in s.jobs && id in ids ensures Mended(s.jobs[id], StaleRepaired(s.jobs[id], s.now), s.now) {
      assert id in Elements(ids);
      StaleIsMended(s.jobs[id], s.now);
    }
    assert forall id :: id in ids <==> id in Elements(ids);
  }

  // ---------- pruning ----------

  /** When a job ended: dead-lettered and canceled jobs say so, all others go by their last update. */
  lemma EndTimeLaw(j: Job)
    ensures TerminalTimestamp(j) ==
            match j.status
            case DeadLetter => (match j.deadLetteredAt case Some(t) => t case None => j.updatedAt)
            case Canceled => (match j.canceledAt case Some(t) => t case None => j.updatedAt)
            case _ => j.updatedAt
  {
  }

  /** Of the jobs in the given statuses, dead-lettered ones if none are given, that ended at least so long ago, the
      first to have ended are removed, up to the limit. All other records stay. */
  lemma PruneLaw(s: State, statuses: Option<seq<Status>>, olderThan: int, limit: Option<int>, ids: seq<JobId>,
                 s': State)
    requires PruneStep(s, statuses, olderThan, limit, ids, s')
    ensures var ended := set id | id in s.jobs && s.now - TerminalTimestamp(s.jobs[id]) >= olderThan
                             && (match statuses
                                 case Some(wanted) => s.jobs[id].status in wanted
                                 case None => s.jobs[id].status.DeadLetter?);
            && Chosen(ids, ended, limit)
            && (forall i, j :: 0 <= i < j < |ids| ==>
                  var x, y := s.jobs[ids[i]], s.jobs[ids[j]];
                  EarlierOrSmaller(TerminalTimestamp(x), ids[i], TerminalTimestamp(y), ids[j]))
            && (forall i, b :: 0 <= i < |ids| && b in ended && b !in ids ==>
                  EarlierOrSmaller(TerminalTimestamp(s.jobs[ids[i]]), ids[i], TerminalTimestamp(s.jobs[b]), b))
            && s'.workers == s.workers && s'.now == s.now
            && (forall id :: id in s'.jobs <==> id in s.jobs && id !in ids)
            && (forall id :: id in s'.jobs ==> s'.jobs[id] == s.jobs[id])
  {
    hide FirstOf, TerminalTimestamp;
    var ended := set id | id in s.jobs && s.now - TerminalTimestamp(s.jobs[id]) >= olderThan
                       && (match statuses
                           case Some(wanted) => s.jobs[id].status in wanted
                           case None => s.jobs[id].status.DeadLetter?);
    assert ended == PrunableJobs(s, statuses, olderThan);
    ChosenFirst(ids, ended, limit, (a: nat, b: nat) => PrunedBefore(s.jobs, a, b));
    forall id | id in s.jobs ensures id in ids <==> id in Elements(ids) {}
  }

  // ---------- recovering a workflow ----------

  /** The job names the workflow: itself, in its payload or in its result. */
  predicate BelongsTo(j: Job, workflow: WorkflowId) {
    Some(workflow) in {j.workflowId, j.payload.workflowId}
    || match j.result case Some(x) => x.workflowId == Some(workflow) case None => false
  }

  /** A job that recover_workflow would start afresh. */
  predicate Lost(j: Job, workflow: WorkflowId, actions: Recovery) {
    && BelongsTo(j, workflow)
    && ((j.status.Failed? && actions.rescheduleFailed) || (j.status.DeadLetter? && actions.rescheduleDeadLetter))
  }

  /** Recovery starts afresh the first jobs of the workflow, by creation and up to the limit, that have failed or
      are dead-lettered, as asked for. */
  lemma RecoverChoice(s: State, workflow: WorkflowId, actions: Recovery, limit: Option<int>, ids: seq<JobId>, s': State)
    requires RecoverStep(s, workflow, actions, limit, ids, s')
    ensures var lost := set id | id in s.jobs && Lost(s.jobs[id], workflow, actions);
            && Chosen(ids, lost, limit)
            && (forall i, j :: 0 <= i < j < |ids| ==>
                  EarlierOrSmaller(s.jobs[ids[i]].createdAt, ids[i], s.jobs[ids[j]].createdAt, ids[j]))
            && (forall i, b :: 0 <= i < |ids| && b in lost && b !in ids ==>
                  EarlierOrSmaller(s.jobs[ids[i]].createdAt, ids[i], s.jobs[b].createdAt, b))
  {
    hide FirstOf, RecoverIds, Lost, Chosen;
    SameRelation(s, workflow, actions);
    var lost := set id | id in s.jobs && Lost(s.jobs[id], workflow, actions);
    assert lost == Recoverable(s, workflow, actions);
    ChosenFirst(ids, lost, limit, (a: nat, b: nat) => CreatedBefore(s.jobs, a, b));
    assert Chosen(ids, lost, limit);
    assert forall i :: 0 <= i < |ids| ==> ids[i] in lost by { ChosenAreEligible(ids, lost, limit); }
  }

  lemma ChosenAreEligible(ids: seq<nat>, eligible: set<nat>, limit: Option<int>)
    requires Chosen(ids, eligible, limit)
    ensures forall i :: 0 <= i < |ids| ==> ids[i] in eligible
  {
  }

  /** If asked for, the overdue jobs of the workflow are back in the queue; those chosen start afresh now; all other
      jobs stay, and so do the workers but those that held an overdue job of the workflow. */
  lemma RecoverLaw(s: State, workflow: WorkflowId, actions: Recovery, limit: Option<int>, ids: seq<JobId>, s': State)
    requires RecoverStep(s, workflow, actions, limit, ids, s')
    ensures s'.now == s.now && s'.jobs.Keys == s.jobs.Keys && s'.workers.Keys == s.workers.Keys
    ensures forall id :: id in s.jobs ==>
              var j, k := s.jobs[id], s'.jobs[id];
              if actions.reclaimExpired && BelongsTo(j, workflow) && Overdue(j, s.now)
              then BackInQueue(j, k, LeaseExpiredFor(j.workerId), s.now)
              else if id in ids then Afresh(j, k, s.now, s.now) else k == j
    ensures forall w :: w in s.workers ==>
              var held := s.workers[w].currentJobId;
              if actions.reclaimExpired && held.Some? && held.value in s.jobs
                 && BelongsTo(s.jobs[held.value], workflow) && Overdue(s.jobs[held.value], s.now)
                 && s.jobs[held.value].workerId == Some(w)
              then s'.workers[w] == LetGo(s.workers[w], s.now) else s'.workers[w] == s.workers[w]
  {
    hide FirstOf, ReclaimJobs, BackInQueue, Afresh, BelongsTo, Overdue, Recoverable, Lost, RelatesTo, ExpiredJobs;
    hide Moved;
    SameRelation(s, workflow, actions);
    RecoverChoice(s, workflow, actions, limit, ids, s');
    var expired := RelatedJobs(s, workflow) * ExpiredJobs(s);
    OverdueRuns(s, expired, workflow);
    ReclaimJobsLaw(s, expired);
    var s1 := if actions.reclaimExpired then ReclaimJobs(s, expired) else s;
    assert s' == Apply(s1, map id | id in Elements(ids) :: Reschedule(s.now));
    forall id | id in s.jobs && id in ids
      ensures id !in expired && Afresh(s.jobs[id], s'.jobs[id], s.now, s.now)
    {
      LostIsNotOverdue(s.jobs[id], workflow, actions, s.now);
      RescheduledFields(s.jobs[id], s.now, s.now);
      assert id in Elements(ids);
    }
  }

  lemma OverdueRuns(s: State, ids: set<JobId>, workflow: WorkflowId)
    requires ids == RelatedJobs(s, workflow) * ExpiredJobs(s)
    ensures forall id :: id in ids && id in s.jobs ==> s.jobs[id].status.Running?
  {
  }

  lemma LostIsNotOverdue(j: Job, workflow: WorkflowId, actions: Recovery, now: Time)
    requires Lost(j, workflow, actions)
    ensures !Overdue(j, now) && (j.status.Failed? || j.status.DeadLetter?)
    ensures Moved(j, Reschedule(now), now) == Rescheduled(j, now, now)
  {
  }

  lemma SameRelation(s: State, workflow: WorkflowId, actions: Recovery)
    ensures Recoverable(s, workflow, actions) == set id | id in s.jobs && Lost(s.jobs[id], workflow, actions)
    ensures forall id :: id in RelatedJobs(s, workflow) * ExpiredJobs(s) <==>
              id in s.jobs && BelongsTo(s.jobs[id], workflow) && Overdue(s.jobs[id], s.now)
  {
  }
}
