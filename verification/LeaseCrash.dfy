/** What a crash between two record writes leaves, and that an unlimited repair mends it. */
module LeaseCrash {
  import opened Common
  import opened QueueJobs
  import opened JobInvariants
  import opened LeaseProtocol
  import opened LeaseSafety
  import opened LeaseRecovery

  // ---------- what an unlimited repair can mend ----------

  predicate WorkerFits(s: State, w: WorkerId)
    requires w in s.workers
  {
    LeaseFits(s, w) && LabelFits(s.workers[w])
  }

  /** The job records are in order, and every worker record fits them or is one the repair resets. */
  ghost predicate Mendable(s: State) {
    && JobsOk(s) && KeysUnique(s)
    && forall w :: w in s.workers ==> Orphaned(s, w) || WorkerFits(s, w)
  }

  lemma UnorphanedSame(c: State, t: State, w: WorkerId)
    requires w in c.workers && w in t.workers && t.workers[w] == c.workers[w] && !Orphaned(c, w) && t.now == c.now
    requires t.jobs.Keys == c.jobs.Keys
    requires forall id :: id in c.jobs && t.jobs[id].status.Running? ==> t.jobs[id] == c.jobs[id]
    requires !Orphaned(t, w)
    ensures WorkerFits(t, w) <==> WorkerFits(c, w)
  {
  }

  lemma ResetFits(t: State, w: WorkerId, r: Worker)
    requires w in t.workers && t.workers[w] == ResetRecord(r, t.now)
    ensures WorkerFits(t, w)
  {
  }

  lemma SafeParts(t: State)
    requires JobsOk(t) && KeysUnique(t) && Owned(t)
    ensures Inv(t) <==> forall w :: w in t.workers ==> WorkerFits(t, w)
  {
    hide JobsOk, KeysUnique, Owned;
    if forall w :: w in t.workers ==> WorkerFits(t, w) {
      assert LeasesNested(t) && IdleIffFree(t);
    }
    if Inv(t) {
      forall w | w in t.workers ensures WorkerFits(t, w) {
        assert LeaseFits(t, w);
      }
    }
  }

  /** Job records in order, an unlimited repair restores the whole invariant exactly when the state was
      mendable. */
  lemma RepairMendsExactly(c: State, ids: seq<WorkerId>, t: State)
    requires JobsOk(c) && KeysUnique(c) && RepairOrphansStep(c, None, ids, t)
    ensures Inv(t) <==> Mendable(c)
  {
    hide JobsOk, KeysUnique, RepairWorkers, Orphaned, WorkerFits;
    RepairedJobsOk(c, Elements(ids), Visited(c, ids, None), t);
    UnlimitedRepairRestoresOwnership(c, ids, t);
    RepairRemovesChosen(c, Elements(ids), Visited(c, ids, None));
    FirstOfAll(ids, OrphanedWorkers(c), None, (a: nat, b: nat) => a <= b);
    SafeParts(t);
    forall w | w in c.workers ensures WorkerFits(t, w) <==> Orphaned(c, w) || WorkerFits(c, w) {
      if Orphaned(c, w) {
        assert w in OrphanedWorkers(c);
        ResetFits(t, w, c.workers[w]);
      } else {
        assert w !in OrphanedWorkers(t);
        UnorphanedSame(c, t, w);
      }
    }
  }

  // ---------- single-record writes ----------

  /** A write of one job record. */
  function PutJob(s: State, id: JobId, j: Job): State { s.(jobs := s.jobs[id := j]) }

  /** The jobs of two states are the same but for one record, which is not running afterwards unless it is
      as it was, or newly claimed by a worker that holds nothing. */
  lemma JobWriteMends(s: State, id: JobId, m: Move)
    requires Mendable(s) && id in s.jobs && Enabled(s.jobs[id], m)
    requires m.Claim? ==> m.worker in s.workers && s.workers[m.worker].currentJobId.None?
    ensures Mendable(PutJob(s, id, Moved(s.jobs[id], m, s.now)))
  {
    hide JobOk;
    var t := PutJob(s, id, Moved(s.jobs[id], m, s.now));
    MoveKeepsJobOk(s.jobs[id], m, s.now);
    MoveKeepsIdentity(s.jobs[id], m, s.now);
    forall w | w in t.workers ensures Orphaned(t, w) || WorkerFits(t, w) {
      JobWriteKeepsWorker(s, id, m, w);
    }
    KeysStay(s, id, Moved(s.jobs[id], m, s.now));
  }

  lemma KeysStay(s: State, id: JobId, j: Job)
    requires KeysUnique(s) && id in s.jobs && j.idempotencyKey == s.jobs[id].idempotencyKey
    ensures KeysUnique(PutJob(s, id, j))
  {
    var t := PutJob(s, id, j);
    forall a, b | a in t.jobs && b in t.jobs && SameKey(t.jobs[a], t.jobs[b]) ensures a == b {
      assert SameKey(s.jobs[a], s.jobs[b]);
    }
  }

  lemma LeftRunning(j: Job, m: Move, now: Time)
    requires Enabled(j, m)
    ensures var k := Moved(j, m, now); k.status.Running? ==> k == j || (m.Claim? && k.workerId == Some(m.worker))
  {
  }

  lemma JobWriteKeepsWorker(s: State, id: JobId, m: Move, w: WorkerId)
    requires id in s.jobs && Enabled(s.jobs[id], m) && w in s.workers && (Orphaned(s, w) || WorkerFits(s, w))
    requires m.Claim? ==> m.worker in s.workers && s.workers[m.worker].currentJobId.None?
    ensures var t := PutJob(s, id, Moved(s.jobs[id], m, s.now)); Orphaned(t, w) || WorkerFits(t, w)
  {
    hide Moved, Enabled;
    LeftRunning(s.jobs[id], m, s.now);
  }

  predicate ClockOk(r: Worker, now: Time) {
    r.lastHeartbeatAt <= now && r.leaseExpiresAt == r.lastHeartbeatAt + r.leaseSeconds
  }

  /** What every crash leaves: a mendable state in which the worker records keep their clocks. */
  ghost predicate Intact(s: State) {
    Mendable(s) && forall w :: w in s.workers ==> ClockOk(s.workers[w], s.now)
  }

  lemma SafeIsIntact(s: State)
    requires Inv(s)
    ensures Intact(s)
  {
    hide JobsOk, KeysUnique, Owned;
    forall w | w in s.workers ensures ClockOk(s.workers[w], s.now) && (Orphaned(s, w) || WorkerFits(s, w)) {
      assert LeaseFits(s, w);
    }
  }

  lemma JobWriteStaysIntact(s: State, id: JobId, m: Move)
    requires Intact(s) && id in s.jobs && Enabled(s.jobs[id], m)
    requires m.Claim? ==> m.worker in s.workers && s.workers[m.worker].currentJobId.None?
    ensures Intact(PutJob(s, id, Moved(s.jobs[id], m, s.now)))
  {
    hide Mendable, Moved, Enabled;
    JobWriteMends(s, id, m);
  }

  lemma NewJobStaysIntact(s: State, id: JobId, q: Request)
    requires Intact(s) && id !in s.jobs && ValidRequest(q) && BuildReadyAt(q.delaySeconds, q.runAt, s.now).Some?
    requires q.key.Some? ==> JobsWithKey(s, q.key.value) == {}
    ensures Intact(PutJob(s, id, Requested(s, q)))
  {
    hide JobOk;
    var t, j := PutJob(s, id, Requested(s, q)), Requested(s, q);
    NewJobOk(j, j.readyAt, s.now);
    assert q.key.Some? ==>
        forall c :: c in JobsWithKey(s, q.key.value) <==> c in s.jobs && s.jobs[c].idempotencyKey == q.key;
    forall a, b | a in t.jobs && b in t.jobs && SameKey(t.jobs[a], t.jobs[b]) ensures a == b {
      assert a != id && b != id ==> SameKey(s.jobs[a], s.jobs[b]);
    }
    forall w | w in t.workers ensures Orphaned(t, w) || WorkerFits(t, w) {
      assert Orphaned(s, w) || WorkerFits(s, w);
    }
  }

  lemma DropStaysIntact(s: State, id: JobId)
    requires Intact(s) && id in s.jobs && !s.jobs[id].status.Running?
    ensures Intact(s.(jobs := s.jobs - {id}))
  {
    hide JobOk;
    var t := s.(jobs := s.jobs - {id});
    forall a, b | a in t.jobs && b in t.jobs && SameKey(t.jobs[a], t.jobs[b]) ensures a == b {
      assert SameKey(s.jobs[a], s.jobs[b]);
    }
    forall w | w in t.workers ensures Orphaned(t, w) || WorkerFits(t, w) {
      assert Orphaned(s, w) || WorkerFits(s, w);
    }
  }

  /** The records a worker is written with: freed, reset, beaten or assigned. */
  ghost predicate WorkerWrite(s: State, w: WorkerId, r: Worker) {
    || (r.currentJobId.None? && r.status.Idle? && ClockOk(r, s.now))
    || (w in s.workers && (r == Freed(s.workers[w], s.now) || r == Beaten(s.workers[w], s.now)))
    || (w in s.workers && exists id: JobId ::
          && OwnsRunning(s, w, id) && r == Assigned(s.workers[w], id, s.now)
          && s.jobs[id].leaseExpiresAt == Some(s.now + s.workers[w].leaseSeconds))
  }

  lemma WorkerWriteStaysIntact(s: State, w: WorkerId, r: Worker)
    requires Intact(s) && WorkerWrite(s, w, r)
    ensures Intact(SetWorker(s, w, r))
  {
    hide JobsOk, KeysUnique;
    OthersStay(s, w, r);
    JobsStay(s, SetWorker(s, w, r));
  }

  lemma TimeStaysIntact(s: State, later: Time)
    requires Intact(s) && s.now <= later
    ensures Intact(s.(now := later))
  {
    hide JobOk;
    var t := s.(now := later);
    forall id | id in t.jobs ensures JobOk(t.jobs[id], t.now) {
      LaterIsOk(s.jobs[id], s.now, later);
    }
    forall w | w in t.workers ensures Orphaned(t, w) || WorkerFits(t, w) {
      assert Orphaned(s, w) || WorkerFits(s, w);
    }
  }

  lemma OthersStay(s: State, w: WorkerId, r: Worker)
    ensures var t := SetWorker(s, w, r);
            forall v :: v in s.workers && v != w ==>
                  (Orphaned(t, v) <==> Orphaned(s, v)) && (WorkerFits(t, v) <==> WorkerFits(s, v))
  {
  }

  lemma JobsStay(s: State, t: State)
    requires t.jobs == s.jobs && t.now == s.now
    ensures JobsOk(s) ==> JobsOk(t)
    ensures KeysUnique(s) ==> KeysUnique(t)
  {
  }

  // ---------- the record writes of a call ----------

  /** One write of one record, of the kinds there are, or the passing of time. */
  ghost predicate RecordWrite(s: State, t: State) {
    || (exists id: JobId, m :: JobMoveFits(s, id, m) && t == PutJob(s, id, Moved(s.jobs[id], m, s.now)))
    || (exists id: JobId, q :: NewJobFits(s, id, q) && t == PutJob(s, id, Requested(s, q)))
    || (exists id: JobId :: id in s.jobs && !s.jobs[id].status.Running? && t == s.(jobs := s.jobs - {id}))
    || (exists w: WorkerId, r :: WorkerWrite(s, w, r) && t == SetWorker(s, w, r))
    || (s.now <= t.now && t == s.(now := t.now))
  }

  predicate JobMoveFits(s: State, id: JobId, m: Move) {
    && id in s.jobs && Enabled(s.jobs[id], m)
    && (m.Claim? ==> m.worker in s.workers && s.workers[m.worker].currentJobId.None?)
  }

  predicate NewJobFits(s: State, id: JobId, q: Request) {
    && id !in s.jobs && ValidRequest(q) && BuildReadyAt(q.delaySeconds, q.runAt, s.now).Some?
    && (q.key.Some? ==> JobsWithKey(s, q.key.value) == {})
  }

  /** Every record write keeps a state intact. */
  lemma RecordWriteStaysIntact(s: State, t: State)
    requires Intact(s) && RecordWrite(s, t)
    ensures Intact(t)
  {
    hide Intact, Enabled, Moved, WorkerWrite, PutJob, SetWorker, Requested, BuildReadyAt, JobsWithKey;
    if id: JobId, m :| JobMoveFits(s, id, m) && t == PutJob(s, id, Moved(s.jobs[id], m, s.now)) {
      JobWriteStaysIntact(s, id, m);
    } else if id: JobId, q :| NewJobFits(s, id, q) && t == PutJob(s, id, Requested(s, q)) {
      NewJobStaysIntact(s, id, q);
    } else if id: JobId :| id in s.jobs && !s.jobs[id].status.Running? && t == s.(jobs := s.jobs - {id}) {
      DropStaysIntact(s, id);
    } else if w: WorkerId, r :| WorkerWrite(s, w, r) && t == SetWorker(s, w, r) {
      WorkerWriteStaysIntact(s, w, r);
    } else {
      TimeStaysIntact(s, t.now);
    }
  }

  function End(s: State, cuts: seq<State>): State { if cuts == [] then s else cuts[|cuts| - 1] }

  /** A call from `s` to `t` wrote one record at a time; `cuts` are the states after each write. */
  ghost predicate Writes(s: State, cuts: seq<State>, t: State) {
    && End(s, cuts) == t
    && forall i :: 0 <= i < |cuts| ==> RecordWrite(End(s, cuts[..i]), cuts[i])
  }

  /** So every state in between is intact, if the first one was. */
  lemma {:induction false} WritesStayIntact(s: State, cuts: seq<State>, t: State, k: nat)
    requires Intact(s) && Writes(s, cuts, t) && k < |cuts|
    ensures Intact(cuts[k])
  {
    hide Intact, RecordWrite;
    if k > 0 { WritesStayIntact(s, cuts, t, k - 1); }
    assert RecordWrite(End(s, cuts[..k]), cuts[k]);
    RecordWriteStaysIntact(End(s, cuts[..k]), cuts[k]);
  }

  /** Between two points the trail of a store got the states after each record write. */
  ghost predicate Logged(before: seq<State>, after: seq<State>, s: State, t: State) {
    before <= after && Writes(s, after[|before|..], t)
  }

  lemma LogNothing(trail: seq<State>, s: State)
    ensures Logged(trail, trail, s, s)
  {
  }

  lemma LogOne(trail: seq<State>, s: State, t: State)
    requires RecordWrite(s, t)
    ensures Logged(trail, trail + [t], s, t)
  {
    hide RecordWrite;
    assert (trail + [t])[|trail|..] == [t];
  }

  lemma LogJob(trail: seq<State>, s: State, id: JobId, m: Move)
    requires id in s.jobs && Enabled(s.jobs[id], m)
    requires m.Claim? ==> m.worker in s.workers && s.workers[m.worker].currentJobId.None?
    ensures var t := PutJob(s, id, Moved(s.jobs[id], m, s.now)); Logged(trail, trail + [t], s, t)
  {
    hide Moved, Enabled, Logged;
    LogOne(trail, s, PutJob(s, id, Moved(s.jobs[id], m, s.now)));
  }

  lemma LogNewJob(trail: seq<State>, s: State, id: JobId, q: Request)
    requires NewJobFits(s, id, q)
    ensures var t := PutJob(s, id, Requested(s, q)); Logged(trail, trail + [t], s, t)
  {
    hide Logged, NewJob;
    LogOne(trail, s, PutJob(s, id, Requested(s, q)));
  }

  lemma LogDrop(trail: seq<State>, s: State, id: JobId)
    requires id in s.jobs && !s.jobs[id].status.Running?
    ensures var t := s.(jobs := s.jobs - {id}); Logged(trail, trail + [t], s, t)
  {
    hide Logged;
    LogOne(trail, s, s.(jobs := s.jobs - {id}));
  }

  lemma LogWorker(trail: seq<State>, s: State, w: WorkerId, r: Worker)
    requires WorkerWrite(s, w, r)
    ensures var t := SetWorker(s, w, r); Logged(trail, trail + [t], s, t)
  {
    hide Logged, WorkerWrite;
    LogOne(trail, s, SetWorker(s, w, r));
  }

  lemma LogTime(trail: seq<State>, s: State, later: Time)
    requires s.now <= later
    ensures var t := s.(now := later); Logged(trail, trail + [t], s, t)
  {
    hide Logged;
    LogOne(trail, s, s.(now := later));
  }

  lemma LogThen(a: seq<State>, b: seq<State>, c: seq<State>, s: State, u: State, t: State)
    requires Logged(a, b, s, u) && Logged(b, c, u, t)
    ensures Logged(a, c, s, t)
  {
    hide RecordWrite;
    var first, second := b[|a|..], c[|b|..];
    assert c[|a|..] == first + second;
    WritesThen(s, first, u, second, t);
  }

  lemma WritesThen(s: State, first: seq<State>, u: State, second: seq<State>, t: State)
    requires Writes(s, first, u) && Writes(u, second, t)
    ensures Writes(s, first + second, t)
  {
    hide RecordWrite;
    var all := first + second;
    forall i | 0 <= i < |all| ensures RecordWrite(End(s, all[..i]), all[i]) {
      if i < |first| {
        assert all[..i] == first[..i];
        assert RecordWrite(End(s, first[..i]), first[i]);
      } else {
        var k := i - |first|;
        assert all[..i] == first + second[..k];
        assert End(s, all[..i]) == End(u, second[..k]);
        assert RecordWrite(End(u, second[..k]), second[k]);
      }
    }
  }

  /** An unlimited repair of an intact state restores the invariant. */
  lemma RepairMends(c: State, ids: seq<WorkerId>, t: State)
    requires Intact(c) && RepairOrphansStep(c, None, ids, t)
    ensures Inv(t)
  {
    hide Inv, Intact, Mendable, JobsOk, KeysUnique, RepairOrphansStep;
    IntactIsMendable(c);
    RepairMendsExactly(c, ids, t);
  }

  /** Wherever a crash cuts off a call on an intact state, an unlimited repair restores the invariant. */
  lemma RepairAfterCrash(s: State, cuts: seq<State>, t: State, k: nat, ids: seq<WorkerId>, repaired: State)
    requires Intact(s) && Writes(s, cuts, t) && k < |cuts| && RepairOrphansStep(cuts[k], None, ids, repaired)
    ensures Inv(repaired)
  {
    hide Inv, Intact, RepairOrphansStep, RecordWrite;
    WritesStayIntact(s, cuts, t, k);
    RepairMends(cuts[k], ids, repaired);
  }

  /** From `s` a call came to `t`, or a crash stopped it there. */
  ghost predicate CallOrCrash(s: State, t: State) {
    exists cuts, full :: Writes(s, cuts, full) && (t == full || t in cuts)
  }

  /** However often calls are cut off by crashes, and without any repair in between, a repair at the end
      restores the invariant. */
  lemma {:induction false} RepairAfterCrashes(trace: seq<State>, ids: seq<WorkerId>, repaired: State)
    requires trace != [] && Inv(trace[0]) && forall i :: 0 <= i < |trace| - 1 ==> CallOrCrash(trace[i], trace[i + 1])
    requires RepairOrphansStep(trace[|trace| - 1], None, ids, repaired)
    ensures Inv(repaired)
  {
    hide Inv, Intact, RepairOrphansStep;
    CrashesStayIntact(trace);
    RepairMends(trace[|trace| - 1], ids, repaired);
  }

  lemma IntactIsMendable(s: State)
    requires Intact(s)
    ensures Mendable(s) && JobsOk(s) && KeysUnique(s)
  {
  }

  lemma {:induction false} CrashesStayIntact(trace: seq<State>)
    requires trace != [] && Inv(trace[0]) && forall i :: 0 <= i < |trace| - 1 ==> CallOrCrash(trace[i], trace[i + 1])
    ensures Intact(trace[|trace| - 1])
  {
    hide Inv, Intact, RecordWrite;
    if |trace| == 1 {
      SafeIsIntact(trace[0]);
    } else {
      var n := |trace| - 1;
      CrashesStayIntact(trace[..n]);
      assert CallOrCrash(trace[n - 1], trace[n]);
      var cuts, full :| Writes(trace[n - 1], cuts, full) && (trace[n] == full || trace[n] in cuts);
      if cuts != [] {
        var k :| 0 <= k < |cuts| && cuts[k] == trace[n];
        WritesStayIntact(trace[n - 1], cuts, full, k);
      }
    }
  }
}
