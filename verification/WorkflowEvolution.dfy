/** Every operation of runtime/workflow.py, whether it returns or raises, moves step statuses along the
    step table and only adds steps, children, artifacts and memories; so the written log replays. */
module WorkflowEvolution {
  import opened Common
  import opened WorkflowSteps
  import opened WorkflowAudit

  // ---------- the three kinds of change ----------

  lemma StepsKept(f: Flow, g: Flow)
    requires DistinctIds(f.steps) && g.steps == f.steps
    requires Elements(f.children) <= Elements(g.children)
    requires Elements(f.artifacts) <= Elements(g.artifacts)
    requires Elements(MemoryIds(f.memories)) <= Elements(MemoryIds(g.memories))
    ensures Evolves(f, g)
  {
    EvolvesStays(f);
  }

  lemma StepMoved(f: Flow, i: nat, step: Step, g: Flow)
    requires DistinctIds(f.steps) && i < |f.steps| && Follows(f.steps[i], step)
    requires g.steps == f.steps[i := step]
    requires g.children == f.children && g.artifacts == f.artifacts && g.memories == f.memories
    ensures Evolves(f, g)
  {
    forall k | 0 <= k < |f.steps| ensures HasFollower(f.steps[k], g.steps) {
      assert Follows(f.steps[k], g.steps[k]);
    }
  }

  lemma StepInserted(f: Flow, step: Step, g: Flow)
    requires DistinctIds(f.steps) && Find(f.steps, step.id).None?
    requires g.steps == InsertedBeforeLast(f.steps, step)
    requires g.children == f.children && g.artifacts == f.artifacts && g.memories == f.memories
    ensures Evolves(f, g)
  {
    forall k | 0 <= k < |f.steps| ensures HasFollower(f.steps[k], g.steps) {
      assert Follows(f.steps[k], g.steps[if k < |f.steps| - 1 then k else k + 1]);
    }
    InsertedIsDistinct(f.steps, step);
  }

  lemma InsertedIsDistinct(steps: seq<Step>, step: Step)
    requires DistinctIds(steps) && Find(steps, step.id).None?
    ensures DistinctIds(InsertedBeforeLast(steps, step))
  {
    var t, n := InsertedBeforeLast(steps, step), |steps| - 1;
    if steps != [] {
      assert t[n] == step && t[n + 1] == steps[n];
      assert forall i :: 0 <= i < n ==> t[i] == steps[i];
    }
  }

  lemma EvolvesIsDistinct(f: Flow, g: Flow)
    requires Evolves(f, g)
    ensures DistinctIds(g.steps)
  {
  }

  // ---------- the parts the operations are made of ----------

  lemma HeaderChanged(f: Flow, status: Status, current: StepId, state: RetryState)
    requires DistinctIds(f.steps)
    ensures Evolves(f, f.(status := status)) && Evolves(f, f.(current := current))
    ensures Evolves(f, f.(retryState := state))
  {
    StepsKept(f, f.(status := status));
    StepsKept(f, f.(current := current));
    StepsKept(f, f.(retryState := state));
  }

  lemma TransitionEvolves(f: Flow, i: nat, next: StepStatus)
    requires DistinctIds(f.steps) && i < |f.steps|
    ensures Evolves(f, TransitionStep(f, i, next).flow)
    ensures Evolves(f, StartStep(f, i).flow)
  {
    EvolvesStays(f);
    forall s | s in StepNext(f.steps[i].status) ensures Evolves(f, WithStep(f, i, f.steps[i].(status := s))) {
      ReachIsClosure(f.steps[i].status);
      StepMoved(f, i, f.steps[i].(status := s), WithStep(f, i, f.steps[i].(status := s)));
    }
  }

  lemma BlockEvolves(f: Flow)
    requires DistinctIds(f.steps)
    ensures Evolves(f, BlockAction(f).flow)
  {
    hide Find, Evolves, DistinctIds;
    EvolvesStays(f);
    if Action(f).Some? { TransitionEvolves(f, Action(f).value, Blocked); }
  }

  lemma EnterWaitEvolves(f: Flow, id: StepId)
    requires DistinctIds(f.steps)
    ensures Evolves(f, EnterWait(f, id).flow)
  {
    EvolvesStays(f);
    HeaderChanged(f, Waiting, id, f.retryState);
    StepsKept(f, f.(status := Waiting, current := id));
  }

  lemma LeaveWaitEvolves(f: Flow)
    requires DistinctIds(f.steps)
    ensures Evolves(f, LeaveWait(f).flow)
  {
    hide Find, Evolves, DistinctIds;
    EvolvesStays(f);
    HeaderChanged(f, Running, f.current, f.retryState);
    var g := if f.status.Waiting? then f.(status := Running) else f;
    EvolvesStays(g);
    if Action(g).Some? {
      TransitionEvolves(g, Action(g).value, InProgress);
      var h := TransitionStep(g, Action(g).value, InProgress).flow;
      EvolvesThrough(f, g, h);
      EvolvesIsDistinct(g, h);
      HeaderChanged(h, h.status, ActionStep(h.runType), h.retryState);
      HeaderChanged(g, g.status, ActionStep(g.runType), g.retryState);
      EvolvesThrough(f, h, h.(current := ActionStep(h.runType)));
      EvolvesThrough(f, g, g.(current := ActionStep(g.runType)));
    }
  }

  lemma CompleteWaitEvolves(f: Flow, id: StepId)
    requires DistinctIds(f.steps)
    ensures Evolves(f, CompleteWait(f, id).flow)
  {
    EvolvesStays(f);
    if Find(f.steps, id).Some? { TransitionEvolves(f, Find(f.steps, id).value, Completed); }
  }

  // ---------- the operations ----------

  lemma RegisteringEvolves(f: Flow, id: nat, policy: RetryPolicy)
    requires DistinctIds(f.steps)
    ensures Evolves(f, RegisterArtifact(f, id))
    ensures Evolves(f, AttachRun(f, id)) && Evolves(f, ConfigureRetryPolicy(f, policy))
  {
    StepsKept(f, RegisterArtifact(f, id));
    StepsKept(f, AttachRun(f, id));
    StepsKept(f, ConfigureRetryPolicy(f, policy));
  }

  lemma MemoryEvolves(f: Flow, m: Memory)
    requires DistinctIds(f.steps)
    ensures Evolves(f, RegisterMemory(f, m))
  {
    PutMemoryIds(f.memories, m);
    StepsKept(f, RegisterMemory(f, m));
  }

  lemma IdsOfCons(first: Memory, rest: seq<Memory>)
    ensures MemoryIds([first] + rest) == [first.id] + MemoryIds(rest)
    ensures Elements(MemoryIds([first] + rest)) == {first.id} + Elements(MemoryIds(rest))
  {
    assert MemoryIds([first] + rest) == [first.id] + MemoryIds(rest);
  }

  /** Registering a memory adds its id, unless it is there. */
  lemma {:induction false} PutMemoryIds(memories: seq<Memory>, m: Memory)
    ensures Elements(MemoryIds(PutMemory(memories, m))) == Elements(MemoryIds(memories)) + {m.id}
    ensures |PutMemory(memories, m)| == |memories| + (if m.id in MemoryIds(memories) then 0 else 1)
  {
    hide MemoryIds, Elements;
    if memories == [] {
      NoMemories(m);
    } else {
      var first, rest := memories[0], memories[1..];
      assert memories == [first] + rest;
      IdsOfCons(first, rest);
      if first.id == m.id {
        IdsOfCons(m, rest);
      } else {
        PutMemoryIds(rest, m);
        IdsOfCons(first, PutMemory(rest, m));
      }
    }
  }

  lemma NoMemories(m: Memory)
    ensures MemoryIds([m]) == [m.id] && Elements(MemoryIds([m])) == {m.id}
    ensures MemoryIds([]) == [] && Elements<MemoryId>([]) == {}
  {
  }

  /** The registered memory is there under its new summary, in the place of the first one with its id, if
      there was one; at every other place all stays as it was. */
  lemma {:induction false} PutMemoryHolds(memories: seq<Memory>, m: Memory) returns (k: nat)
    ensures var put := PutMemory(memories, m);
            && k < |put| && put[k] == m && (k < |memories| ==> memories[k].id == m.id && put == memories[k := m])
            && (k >= |memories| ==> put == memories + [m])
    ensures forall i :: 0 <= i < |memories| && i < k ==> memories[i].id != m.id
  {
    if memories == [] {
      k := 0;
    } else if memories[0].id == m.id {
      k := 0;
      assert memories[0 := m] == [m] + memories[1..];
    } else {
      var rest := memories[1..];
      k := PutMemoryHolds(rest, m);
      assert forall i :: 0 <= i < |rest| ==> memories[i + 1] == rest[i];
      assert memories == [memories[0]] + rest;
      k := k + 1;
    }
  }

  lemma MarkActionCompletedEvolves(f: Flow)
    requires DistinctIds(f.steps)
    ensures Evolves(f, MarkActionCompleted(f).flow)
  {
    hide Find;
    EvolvesStays(f);
    if Action(f).Some? {
      TransitionEvolves(f, Action(f).value, Completed);
      var g := if f.steps[Action(f).value].status.Completed? then f
               else TransitionStep(f, Action(f).value, Completed).flow;
      var k := Find(g.steps, FinishStep);
      if k.Some? {
        TransitionEvolves(g, k.value, InProgress);
        var h := StartStep(g, k.value).flow;
        EvolvesThrough(f, g, h);
        HeaderChanged(h, h.status, FinishStep, h.retryState);
        EvolvesThrough(f, h, h.(current := FinishStep));
      }
    }
  }

  lemma CompleteFinishEvolves(f: Flow)
    requires DistinctIds(f.steps)
    ensures Evolves(f, CompleteFinishStep(f).flow)
  {
    hide Evolves, DistinctIds, Find;
    EvolvesStays(f);
    var k := Find(f.steps, FinishStep);
    if k.Some? {
      TransitionEvolves(f, k.value, InProgress);
      var g := StartStep(f, k.value).flow;
      EvolvesIsDistinct(f, g);
      TransitionEvolves(g, k.value, Completed);
      var h := if g.steps[k.value].status.Completed? then g else TransitionStep(g, k.value, Completed).flow;
      EvolvesStays(g);
      EvolvesThrough(f, g, h);
      EvolvesIsDistinct(g, h);
      StepsKept(h, h.(status := Succeeded, current := FinishStep));
      StepsKept(h, h.(current := FinishStep));
      EvolvesThrough(f, h, h.(status := Succeeded, current := FinishStep));
      EvolvesThrough(f, h, h.(current := FinishStep));
    }
  }

  lemma WaitForApprovalEvolves(f: Flow, approval: ApprovalId)
    requires DistinctIds(f.steps)
    ensures Evolves(f, WaitForApproval(f, approval).flow)
  {
    hide Find, InsertedBeforeLast;
    BlockEvolves(f);
    if BlockAction(f).Done? {
      var id, g := ApprovalStep(approval), BlockAction(f).flow;
      EvolvesStays(g);
      var step := Step(id, InProgress, None, None, None);
      var h := if Find(g.steps, id).Some? then g else g.(steps := InsertedBeforeLast(g.steps, step));
      if Find(g.steps, id).None? { StepInserted(g, step, h); }
      EnterWaitEvolves(h, id);
      EvolvesThrough(f, g, h);
      EvolvesThrough(f, h, EnterWait(h, id).flow);
    }
  }

  lemma WithRetryEvolves(f: Flow, attempt: nat, at: Time, fault: Fault)
    requires DistinctIds(f.steps)
    ensures Evolves(f, WithRetryStep(f, attempt, at, fault))
  {
    hide InsertedBeforeLast;
    var k := Find(f.steps, RetryStep(attempt));
    if k.Some? {
      StepMoved(f, k.value, f.steps[k.value].(nextRetryAt := Some(at), cause := Some(fault)),
                WithRetryStep(f, attempt, at, fault));
    } else {
      StepInserted(f, Step(RetryStep(attempt), InProgress, Some(at), Some(fault), None),
                   WithRetryStep(f, attempt, at, fault));
    }
  }

  lemma WaitForRetryEvolves(f: Flow, fault: Fault, now: Time)
    requires DistinctIds(f.steps)
    ensures Evolves(f, WaitForRetry(f, fault, now).flow)
  {
    hide WithRetryStep, BlockAction, EnterWait;
    EvolvesStays(f);
    BlockEvolves(f);
    if fault.retryable && CanRetry(f) && BlockAction(f).Done? {
      var g := BlockAction(f).flow;
      var attempt, at := g.retryState.attemptsUsed + 1, now + g.retryPolicy.backoffSeconds;
      WithRetryEvolves(g, attempt, at, fault);
      var h := WithRetryStep(g, attempt, at, fault);
      var state := RetryState(attempt, Max(g.retryPolicy.maxAttempts - attempt, 0), Some(at), Some(fault));
      EvolvesThrough(f, g, h);
      HeaderChanged(h, h.status, h.current, state);
      EvolvesThrough(f, h, h.(retryState := state));
      EnterWaitEvolves(h.(retryState := state), RetryStep(attempt));
      EvolvesThrough(f, h.(retryState := state), EnterWait(h.(retryState := state), RetryStep(attempt)).flow);
    }
  }

  lemma ResumeFromApprovalEvolves(f: Flow, approval: ApprovalId)
    requires DistinctIds(f.steps)
    ensures Evolves(f, ResumeFromApproval(f, approval).flow)
  {
    hide CompleteWait, LeaveWait;
    CompleteWaitEvolves(f, ApprovalStep(approval));
    var g := CompleteWait(f, ApprovalStep(approval)).flow;
    LeaveWaitEvolves(g);
    EvolvesThrough(f, g, LeaveWait(g).flow);
  }

  lemma ResumeFromRetryEvolves(f: Flow)
    requires DistinctIds(f.steps)
    ensures Evolves(f, ResumeFromRetry(f).flow)
  {
    hide CompleteWait, LeaveWait;
    EvolvesStays(f);
    CompleteWaitEvolves(f, f.current);
    var g := CompleteWait(f, f.current).flow;
    LeaveWaitEvolves(g);
    var h := LeaveWait(g).flow;
    EvolvesThrough(f, g, h);
    HeaderChanged(h, h.status, h.current, h.retryState.(nextRetryAt := None));
    EvolvesThrough(f, h, h.(retryState := h.retryState.(nextRetryAt := None)));
  }

  lemma FailWorkflowEvolves(f: Flow, fault: Fault)
    requires DistinctIds(f.steps)
    ensures Evolves(f, FailWorkflow(f, fault).flow)
  {
    hide Evolves, DistinctIds, Find;
    EvolvesStays(f);
    var k := Find(f.steps, f.current);
    if k.Some? {
      var step := f.steps[k.value];
      ReachIsClosure(step.status);
      var g := if step.status.Completed? || step.status.Failed? then f
               else WithStep(f, k.value, step.(status := Failed, error := Some(fault)));
      assert f.steps[k.value := step.(status := Failed)][k.value := step.(status := Failed, error := Some(fault))]
          == f.steps[k.value := step.(status := Failed, error := Some(fault))];
      if g != f { StepMoved(f, k.value, step.(status := Failed, error := Some(fault)), g); }
      EvolvesIsDistinct(f, g);
      HeaderChanged(g, FailedFlow, g.current, g.retryState);
      EvolvesThrough(f, g, g.(status := FailedFlow));
    }
  }

  // ---------- the record on disk ----------

  /** What write_workflow keeps: the view of the first snapshot, the history since, the last snapshot. */
  datatype Record = Record(created: View, log: seq<Event>, saved: Flow)

  function FirstWrite(f: Flow): Record { Record(ViewOf(f), [], f) }

  function Written(r: Record, f: Flow): Record {
    Record(r.created, r.log + Difference(r.saved, f), f)
  }

  predicate FollowsTable(e: Event) { e.StepStatusChanged? ==> e.becomes in StepReach(e.was) && e.was != e.becomes }

  /** The history explains the last snapshot, and `live`, the workflow in memory, may come about from it. */
  ghost predicate Explained(r: Record, live: Flow) {
    && DistinctIds(r.saved.steps)
    && Replay(r.created, r.log) == ViewOf(r.saved)
    && (forall i :: 0 <= i < |r.log| ==> FollowsTable(r.log[i]))
    && Evolves(r.saved, live)
  }

  lemma FirstWriteExplains(f: Flow)
    requires DistinctIds(f.steps)
    ensures Explained(FirstWrite(f), f)
  {
    EvolvesStays(f);
  }

  lemma ChangeStaysExplained(r: Record, f: Flow, g: Flow)
    requires Explained(r, f) && Evolves(f, g)
    ensures Explained(r, g)
  {
    EvolvesThrough(r.saved, f, g);
  }

  lemma {:induction false} StepEventsFollowTable(before: map<StepId, StepStatus>, steps: seq<Step>)
    requires forall i :: 0 <= i < |steps| && steps[i].id in before ==> steps[i].status in StepReach(before[steps[i].id])
    ensures forall e :: e in StepEvents(before, steps) ==> FollowsTable(e)
  {
    if steps != [] { StepEventsFollowTable(before, steps[..|steps| - 1]); }
  }

  lemma DifferenceFollowsTable(before: Flow, now: Flow)
    requires DistinctIds(before.steps) && Evolves(before, now)
    ensures forall e :: e in Difference(before, now) ==> FollowsTable(e)
  {
    hide StepMap, StepEvents, NewIds;
    EvolvingGrows(before, now);
    StepMapHolds(now.steps);
    StepEventsFollowTable(StepMap(before.steps), now.steps);
  }

  /** Whatever the operations did since the last write, the next write leaves a history that replays to
      the new snapshot and records only moves in the closure of the step table. */
  lemma WriteStaysExplained(r: Record, f: Flow)
    requires Explained(r, f)
    ensures Explained(Written(r, f), f)
    ensures r.log <= Written(r, f).log
  {
    hide Difference, Replay, Evolves, FollowsTable;
    EvolvingGrows(r.saved, f);
    EvolvesIsDistinct(r.saved, f);
    DifferenceReplays(r.saved, f);
    DifferenceFollowsTable(r.saved, f);
    ReplayThen(r.created, r.log, Difference(r.saved, f));
    EvolvesStays(f);
    forall i | 0 <= i < |r.log + Difference(r.saved, f)| ensures FollowsTable((r.log + Difference(r.saved, f))[i]) {
      assert i >= |r.log| ==> (r.log + Difference(r.saved, f))[i] in Difference(r.saved, f);
    }
  }
}
