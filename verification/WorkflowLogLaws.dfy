/** What a write of a workflow adds to its log: exactly one kind of entry for each change, with what was and what
    is, in a fixed order of kinds. */
module WorkflowLogLaws {
  import opened Common
  import opened WorkflowSteps
  import opened WorkflowShape
  import opened WorkflowAudit
  import opened WorkflowEvolution

  /** The entry tells a change from the workflow as it was to the workflow as it is. */
  ghost predicate Tells(before: Flow, now: Flow, e: Event) {
    match e
    case StatusChanged(was, becomes) => was == before.status && becomes == now.status && was != becomes
    case CurrentStepChanged(was, becomes) => was == before.current && becomes == now.current && was != becomes
    case LatestRunAttached(was, becomes) => was == before.latestRunId && becomes == now.latestRunId && was != becomes
    case StepAdded(id, status) => !HasId(before.steps, id) && HasStatus(now.steps, id, status)
    case StepStatusChanged(id, was, becomes) =>
      was != becomes && HasStatus(before.steps, id, was) && HasStatus(now.steps, id, becomes)
    case ChildRegistered(id) => id in now.children && id !in before.children
    case ArtifactRegistered(id) => id in now.artifacts && id !in before.artifacts
    case MemoryRegistered(id) => Remembers(now.memories, id) && !Remembers(before.memories, id)
    case RetryStateUpdated(state) => state == now.retryState && state != before.retryState
  }

  ghost predicate HasStatus(steps: seq<Step>, id: StepId, status: StepStatus) {
    exists i :: 0 <= i < |steps| && steps[i].id == id && steps[i].status == status
  }

  ghost predicate Remembers(memories: seq<Memory>, id: MemoryId) {
    exists i :: 0 <= i < |memories| && memories[i].id == id
  }

  // ---------- the steps ----------

  lemma MapSays(steps: seq<Step>, id: StepId)
    requires DistinctIds(steps)
    ensures id in StepMap(steps) <==> HasId(steps, id)
    ensures forall s :: id in StepMap(steps) && StepMap(steps)[id] == s <==> HasStatus(steps, id, s)
  {
    hide StepMap;
    StepMapHolds(steps);
    if HasId(steps, id) {
      var i :| 0 <= i < |steps| && steps[i].id == id;
      assert HasStatus(steps, id, steps[i].status);
    }
  }

  lemma {:induction false} StepEventsHold(before: map<StepId, StepStatus>, steps: seq<Step>, e: Event)
    ensures e in StepEvents(before, steps) <==> exists i :: 0 <= i < |steps| && e in StepEvent(before, steps[i])
  {
    hide StepEvent;
    if steps != [] {
      var n := |steps| - 1;
      StepEventsHold(before, steps[..n], e);
      if e in StepEvents(before, steps[..n]) {
        var i :| 0 <= i < n && e in StepEvent(before, steps[..n][i]);
        assert e in StepEvent(before, steps[i]);
      }
      if i :| 0 <= i < |steps| && e in StepEvent(before, steps[i]) {
        assert i < n ==> e in StepEvent(before, steps[..n][i]);
      }
    }
  }

  lemma StepEventTells(before: Flow, now: Flow, e: Event)
    requires DistinctIds(before.steps) && DistinctIds(now.steps)
    ensures e in StepEvents(StepMap(before.steps), now.steps) <==>
              (e.StepAdded? || e.StepStatusChanged?) && Tells(before, now, e)
  {
    hide StepMap, DistinctIds, HasId, StepEvents;
    StepEventsHold(StepMap(before.steps), now.steps, e);
    if e.StepAdded? { MapSays(before.steps, e.added); }
    if e.StepStatusChanged? { MapSays(before.steps, e.step); }
  }

  // ---------- the lists ----------

  lemma ListEventsTell(before: Flow, now: Flow, e: Event)
    ensures e in ChildEvents(NewIds(Elements(before.children), now.children)) <==>
              e.ChildRegistered? && Tells(before, now, e)
    ensures e in ArtifactEvents(NewIds(Elements(before.artifacts), now.artifacts)) <==>
              e.ArtifactRegistered? && Tells(before, now, e)
  {
    hide NewIds;
    NewIdsHold(Elements(before.children), now.children);
    NewIdsHold(Elements(before.artifacts), now.artifacts);
    ChildEventsHold(NewIds(Elements(before.children), now.children), e);
    ArtifactEventsHold(NewIds(Elements(before.artifacts), now.artifacts), e);
    if e.ChildRegistered? {
      InElements(NewIds(Elements(before.children), now.children), e.child);
    }
    if e.ArtifactRegistered? {
      InElements(NewIds(Elements(before.artifacts), now.artifacts), e.artifact);
    }
  }

  lemma InElements(ids: seq<nat>, id: nat)
    ensures id in ids <==> id in Elements(ids)
  {
  }

  lemma ChildEventsHold(ids: seq<nat>, e: Event)
    ensures e in ChildEvents(ids) <==> e.ChildRegistered? && e.child in ids
  {
    if e.ChildRegistered? && e.child in ids {
      var i :| 0 <= i < |ids| && ids[i] == e.child;
      assert ChildEvents(ids)[i] == e;
    }
  }

  lemma ArtifactEventsHold(ids: seq<nat>, e: Event)
    ensures e in ArtifactEvents(ids) <==> e.ArtifactRegistered? && e.artifact in ids
  {
    if e.ArtifactRegistered? && e.artifact in ids {
      var i :| 0 <= i < |ids| && ids[i] == e.artifact;
      assert ArtifactEvents(ids)[i] == e;
    }
  }

  lemma MemoryEventsTell(before: Flow, now: Flow, e: Event)
    ensures e in MemoryEvents(NewIds(Elements(MemoryIds(before.memories)), MemoryIds(now.memories))) <==>
              e.MemoryRegistered? && Tells(before, now, e)
  {
    hide NewIds;
    var ids := NewIds(Elements(MemoryIds(before.memories)), MemoryIds(now.memories));
    NewIdsHold(Elements(MemoryIds(before.memories)), MemoryIds(now.memories));
    if e.MemoryRegistered? {
      InElements(ids, e.memory);
      IdIsRemembered(before.memories, e.memory);
      IdIsRemembered(now.memories, e.memory);
      if e.memory in ids {
        var i :| 0 <= i < |ids| && ids[i] == e.memory;
        assert MemoryEvents(ids)[i] == e;
      }
    }
  }

  lemma IdIsRemembered(memories: seq<Memory>, id: MemoryId)
    ensures id in Elements(MemoryIds(memories)) <==> Remembers(memories, id)
  {
    if Remembers(memories, id) {
      var i :| 0 <= i < |memories| && memories[i].id == id;
      assert MemoryIds(memories)[i] == id;
    }
  }

  // ---------- the whole difference ----------

  /** A write logs exactly the changes there are: each entry tells one, and each change is told. */
  lemma DifferenceLaw(before: Flow, now: Flow, e: Event)
    requires DistinctIds(before.steps) && DistinctIds(now.steps)
    ensures e in Difference(before, now) <==> Tells(before, now, e)
  {
    hide StepMap, NewIds, DistinctIds, HasId, HasStatus, Remembers, StepEvents, ChildEvents, ArtifactEvents;
    hide MemoryEvents, MemoryIds;
    StepEventTells(before, now, e);
    ListEventsTell(before, now, e);
    MemoryEventsTell(before, now, e);
  }

  /** The kinds of entries in the order in which a write logs them. */
  function Rank(e: Event): nat {
    match e
    case StatusChanged(_, _) => 0
    case CurrentStepChanged(_, _) => 1
    case LatestRunAttached(_, _) => 2
    case StepAdded(_, _) => 3
    case StepStatusChanged(_, _, _) => 3
    case ChildRegistered(_) => 4
    case ArtifactRegistered(_) => 5
    case MemoryRegistered(_) => 6
    case RetryStateUpdated(_) => 7
  }

  predicate Ranked(events: seq<Event>, low: nat, high: nat) {
    && (forall i :: 0 <= i < |events| ==> low <= Rank(events[i]) <= high)
    && (forall i, j :: 0 <= i < j < |events| ==> Rank(events[i]) <= Rank(events[j]))
  }

  lemma RankedThen(a: seq<Event>, b: seq<Event>, low: nat, mid: nat, high: nat)
    requires low <= mid < high && Ranked(a, low, mid) && Ranked(b, mid + 1, high)
    ensures Ranked(a + b, low, high)
  {
    hide Rank;
  }

  lemma {:induction false} StepEventsRanked(before: map<StepId, StepStatus>, steps: seq<Step>)
    ensures Ranked(StepEvents(before, steps), 3, 3)
  {
    if steps != [] { StepEventsRanked(before, steps[..|steps| - 1]); }
  }

  lemma DifferenceInOrder(before: Flow, now: Flow)
    ensures Ranked(Difference(before, now), 0, 7)
  {
    hide StepMap, NewIds, StepEvents, MemoryIds, Ranked;
    var steps := StepEvents(StepMap(before.steps), now.steps);
    var children := ChildEvents(NewIds(Elements(before.children), now.children));
    var artifacts := ArtifactEvents(NewIds(Elements(before.artifacts), now.artifacts));
    var memories := MemoryEvents(NewIds(Elements(MemoryIds(before.memories)), MemoryIds(now.memories)));
    StepEventsRanked(StepMap(before.steps), now.steps);
    EndsRanked(before, now);
    OneKindRanked(children, 4);
    OneKindRanked(artifacts, 5);
    OneKindRanked(memories, 6);
    var a := HeaderEvents(before, now);
    RankedThen(a, steps, 0, 2, 3);
    RankedThen(a + steps, children, 0, 3, 4);
    RankedThen(a + steps + children, artifacts, 0, 4, 5);
    RankedThen(a + steps + children + artifacts, memories, 0, 5, 6);
    RankedThen(a + steps + children + artifacts + memories, RetryEvents(before, now), 0, 6, 7);
  }

  /** Entries of one kind are in order. */
  lemma OneKindRanked(events: seq<Event>, rank: nat)
    requires forall i :: 0 <= i < |events| ==> Rank(events[i]) == rank
    ensures Ranked(events, rank, rank)
  {
    hide Rank;
  }

  lemma EndsRanked(before: Flow, now: Flow)
    ensures Ranked(HeaderEvents(before, now), 0, 2) && Ranked(RetryEvents(before, now), 7, 7)
  {
  }

  /** What the log is followed by: statuses, steps and the sets of what is registered, as the workflow has them. */
  lemma ViewLaw(f: Flow)
    requires DistinctIds(f.steps)
    ensures var v := ViewOf(f);
            && v.status == f.status && v.current == f.current && v.latestRunId == f.latestRunId
            && v.retryState == f.retryState
            && (forall id, s :: id in v.stepStatus && v.stepStatus[id] == s <==> HasStatus(f.steps, id, s))
            && (forall id :: id in v.children <==> id in f.children)
            && (forall id :: id in v.artifacts <==> id in f.artifacts)
            && (forall id :: id in v.memories <==> Remembers(f.memories, id))
  {
    hide StepMap, MemoryIds, DistinctIds, HasId, HasStatus, Remembers;
    forall id ensures forall s :: id in StepMap(f.steps) && StepMap(f.steps)[id] == s <==> HasStatus(f.steps, id, s) {
      MapSays(f.steps, id);
    }
    forall id ensures id in Elements(MemoryIds(f.memories)) <==> Remembers(f.memories, id) {
      IdIsRemembered(f.memories, id);
    }
  }

  /** A write appends the difference to what was written last, and nothing in the log changes. */
  lemma WriteLaw(r: Record, f: Flow)
    ensures var w := Written(r, f); w.created == r.created && w.saved == f && w.log == r.log + Difference(r.saved, f)
    ensures FirstWrite(f).saved == f && FirstWrite(f).log == [] && FirstWrite(f).created == ViewOf(f)
  {
  }
}
