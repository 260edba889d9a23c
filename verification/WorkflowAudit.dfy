/** The workflow transition history: each write logs the difference to the last written snapshot, and
    folding the log over the first snapshot gives the current one. */
module WorkflowAudit {
  import opened Common
  import opened WorkflowSteps
  import opened WorkflowShape

  // ---------- snapshots and events ----------

  /** The part of a snapshot the history follows. */
  datatype View = View(
    status: Status, current: StepId, latestRunId: RunId, stepStatus: map<StepId, StepStatus>,
    children: set<WorkflowId>, artifacts: set<ArtifactId>, memories: set<MemoryId>, retryState: RetryState)

  datatype Event =
    | StatusChanged(fromStatus: Status, toStatus: Status)
    | CurrentStepChanged(fromStep: StepId, toStep: StepId)
    | LatestRunAttached(fromRun: RunId, toRun: RunId)
    | StepAdded(added: StepId, status: StepStatus)
    | StepStatusChanged(step: StepId, was: StepStatus, becomes: StepStatus)
    | ChildRegistered(child: WorkflowId)
    | ArtifactRegistered(artifact: ArtifactId)
    | MemoryRegistered(memory: MemoryId)
    | RetryStateUpdated(retryState: RetryState)

  /** workflow_step_map */
  function StepMap(steps: seq<Step>): map<StepId, StepStatus> {
    if steps == [] then map[]
    else StepMap(steps[..|steps| - 1])[steps[|steps| - 1].id := steps[|steps| - 1].status]
  }

  function ViewOf(f: Flow): View {
    View(f.status, f.current, f.latestRunId, StepMap(f.steps), Elements(f.children), Elements(f.artifacts),
         Elements(MemoryIds(f.memories)), f.retryState)
  }

  function StepEvent(before: map<StepId, StepStatus>, step: Step): seq<Event> {
    if step.id !in before then [StepAdded(step.id, step.status)]
    else if before[step.id] != step.status then [StepStatusChanged(step.id, before[step.id], step.status)]
    else []
  }

  function StepEvents(before: map<StepId, StepStatus>, steps: seq<Step>): seq<Event> {
    if steps == [] then [] else StepEvents(before, steps[..|steps| - 1]) + StepEvent(before, steps[|steps| - 1])
  }

  function NewIds(before: set<nat>, ids: seq<nat>): seq<nat> {
    if ids == [] then []
    else NewIds(before, ids[..|ids| - 1]) + (if ids[|ids| - 1] in before then [] else [ids[|ids| - 1]])
  }

  function ChildEvents(ids: seq<nat>): seq<Event> { seq(|ids|, i requires 0 <= i < |ids| => ChildRegistered(ids[i])) }
  function ArtifactEvents(ids: seq<nat>): seq<Event> {
    seq(|ids|, i requires 0 <= i < |ids| => ArtifactRegistered(ids[i]))
  }
  function MemoryEvents(ids: seq<nat>): seq<Event> { seq(|ids|, i requires 0 <= i < |ids| => MemoryRegistered(ids[i])) }

  function HeaderEvents(before: Flow, now: Flow): seq<Event> {
    (if before.status != now.status then [StatusChanged(before.status, now.status)] else [])
    + (if before.current != now.current then [CurrentStepChanged(before.current, now.current)] else [])
    + (if before.latestRunId != now.latestRunId then [LatestRunAttached(before.latestRunId, now.latestRunId)] else [])
  }

  function RetryEvents(before: Flow, now: Flow): seq<Event> {
    if before.retryState != now.retryState then [RetryStateUpdated(now.retryState)] else []
  }

  /** build_workflow_transition_history: what one write adds to the log. */
  function Difference(before: Flow, now: Flow): seq<Event> {
    HeaderEvents(before, now)
    + StepEvents(StepMap(before.steps), now.steps)
    + ChildEvents(NewIds(Elements(before.children), now.children))
    + ArtifactEvents(NewIds(Elements(before.artifacts), now.artifacts))
    + MemoryEvents(NewIds(Elements(MemoryIds(before.memories)), MemoryIds(now.memories)))
    + RetryEvents(before, now)
  }

  // ---------- replay ----------

  function Effect(v: View, e: Event): View {
    match e
    case StatusChanged(_, to) => v.(status := to)
    case CurrentStepChanged(_, to) => v.(current := to)
    case LatestRunAttached(_, to) => v.(latestRunId := to)
    case StepAdded(id, s) => v.(stepStatus := v.stepStatus[id := s])
    case StepStatusChanged(id, _, s) => v.(stepStatus := v.stepStatus[id := s])
    case ChildRegistered(id) => v.(children := v.children + {id})
    case ArtifactRegistered(id) => v.(artifacts := v.artifacts + {id})
    case MemoryRegistered(id) => v.(memories := v.memories + {id})
    case RetryStateUpdated(state) => v.(retryState := state)
  }

  function Replay(v: View, events: seq<Event>): View {
    if events == [] then v else Effect(Replay(v, events[..|events| - 1]), events[|events| - 1])
  }

  lemma {:induction false} ReplayThen(v: View, a: seq<Event>, b: seq<Event>)
    ensures Replay(v, a + b) == Replay(Replay(v, a), b)
  {
    if b == [] {
      assert a + b == a;
    } else {
      var front, last := b[..|b| - 1], b[|b| - 1];
      ReplayThen(v, a, front);
      assert (a + b)[..|a + b| - 1] == a + front;
    }
  }

  lemma ReplayOne(v: View, e: Event)
    ensures Replay(v, [e]) == Effect(v, e) && Replay(v, []) == v
  {
    assert [e][..0] == [];
  }

  // ---------- the pieces of a difference ----------

  lemma {:induction false} HeaderReplays(before: Flow, now: Flow)
    ensures Replay(ViewOf(before), HeaderEvents(before, now)) ==
              ViewOf(before).(status := now.status, current := now.current, latestRunId := now.latestRunId)
  {
    var v := ViewOf(before);
    var a := if before.status != now.status then [StatusChanged(before.status, now.status)] else [];
    var b := if before.current != now.current then [CurrentStepChanged(before.current, now.current)] else [];
    var c := if before.latestRunId == now.latestRunId then []
             else [LatestRunAttached(before.latestRunId, now.latestRunId)];
    ReplayThen(v, a + b, c);
    ReplayThen(v, a, b);
    ReplayOne(v, StatusChanged(before.status, now.status));
    ReplayOne(Replay(v, a), CurrentStepChanged(before.current, now.current));
    ReplayOne(Replay(v, a + b), LatestRunAttached(before.latestRunId, now.latestRunId));
  }

  ghost predicate DistinctIds(steps: seq<Step>) {
    forall i, j :: 0 <= i < j < |steps| ==> steps[i].id != steps[j].id
  }

  ghost predicate HasId(steps: seq<Step>, id: StepId) { exists i :: 0 <= i < |steps| && steps[i].id == id }

  /** Under distinct ids the step map holds each step's status and nothing else. */
  lemma {:induction false} StepMapHolds(steps: seq<Step>)
    requires DistinctIds(steps)
    ensures forall i :: 0 <= i < |steps| ==>
              steps[i].id in StepMap(steps) && StepMap(steps)[steps[i].id] == steps[i].status
    ensures forall id :: id in StepMap(steps) ==> HasId(steps, id)
  {
    if steps != [] {
      var front, last := steps[..|steps| - 1], steps[|steps| - 1];
      StepMapHolds(front);
      forall i | 0 <= i < |steps|
        ensures steps[i].id in StepMap(steps) && StepMap(steps)[steps[i].id] == steps[i].status
      {
        if i < |front| { assert front[i] == steps[i] && steps[i].id != last.id; }
      }
      forall id | id in StepMap(steps) ensures HasId(steps, id) {
        assert steps[|front|].id == last.id;
        if id != last.id {
          assert HasId(front, id);
          var i :| 0 <= i < |front| && front[i].id == id;
          assert steps[i].id == id;
        }
      }
    }
  }

  lemma StepEventReplays(v: View, before: map<StepId, StepStatus>, step: Step)
    requires if step.id in before then step.id in v.stepStatus && v.stepStatus[step.id] == before[step.id]
             else step.id !in v.stepStatus
    ensures Replay(v, StepEvent(before, step)) == v.(stepStatus := v.stepStatus[step.id := step.status])
  {
    if step.id !in before {
      ReplayOne(v, StepAdded(step.id, step.status));
    } else if before[step.id] != step.status {
      ReplayOne(v, StepStatusChanged(step.id, before[step.id], step.status));
    } else {
      assert v.stepStatus[step.id := step.status] == v.stepStatus;
      ReplayOne(v, StepAdded(step.id, step.status));
    }
  }

  lemma {:induction false} StepsReplay(v: View, steps: seq<Step>)
    requires DistinctIds(steps)
    ensures Replay(v, StepEvents(v.stepStatus, steps)) == v.(stepStatus := v.stepStatus + StepMap(steps))
  {
    hide Replay, StepEvent;
    if steps == [] {
      assert v.stepStatus + map[] == v.stepStatus;
      ReplayOne(v, StepAdded(FinishStep, Pending));
    } else {
      var front, step := steps[..|steps| - 1], steps[|steps| - 1];
      StepsReplay(v, front);
      StepNotBefore(steps);
      ReplayThen(v, StepEvents(v.stepStatus, front), StepEvent(v.stepStatus, step));
      var w := v.(stepStatus := v.stepStatus + StepMap(front));
      StepEventReplays(w, v.stepStatus, step);
      assert v.stepStatus + StepMap(steps) == w.stepStatus[step.id := step.status];
    }
  }

  lemma StepNotBefore(steps: seq<Step>)
    requires DistinctIds(steps) && steps != []
    ensures DistinctIds(steps[..|steps| - 1]) && steps[|steps| - 1].id !in StepMap(steps[..|steps| - 1])
  {
    StepMapHolds(steps[..|steps| - 1]);
  }

  /** The ids a write logs as new are those that were not there before. */
  lemma {:induction false} NewIdsHold(before: set<nat>, ids: seq<nat>)
    ensures Elements(NewIds(before, ids)) == Elements(ids) - before
  {
    if ids != [] {
      var front, last := ids[..|ids| - 1], ids[|ids| - 1];
      NewIdsHold(before, front);
      ElementsFront(ids);
      assert NewIds(before, front) + [] == NewIds(before, front);
      ElementsFront(NewIds(before, front) + [last]);
      assert (NewIds(before, front) + [last])[..|NewIds(before, front)|] == NewIds(before, front);
    }
  }

  lemma ElementsFront(ids: seq<nat>)
    requires ids != []
    ensures Elements(ids) == Elements(ids[..|ids| - 1]) + {ids[|ids| - 1]}
  {
    assert ids == ids[..|ids| - 1] + [ids[|ids| - 1]];
  }

  lemma {:induction false} ChildrenReplay(v: View, ids: seq<nat>)
    ensures Replay(v, ChildEvents(ids)) == v.(children := v.children + Elements(ids))
  {
    if ids == [] {
      assert v.children + Elements(ids) == v.children;
    } else {
      ChildrenReplay(v, ids[..|ids| - 1]);
      ElementsFront(ids);
      assert ChildEvents(ids)[..|ids| - 1] == ChildEvents(ids[..|ids| - 1]);
    }
  }

  lemma {:induction false} ArtifactsReplay(v: View, ids: seq<nat>)
    ensures Replay(v, ArtifactEvents(ids)) == v.(artifacts := v.artifacts + Elements(ids))
  {
    if ids == [] {
      assert v.artifacts + Elements(ids) == v.artifacts;
    } else {
      ArtifactsReplay(v, ids[..|ids| - 1]);
      ElementsFront(ids);
      assert ArtifactEvents(ids)[..|ids| - 1] == ArtifactEvents(ids[..|ids| - 1]);
    }
  }

  lemma {:induction false} MemoriesReplay(v: View, ids: seq<nat>)
    ensures Replay(v, MemoryEvents(ids)) == v.(memories := v.memories + Elements(ids))
  {
    if ids == [] {
      assert v.memories + Elements(ids) == v.memories;
    } else {
      MemoriesReplay(v, ids[..|ids| - 1]);
      ElementsFront(ids);
      assert MemoryEvents(ids)[..|ids| - 1] == MemoryEvents(ids[..|ids| - 1]);
    }
  }

  // ---------- one write ----------

  /** Nothing the history follows disappears from `f` to `g`. */
  ghost predicate Grows(f: Flow, g: Flow) {
    && (forall id :: id in StepMap(f.steps) ==> id in StepMap(g.steps))
    && Elements(f.children) <= Elements(g.children)
    && Elements(f.artifacts) <= Elements(g.artifacts)
    && Elements(MemoryIds(f.memories)) <= Elements(MemoryIds(g.memories))
  }

  /** Replaying what one write logs turns the view of the last written snapshot into the new one. */
  lemma DifferenceReplays(before: Flow, now: Flow)
    requires DistinctIds(now.steps) && Grows(before, now)
    ensures Replay(ViewOf(before), Difference(before, now)) == ViewOf(now)
  {
    hide Replay, HeaderEvents, StepEvents, NewIds, ChildEvents, ArtifactEvents, MemoryEvents, RetryEvents;
    var v := ViewOf(before);
    var header, steps := HeaderEvents(before, now), StepEvents(StepMap(before.steps), now.steps);
    var newChildren := NewIds(Elements(before.children), now.children);
    var newArtifacts := NewIds(Elements(before.artifacts), now.artifacts);
    var newMemories := NewIds(Elements(MemoryIds(before.memories)), MemoryIds(now.memories));
    var children, artifacts := ChildEvents(newChildren), ArtifactEvents(newArtifacts);
    var memories, retry := MemoryEvents(newMemories), RetryEvents(before, now);
    ReplayThen(v, header + steps + children + artifacts + memories, retry);
    ReplayThen(v, header + steps + children + artifacts, memories);
    ReplayThen(v, header + steps + children, artifacts);
    ReplayThen(v, header + steps, children);
    ReplayThen(v, header, steps);
    HeaderReplays(before, now);
    var v1 := v.(status := now.status, current := now.current, latestRunId := now.latestRunId);
    StepsReplay(v1, now.steps);
    assert StepMap(before.steps) + StepMap(now.steps) == StepMap(now.steps);
    var v2 := v1.(stepStatus := StepMap(now.steps));
    ChildrenReplay(v2, newChildren);
    NewIdsHold(Elements(before.children), now.children);
    assert v2.children + Elements(newChildren) == Elements(now.children);
    var v3 := v2.(children := Elements(now.children));
    ArtifactsReplay(v3, newArtifacts);
    NewIdsHold(Elements(before.artifacts), now.artifacts);
    assert v3.artifacts + Elements(newArtifacts) == Elements(now.artifacts);
    var v4 := v3.(artifacts := Elements(now.artifacts));
    MemoriesReplay(v4, newMemories);
    NewIdsHold(Elements(MemoryIds(before.memories)), MemoryIds(now.memories));
    assert v4.memories + Elements(newMemories) == Elements(MemoryIds(now.memories));
    RetryReplays(before, now, v4.(memories := Elements(MemoryIds(now.memories))));
  }

  lemma RetryReplays(before: Flow, now: Flow, v: View)
    requires v.retryState == before.retryState
    ensures Replay(v, RetryEvents(before, now)) == v.(retryState := now.retryState)
  {
    ReplayOne(v, RetryStateUpdated(now.retryState));
  }

  // ---------- what the operations do between two writes ----------

  predicate Follows(s: Step, t: Step) { t.id == s.id && t.status in StepReach(s.status) }

  ghost predicate HasFollower(s: Step, steps: seq<Step>) { exists j :: 0 <= j < |steps| && Follows(s, steps[j]) }

  /** `g` may come about from `f`: every step is still there, its status moved along the step table,
      and the registered ids only grew. */
  ghost predicate Evolves(f: Flow, g: Flow) {
    && DistinctIds(g.steps)
    && (forall i :: 0 <= i < |f.steps| ==> HasFollower(f.steps[i], g.steps))
    && Elements(f.children) <= Elements(g.children)
    && Elements(f.artifacts) <= Elements(g.artifacts)
    && Elements(MemoryIds(f.memories)) <= Elements(MemoryIds(g.memories))
  }

  /** The status closure is exactly what the step table reaches: it holds the status itself, is closed
      under the table, and holds nothing a path of the table does not reach. */
  lemma ReachIsClosure(s: StepStatus)
    ensures s in StepReach(s)
    ensures forall t, u :: t in StepReach(s) && u in StepNext(t) ==> u in StepReach(s)
    ensures forall t :: t in StepReach(s) && t != s ==>
              t in StepNext(s) || exists u :: u in StepNext(s) && t in StepNext(u)
  {
    if s.InProgress? { assert Blocked in StepNext(s) && InProgress in StepNext(Blocked); }
    if s.Blocked? { assert InProgress in StepNext(s) && Blocked in StepNext(InProgress); }
  }

  lemma EvolvesStays(f: Flow)
    requires DistinctIds(f.steps)
    ensures Evolves(f, f)
  {
    forall i | 0 <= i < |f.steps| ensures HasFollower(f.steps[i], f.steps) {
      assert Follows(f.steps[i], f.steps[i]);
    }
  }

  lemma EvolvesThrough(f: Flow, g: Flow, h: Flow)
    requires Evolves(f, g) && Evolves(g, h)
    ensures Evolves(f, h)
  {
    forall i | 0 <= i < |f.steps| ensures HasFollower(f.steps[i], h.steps) {
      var j :| 0 <= j < |g.steps| && Follows(f.steps[i], g.steps[j]);
      assert HasFollower(g.steps[j], h.steps);
      var k :| 0 <= k < |h.steps| && Follows(g.steps[j], h.steps[k]);
      assert Follows(f.steps[i], h.steps[k]);
    }
  }

  lemma EvolvingGrows(f: Flow, g: Flow)
    requires DistinctIds(f.steps) && Evolves(f, g)
    ensures Grows(f, g)
    ensures forall id :: id in StepMap(f.steps) ==>
              id in StepMap(g.steps) && StepMap(g.steps)[id] in StepReach(StepMap(f.steps)[id])
  {
    hide StepMap;
    StepMapHolds(f.steps);
    StepMapHolds(g.steps);
    forall id | id in StepMap(f.steps)
      ensures id in StepMap(g.steps) && StepMap(g.steps)[id] in StepReach(StepMap(f.steps)[id])
    {
      assert HasId(f.steps, id);
      var i :| 0 <= i < |f.steps| && f.steps[i].id == id;
      assert HasFollower(f.steps[i], g.steps);
      var j :| 0 <= j < |g.steps| && Follows(f.steps[i], g.steps[j]);
    }
  }
}
