/** The workflow object of runtime/workflow.py: its methods change it step by step, and each is proved
    to do what the function of the same name in WorkflowSteps says, also when it raises half-way. */
module WorkflowObjects {
  import opened Common
  import opened WorkflowSteps
  import opened WorkflowAudit
  import opened WorkflowEvolution

  /** What a method that returned (no error) or raised has made of the workflow. */
  function Outcome(error: Option<Error>, f: Flow): Attempt {
    match error
    case None => Done(f)
    case Some(e) => Raised(f, e)
  }

  lemma {:induction false} FirstIsFound(steps: seq<Step>, id: StepId, i: nat)
    requires i <= |steps| && forall j :: 0 <= j < i ==> steps[j].id != id
    ensures i < |steps| && steps[i].id == id ==> Find(steps, id) == Some(i)
    ensures i == |steps| ==> Find(steps, id).None?
  {
    if i > 0 {
      assert forall j :: 0 <= j < i - 1 ==> steps[1..][j] == steps[j + 1];
      FirstIsFound(steps[1..], id, i - 1);
    }
  }

  lemma StaysExplained(r: Option<Record>, f: Flow, g: Flow)
    requires Evolves(f, g) && (r.Some? ==> Explained(r.value, f))
    ensures DistinctIds(g.steps) && (r.Some? ==> Explained(r.value, g))
  {
    EvolvesIsDistinct(f, g);
    if r.Some? { ChangeStaysExplained(r.value, f, g); }
  }

  /** The ids that were not there before, in their order. */
  method Unknown(before: set<nat>, ids: seq<nat>) returns (unknown: seq<nat>)
    ensures unknown == NewIds(before, ids)
  {
    unknown := [];
    for i := 0 to |ids|
      invariant unknown == NewIds(before, ids[..i])
    {
      assert ids[..i + 1][..i] == ids[..i];
      if ids[i] !in before {
        unknown := unknown + [ids[i]];
      }
    }
    assert ids[..|ids|] == ids;
  }

  class WorkflowState {
    const workflowId: WorkflowId
    const runType: RunType
    var latestRunId: RunId
    var status: Status
    var current: StepId
    var steps: seq<Step>
    var children: seq<WorkflowId>
    var artifacts: seq<ArtifactId>
    var memories: seq<Memory>
    var retryPolicy: RetryPolicy
    var retryState: RetryState
    /** The workflow's file, once written. */
    var file: Option<Record>

    function Snapshot(): Flow
      reads this
    {
      Flow(workflowId, latestRunId, runType, status, current, steps, children, artifacts, memories, retryPolicy,
           retryState)
    }

    /** The history on disk explains the file's snapshot, from which this object has evolved. */
    ghost predicate Valid()
      reads this
    {
      && DistinctIds(steps)
      && (file.Some? ==> Explained(file.value, Snapshot()))
    }

    constructor (runId: RunId, run: RunType)
      ensures Snapshot() == CreateWorkflow(runId, run) && file.None? && Valid()
    {
      workflowId, latestRunId, runType := runId, runId, run;
      var action := Step(ActionStep(run), InProgress, None, None, None);
      var finish := Step(FinishStep, Pending, None, None, None);
      status, current, steps := Running, ActionStep(run), [action, finish];
      children, artifacts, memories := [], [], [];
      retryPolicy, retryState := RetryPolicy(0, 0), RetryState(0, 0, None, None);
      file := None;
    }

    /** load_workflow */
    constructor Load(r: Record)
      requires Explained(r, r.saved)
      ensures Snapshot() == r.saved && file == Some(r) && Valid()
    {
      var f := r.saved;
      workflowId, latestRunId, runType, status, current, steps := f.workflowId, f.latestRunId, f.runType, f.status,
          f.current, f.steps;
      children, artifacts, memories := f.children, f.artifacts, f.memories;
      retryPolicy, retryState := f.retryPolicy, f.retryState;
      file := Some(r);
    }

    // ---------- steps ----------

    method GetStep(id: StepId) returns (k: Option<nat>)
      ensures k == Find(steps, id)
    {
      var i := 0;
      while i < |steps|
        invariant i <= |steps| && forall j :: 0 <= j < i ==> steps[j].id != id
      {
        FirstIsFound(steps, id, i);
        if steps[i].id == id {
          return Some(i);
        }
        i := i + 1;
      }
      FirstIsFound(steps, id, i);
      k := None;
    }

    method Transition(k: nat, next: StepStatus) returns (error: Option<Error>)
      requires k < |steps|
      modifies this`steps
      ensures Outcome(error, Snapshot()) == TransitionStep(old(Snapshot()), k, next)
    {
      if next !in StepNext(steps[k].status) {
        return Some(StepTransition);
      }
      steps := steps[k := steps[k].(status := next)];
      error := None;
    }

    method TransitionTo(next: Status) returns (error: Option<Error>)
      modifies this`status
      ensures Outcome(error, Snapshot()) == TransitionWorkflow(old(Snapshot()), next)
    {
      if next !in WorkflowNext(status) {
        return Some(WorkflowTransition);
      }
      status := next;
      error := None;
    }

    method Start(k: nat) returns (error: Option<Error>)
      requires k < |steps|
      modifies this`steps
      ensures Outcome(error, Snapshot()) == StartStep(old(Snapshot()), k)
    {
      error := None;
      if steps[k].status.Pending? {
        error := Transition(k, InProgress);
      }
    }

    // ---------- configuration and registration ----------

    method AttachRunTo(runId: RunId)
      requires Valid()
      modifies this`latestRunId
      ensures Valid()
      ensures Snapshot() == AttachRun(old(Snapshot()), runId)
    {
      hide Explained, Evolves, DistinctIds;
      ghost var f := Snapshot();
      RegisteringEvolves(f, runId, retryPolicy);
      StaysExplained(file, f, AttachRun(f, runId));
      latestRunId := runId;
    }

    method Configure(policy: RetryPolicy)
      requires Valid()
      modifies this`retryPolicy, this`retryState
      ensures Valid()
      ensures Snapshot() == ConfigureRetryPolicy(old(Snapshot()), policy)
    {
      hide Explained, Evolves, DistinctIds;
      ghost var f := Snapshot();
      RegisteringEvolves(f, 0, policy);
      StaysExplained(file, f, ConfigureRetryPolicy(f, policy));
      retryPolicy := policy;
      retryState := retryState.(retriesRemaining := Max(retryPolicy.maxAttempts - retryState.attemptsUsed, 0));
    }

    method AddArtifact(id: ArtifactId)
      requires Valid()
      modifies this`artifacts
      ensures Valid()
      ensures Snapshot() == RegisterArtifact(old(Snapshot()), id)
    {
      hide Explained, Evolves, DistinctIds;
      ghost var f := Snapshot();
      RegisteringEvolves(f, id, retryPolicy);
      StaysExplained(file, f, RegisterArtifact(f, id));
      for i := 0 to |artifacts|
        invariant artifacts == old(artifacts) && id !in artifacts[..i]
      {
        if artifacts[i] == id {
          return;
        }
      }
      assert artifacts[..|artifacts|] == artifacts;
      artifacts := artifacts + [id];
    }

    method AddMemory(m: Memory)
      requires Valid()
      modifies this`memories
      ensures Valid()
      ensures Snapshot() == RegisterMemory(old(Snapshot()), m)
    {
      hide Explained, Evolves, DistinctIds;
      ghost var f := Snapshot();
      MemoryEvolves(f, m);
      StaysExplained(file, f, RegisterMemory(f, m));
      ghost var k := PutMemoryHolds(memories, m);
      for i := 0 to |memories|
        invariant memories == old(memories) && i <= k
      {
        if memories[i].id == m.id {
          memories := memories[i := m];
          return;
        }
      }
      memories := memories + [m];
    }

    // ---------- the operations ----------

    method ActionDone() returns (error: Option<Error>)
      requires Valid()
      modifies this`steps, this`current
      ensures Valid()
      ensures Outcome(error, Snapshot()) == MarkActionCompleted(old(Snapshot()))
    {
      hide Find, Explained, Evolves, DistinctIds;
      ghost var f := Snapshot();
      MarkActionCompletedEvolves(f);
      StaysExplained(file, f, MarkActionCompleted(f).flow);
      var action := GetStep(ActionStep(runType));
      if action.None? {
        return Some(UnknownStep);
      }
      if !steps[action.value].status.Completed? {
        error := Transition(action.value, Completed);
        if error.Some? {
          return;
        }
      }
      var finish := GetStep(FinishStep);
      if finish.None? {
        return Some(UnknownStep);
      }
      error := Start(finish.value);
      if error.None? {
        current := FinishStep;
      }
    }

    method Finish() returns (error: Option<Error>)
      requires Valid()
      modifies this`steps, this`status, this`current
      ensures Valid()
      ensures Outcome(error, Snapshot()) == CompleteFinishStep(old(Snapshot()))
    {
      hide Find, Explained, Evolves, DistinctIds;
      ghost var f := Snapshot();
      CompleteFinishEvolves(f);
      StaysExplained(file, f, CompleteFinishStep(f).flow);
      var finish := GetStep(FinishStep);
      if finish.None? {
        return Some(UnknownStep);
      }
      error := Start(finish.value);
      if error.Some? {
        return;
      }
      if !steps[finish.value].status.Completed? {
        error := Transition(finish.value, Completed);
        if error.Some? {
          return;
        }
      }
      if !status.Succeeded? {
        error := TransitionTo(Succeeded);
        if error.Some? {
          return;
        }
      }
      current := FinishStep;
    }

    method AwaitApproval(approval: ApprovalId) returns (error: Option<Error>)
      requires Valid()
      modifies this`steps, this`status, this`current
      ensures Valid()
      ensures Outcome(error, Snapshot()) == WaitForApproval(old(Snapshot()), approval)
    {
      hide Find, InsertedBeforeLast, Explained, Evolves, DistinctIds;
      ghost var f := Snapshot();
      WaitForApprovalEvolves(f, approval);
      StaysExplained(file, f, WaitForApproval(f, approval).flow);
      var action := GetStep(ActionStep(runType));
      if action.None? {
        return Some(UnknownStep);
      }
      if steps[action.value].status.InProgress? {
        error := Transition(action.value, Blocked);
        if error.Some? {
          return;
        }
      }
      var id := ApprovalStep(approval);
      var wait := GetStep(id);
      if wait.None? {
        steps := InsertedBeforeLast(steps, Step(id, InProgress, None, None, None));
      }
      error := None;
      if !status.Waiting? {
        error := TransitionTo(Waiting);
      }
      if error.None? {
        current := id;
      }
    }

    method AwaitRetry(fault: Fault, now: Time) returns (error: Option<Error>)
      requires Valid()
      modifies this`steps, this`status, this`current, this`retryState
      ensures Valid()
      ensures Outcome(error, Snapshot()) == WaitForRetry(old(Snapshot()), fault, now)
    {
      hide Find, InsertedBeforeLast, WithRetryStep, Explained, Evolves, DistinctIds;
      ghost var f := Snapshot();
      WaitForRetryEvolves(f, fault, now);
      StaysExplained(file, f, WaitForRetry(f, fault, now).flow);
      if !fault.retryable {
        return Some(NotRetryable);
      }
      if retryState.attemptsUsed >= retryPolicy.maxAttempts {
        return Some(BudgetExhausted);
      }
      var action := GetStep(ActionStep(runType));
      if action.None? {
        return Some(UnknownStep);
      }
      if steps[action.value].status.InProgress? {
        error := Transition(action.value, Blocked);
        if error.Some? {
          return;
        }
      }
      var attempt := retryState.attemptsUsed + 1;
      var at := now + retryPolicy.backoffSeconds;
      PutRetryStep(attempt, at, fault);
      retryState := RetryState(attempt, Max(retryPolicy.maxAttempts - attempt, 0), Some(at), Some(fault));
      error := None;
      if !status.Waiting? {
        error := TransitionTo(Waiting);
      }
      if error.None? {
        current := RetryStep(attempt);
      }
    }

    method PutRetryStep(attempt: nat, at: Time, fault: Fault)
      modifies this`steps
      ensures Snapshot() == WithRetryStep(old(Snapshot()), attempt, at, fault)
    {
      var id := RetryStep(attempt);
      var wait := GetStep(id);
      if wait.None? {
        steps := InsertedBeforeLast(steps, Step(id, InProgress, Some(at), Some(fault), None));
      } else {
        steps := steps[wait.value := steps[wait.value].(nextRetryAt := Some(at), cause := Some(fault))];
      }
    }

    method Unblock() returns (error: Option<Error>)
      modifies this`steps, this`status, this`current
      ensures Outcome(error, Snapshot()) == LeaveWait(old(Snapshot()))
    {
      hide Find;
      if status.Waiting? {
        error := TransitionTo(Running);
        if error.Some? {
          return;
        }
      }
      var action := GetStep(ActionStep(runType));
      if action.None? {
        return Some(UnknownStep);
      }
      error := None;
      if steps[action.value].status.Blocked? {
        error := Transition(action.value, InProgress);
      }
      if error.None? {
        current := ActionStep(runType);
      }
    }

    method ApprovalArrived(approval: ApprovalId) returns (error: Option<Error>)
      requires Valid()
      modifies this`steps, this`status, this`current
      ensures Valid()
      ensures Outcome(error, Snapshot()) == ResumeFromApproval(old(Snapshot()), approval)
    {
      hide Find, LeaveWait, Explained, Evolves, DistinctIds;
      ghost var f := Snapshot();
      ResumeFromApprovalEvolves(f, approval);
      StaysExplained(file, f, ResumeFromApproval(f, approval).flow);
      var wait := GetStep(ApprovalStep(approval));
      if wait.None? {
        return Some(UnknownStep);
      }
      if steps[wait.value].status.InProgress? {
        error := Transition(wait.value, Completed);
        if error.Some? {
          return;
        }
      }
      error := Unblock();
    }

    method RetryArrived() returns (error: Option<Error>)
      requires Valid()
      modifies this`steps, this`status, this`current, this`retryState
      ensures Valid()
      ensures Outcome(error, Snapshot()) == ResumeFromRetry(old(Snapshot()))
    {
      hide Find, LeaveWait, Explained, Evolves, DistinctIds;
      ghost var f := Snapshot();
      ResumeFromRetryEvolves(f);
      StaysExplained(file, f, ResumeFromRetry(f).flow);
      var wait := GetStep(current);
      if wait.None? {
        return Some(UnknownStep);
      }
      if !current.RetryStep? {
        return Some(NotWaitingOnRetry);
      }
      if steps[wait.value].status.InProgress? {
        error := Transition(wait.value, Completed);
        if error.Some? {
          return;
        }
      }
      error := Unblock();
      if error.None? {
        retryState := retryState.(nextRetryAt := None);
      }
    }

    method Fail(fault: Fault) returns (error: Option<Error>)
      requires Valid()
      modifies this`steps, this`status
      ensures Valid()
      ensures Outcome(error, Snapshot()) == FailWorkflow(old(Snapshot()), fault)
    {
      hide Find, Explained, Evolves, DistinctIds;
      ghost var f := Snapshot();
      FailWorkflowEvolves(f, fault);
      StaysExplained(file, f, FailWorkflow(f, fault).flow);
      var k := GetStep(current);
      if k.None? {
        return Some(UnknownStep);
      }
      if !steps[k.value].status.Completed? && !steps[k.value].status.Failed? {
        error := Transition(k.value, Failed);
        if error.Some? {
          return;
        }
        steps := steps[k.value := steps[k.value].(error := Some(fault))];
      }
      error := None;
      if status.Waiting? || status.Running? {
        error := TransitionTo(FailedFlow);
      }
    }

    /** build_workflow_transition_history: compare the object with the snapshot on disk. */
    method History(before: Flow) returns (events: seq<Event>)
      ensures events == Difference(before, Snapshot())
    {
      hide StepEvent, StepMap, Elements;
      events := HeaderEvents(before, Snapshot());
      ghost var header := events;
      var known := StepMap(before.steps);
      for i := 0 to |steps|
        invariant events == header + StepEvents(known, steps[..i])
      {
        assert steps[..i + 1][..i] == steps[..i];
        events := events + StepEvent(known, steps[i]);
      }
      assert steps[..|steps|] == steps;
      var newChildren := Unknown(Elements(before.children), children);
      var newArtifacts := Unknown(Elements(before.artifacts), artifacts);
      var newMemories := Unknown(Elements(MemoryIds(before.memories)), MemoryIds(memories));
      events := events + ChildEvents(newChildren) + ArtifactEvents(newArtifacts) + MemoryEvents(newMemories)
                + RetryEvents(before, Snapshot());
    }

    /** write_workflow: log the difference to the file's snapshot, then replace the snapshot. */
    method Write()
      requires Valid()
      modifies this`file
      ensures Valid()
      ensures file == Some(if old(file).None? then FirstWrite(Snapshot()) else Written(old(file).value, Snapshot()))
    {
      if file.None? {
        FirstWriteExplains(Snapshot());
        file := Some(FirstWrite(Snapshot()));
      } else {
        WriteStaysExplained(file.value, Snapshot());
        var changes := History(file.value.saved);
        file := Some(Record(file.value.created, file.value.log + changes, Snapshot()));
      }
    }
  }
}
