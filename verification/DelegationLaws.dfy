/** Who may start a child, with what, and what the tree of workflows then looks like: the checks of
    start_child_workflow in their order, and the records they let through. */
module DelegationLaws {
  import opened Common
  import opened Text
  import opened Delegation
  import opened WorkflowTree

  predicate BlankText(text: Option<string>) { text.Some? && Strip(text.value) == "" }

  predicate Allows(allowed: Option<seq<string>>, name: string) { allowed.None? || name in allowed.value }

  function Needed(request: Request, toolTable: map<string, string>): string
    requires request.tool.Some? ==> request.tool.value in toolTable
  {
    if request.tool.None? then "model_call" else toolTable[request.tool.value]
  }

  /** The capabilities of the child: those named, or the one it needs. */
  predicate Gets(request: Request, needed: string, capability: string) {
    if request.capabilities == [] then capability == needed else Names(request.capabilities, capability)
  }

  /** The tools of the child: those named, or the one it is started for. */
  predicate GetsTool(request: Request, tool: string) {
    if request.tools == [] then request.tool == Some(tool) else Names(request.tools, tool)
  }

  predicate KnownCapability(c: string) {
    c in ["model_call", "file_read", "file_write", "http", "exec",
          "runtime_read", "runtime_write", "memory_read", "memory_write"]
  }

  // ---------- the delegation ----------

  /** What is wrong with the capabilities and the tools a request names. */
  ghost function ListProblem(request: Request, needed: string): Option<Problem> {
    if AnyBlank(request.capabilities) then Some(Invalid("allowed_capabilities"))
    else if exists c :: Gets(request, needed, c) && !KnownCapability(c) then Some(UnknownCapability)
    else if !Gets(request, needed, needed) then Some(Invalid("allowed_capabilities"))
    else if AnyBlank(request.tools) then Some(Invalid("allowed_tools"))
    else if request.tool.None? && request.tools != [] then Some(Invalid("allowed_tools"))
    else if request.tool.Some? && !GetsTool(request, request.tool.value) then Some(Invalid("allowed_tools"))
    else None
  }

  /** The first check a request does not pass. */
  ghost function FirstProblem(policy: SubrunPolicy, request: Request, toolTable: map<string, string>): Option<Problem> {
    if !Allows(policy.allowedAgents, request.agent) then Some(AgentDenied)
    else if BlankText(request.role) then Some(Invalid("role"))
    else if request.tool.Some? && request.tool.value !in toolTable then Some(UnknownTool)
    else
      var needed := Needed(request, toolTable);
      if ListProblem(request, needed).Some? then ListProblem(request, needed)
      else if exists c :: Gets(request, needed, c) && !Allows(policy.allowedCapabilities, c)
        then Some(CapabilitiesDenied)
      else if request.tool.Some? && exists t :: GetsTool(request, t) && !Allows(policy.allowedTools, t)
        then Some(ToolsDenied)
      else if BlankText(request.intent) then Some(Invalid("task_intent"))
      else if request.intent.None? && Strip(request.input) == "" then Some(Invalid("task_intent"))
      else if BlankText(request.output) then Some(Invalid("expected_output"))
      else if AnyBlank(request.criteria) then Some(Invalid("completion_criteria"))
      else None
  }

  /** What is wrong with the capabilities alone, and with the tools alone. */
  lemma CapabilitiesLaw(request: Request, needed: string)
    ensures var caps := ChildCapabilities(request, needed);
            && (if AnyBlank(request.capabilities) then caps == Err(Invalid("allowed_capabilities"))
                else if exists c :: Gets(request, needed, c) && !KnownCapability(c) then caps == Err(UnknownCapability)
                else if !Gets(request, needed, needed) then caps == Err(Invalid("allowed_capabilities"))
                else caps.Ok?)
            && (caps.Ok? ==>
                  Distinct(caps.value) && forall c :: c in caps.value <==> Gets(request, needed, c))
  {
    hide Normalized, Strip, AnyBlank, Names, CAPABILITIES, KnownCapability;
    NormalizedHolds(request.capabilities);
    EmptyNamesNothing(request.capabilities);
    forall c ensures c in CAPABILITIES <==> KnownCapability(c) { NineCapabilities(c); }
  }

  lemma NineCapabilities(c: string)
    ensures c in CAPABILITIES <==> KnownCapability(c)
  {
  }

  lemma ToolsLaw(request: Request)
    ensures var tools := ChildTools(request);
            && (if AnyBlank(request.tools) then tools == Err(Invalid("allowed_tools"))
                else if request.tool.None? && request.tools != [] then tools == Err(Invalid("allowed_tools"))
                else if request.tool.Some? && !GetsTool(request, request.tool.value)
                  then tools == Err(Invalid("allowed_tools"))
                else tools.Ok?)
            && (tools.Ok? ==> Distinct(tools.value) && forall t :: t in tools.value <==> GetsTool(request, t))
  {
    hide Normalized, Strip, AnyBlank, Names;
    NormalizedHolds(request.tools);
    EmptyNamesNothing(request.tools);
  }

  lemma ListsLaw(request: Request, needed: string)
    ensures match ListProblem(request, needed)
            case Some(problem) =>
              var caps := ChildCapabilities(request, needed);
              if caps.Err? then caps == Err(problem) else ChildTools(request) == Err(problem)
            case None =>
              && ChildCapabilities(request, needed).Ok? && ChildTools(request).Ok?
              && (forall c :: c in ChildCapabilities(request, needed).value <==> Gets(request, needed, c))
              && (forall t :: t in ChildTools(request).value <==> GetsTool(request, t))
              && Distinct(ChildCapabilities(request, needed).value) && Distinct(ChildTools(request).value)
  {
    hide AnyBlank, Names, ChildCapabilities, ChildTools, Gets, GetsTool, KnownCapability, Distinct;
    CapabilitiesLaw(request, needed);
    ToolsLaw(request);
  }

  /** A delegation is refused with the first check the request does not pass, and built if it passes them all. */
  lemma BuildLaw(parent: WorkflowId, run: RunId, policy: SubrunPolicy, request: Request, toolTable: map<string, string>)
    ensures var built := BuildChildDelegation(parent, run, policy, request, toolTable);
            match FirstProblem(policy, request, toolTable)
            case Some(problem) => built == Err(problem)
            case None => built.Ok?
  {
    hide Normalized, Strip, AnyBlank, Names, ChildCapabilities, ChildTools, ListProblem, Gets, GetsTool;
    hide DefaultOutput;
    NormalizedHolds(request.criteria);
    if request.tool.Some? ==> request.tool.value in toolTable { ListsLaw(request, Needed(request, toolTable)); }
  }

  /** What a delegation lets do: the lists that were asked for, each name once. */
  lemma BuiltListsLaw(parent: WorkflowId, run: RunId, policy: SubrunPolicy, request: Request,
                      toolTable: map<string, string>)
    requires FirstProblem(policy, request, toolTable).None?
    ensures var built := BuildChildDelegation(parent, run, policy, request, toolTable);
            && built.Ok?
            && (forall c :: c in built.value.capabilities <==> Gets(request, Needed(request, toolTable), c))
            && (forall t :: t in built.value.tools <==> GetsTool(request, t))
            && Distinct(built.value.capabilities) && Distinct(built.value.tools)
  {
    hide Strip, AnyBlank, Names, ListProblem, Gets, GetsTool, DefaultOutput, Distinct, ChildCapabilities, ChildTools;
    hide BuildChildDelegation;
    BuildLaw(parent, run, policy, request, toolTable);
    ListsLaw(request, Needed(request, toolTable));
    BuiltParts(parent, run, policy, request, toolTable);
  }

  /** Who gave a delegation, and its texts: stripped, with the agent as the role and standard texts where the request
      says nothing. */
  lemma BuiltTextsLaw(parent: WorkflowId, run: RunId, policy: SubrunPolicy, request: Request,
                      toolTable: map<string, string>)
    requires BuildChildDelegation(parent, run, policy, request, toolTable).Ok?
    ensures var d := BuildChildDelegation(parent, run, policy, request, toolTable).value;
            && d.assignedBy == parent && d.assignedByRun == run
            && d.role == (if request.role.Some? then Strip(request.role.value) else request.agent)
            && d.intent == (if request.intent.Some? then Strip(request.intent.value) else Strip(request.input))
            && d.output == (if request.output.Some? then Strip(request.output.value)
                            else if request.tool.Some?
                              then "Bounded tool result for `" + request.tool.value + "` plus a concise summary"
                            else "Concise bounded result from the delegated `" + d.role + "` task")
  {
    hide Strip, ChildCapabilities, ChildTools, NormalizedOr, AllowedBy, PermittedAgent, RequestedCapability;
    AgentIsHimself(request.agent, policy);
  }

  lemma AgentIsHimself(agent: string, policy: SubrunPolicy)
    ensures PermittedAgent(agent, policy).Ok? ==> PermittedAgent(agent, policy).value == agent
  {
  }

  /** The criteria asked for, each once, or two standard ones. */
  lemma BuiltCriteriaLaw(parent: WorkflowId, run: RunId, policy: SubrunPolicy, request: Request,
                         toolTable: map<string, string>)
    requires BuildChildDelegation(parent, run, policy, request, toolTable).Ok?
    ensures var d := BuildChildDelegation(parent, run, policy, request, toolTable).value;
            && Distinct(d.criteria)
            && (if request.criteria == []
                then d.criteria == ["Stay within the delegated capabilities and tool bounds.",
                                    "Return a bounded result that satisfies the expected output."]
                else forall c :: c in d.criteria <==> Names(request.criteria, c))
  {
    hide Strip, Names, ChildCapabilities, ChildTools, Normalized, AllowedBy, PermittedAgent, RequestedCapability;
    hide NormalizedText, DefaultOutput;
    NormalizedHolds(request.criteria);
    EmptyNamesNothing(request.criteria);
  }

  lemma BuiltParts(parent: WorkflowId, run: RunId, policy: SubrunPolicy, request: Request,
                   toolTable: map<string, string>)
    requires BuildChildDelegation(parent, run, policy, request, toolTable).Ok?
    ensures request.tool.Some? ==> request.tool.value in toolTable
    ensures var d := BuildChildDelegation(parent, run, policy, request, toolTable).value;
            && ChildCapabilities(request, Needed(request, toolTable)) == Ok(d.capabilities)
            && ChildTools(request) == Ok(d.tools)
  {
    hide Strip, ChildCapabilities, ChildTools, Normalized, AllowedBy, DefaultOutput;
  }

  /** A workflow with a delegation may do what the delegation lists, and use the tools it lists; without one, all. */
  lemma DeniedLaw(delegation: Option<Delegation>, capability: string, tool: Option<string>)
    ensures !Denied(delegation, capability, tool) <==>
              match delegation
              case None => true
              case Some(d) => capability in d.capabilities && (tool.None? || tool.value in d.tools)
  {
  }

  // ---------- shared memories ----------

  /** A parent shares what is global, its own or the child's agent's, its own or its root's workflow's, and its first
      or latest run's; nothing else. */
  lemma ShareLaw(parentId: WorkflowId, parent: Node, scope: Scope, childAgent: string)
    ensures Shareable(parentId, parent, scope, childAgent) <==>
              scope in {Global, OfAgent(parent.agent), OfAgent(childAgent), OfWorkflow(parentId),
                        OfWorkflow(parent.root), OfRun(parentId), OfRun(parent.latestRun)}
  {
  }

  /** The first memory, in the order named, that is unknown or that the parent does not share. */
  ghost predicate FirstUnshared(parentId: WorkflowId, parent: Node, names: seq<string>, table: map<string, Scope>,
                                childAgent: string, i: nat, problem: Problem)
  {
    && i < |names|
    && (forall k :: 0 <= k < i ==> names[k] in table && Shareable(parentId, parent, table[names[k]], childAgent))
    && (if names[i] !in table then problem == UnknownMemory
        else !Shareable(parentId, parent, table[names[i]], childAgent) && problem == MemoryDenied)
  }

  lemma {:induction false} SharedProblem(parentId: WorkflowId, parent: Node, names: seq<string>,
                                         table: map<string, Scope>, childAgent: string)
    requires Shared(parentId, parent, names, table, childAgent).Err?
    ensures exists i: nat ::
              FirstUnshared(parentId, parent, names, table, childAgent, i,
                            Shared(parentId, parent, names, table, childAgent).problem)
  {
    hide Shareable;
    var n := |names| - 1;
    var front := names[..n];
    SharedHolds(parentId, parent, front, table, childAgent);
    var problem := Shared(parentId, parent, names, table, childAgent).problem;
    if Shared(parentId, parent, front, table, childAgent).Err? {
      SharedProblem(parentId, parent, front, table, childAgent);
      var i: nat :| FirstUnshared(parentId, parent, front, table, childAgent, i, problem);
      assert forall k :: 0 <= k <= i ==> front[k] == names[k];
      assert FirstUnshared(parentId, parent, names, table, childAgent, i, problem);
    } else {
      assert forall k :: 0 <= k < n ==> front[k] == names[k];
      assert FirstUnshared(parentId, parent, names, table, childAgent, n, problem);
    }
  }

  // ---------- starting a child ----------

  /** A child is admitted if its parent is known, is not as deep as its policy allows and has fewer children than its
      policy allows, if its delegation can be built, and if its parent shares every memory named. */
  lemma AdmitLaw(t: Tree, parentId: WorkflowId, request: Request, toolTable: map<string, string>,
                 memories: map<string, Scope>)
    ensures var admitted := Admitted(t, parentId, request, toolTable, memories);
            if parentId !in t then admitted == Err(UnknownWorkflow)
            else
              var parent := t[parentId];
              if parent.depth >= parent.policy.maxDepth || |parent.children| >= parent.policy.maxChildren
              then admitted == Err(CannotSpawn)
              else
                var built := BuildChildDelegation(parentId, parent.latestRun, parent.policy, request, toolTable);
                if built.Err? then admitted == built
                else if AnyBlank(request.memories) then admitted == Err(Invalid("shared_memory_ids"))
                else if forall name :: Names(request.memories, name) ==>
                          name in memories && Shareable(parentId, parent, memories[name], request.agent)
                  then admitted == built
                else admitted.Err? && (admitted.problem == UnknownMemory || admitted.problem == MemoryDenied)
  {
    hide BuildChildDelegation, Normalized, AnyBlank, Names, Shared, Shareable;
    NormalizedHolds(request.memories);
    if parentId in t && Normalized(request.memories).Some? {
      var names := Normalized(request.memories).value;
      SharedHolds(parentId, t[parentId], names, memories, request.agent);
      assert forall name :: name in names <==> Names(request.memories, name);
      if Shared(parentId, t[parentId], names, memories, request.agent).Err? {
        SharedProblem(parentId, t[parentId], names, memories, request.agent);
      }
    }
  }

  /** The parent has the child as its last one, whatever became of its run; if the child was written, it is there,
      below its parent and under its parent's root; all other workflows stay. */
  lemma SpawnLaw(t: Tree, parentId: WorkflowId, childId: WorkflowId, agent: string, delegation: Delegation,
                 ran: ChildRun)
    requires parentId in t && childId !in t
    ensures var u, parent := Spawned(t, parentId, childId, agent, delegation, ran), t[parentId];
            && u.Keys == t.Keys + (if ran.Written? then {childId} else {})
            && u[parentId] == parent.(children := parent.children + [childId])
            && (forall id :: id in t && id != parentId ==> u[id] == t[id])
            && (ran.Written? ==>
                  u[childId] == Node(Some(parentId), parent.root, parent.depth + 1, agent, childId, [], ran.policy,
                                     Some(delegation)))
  {
  }

  /** A root is its own root, at depth zero; a later run only replaces the run and the policy. */
  lemma RootAndRerunLaw(t: Tree, e: Event, limits: SubrunPolicy)
    requires Enabled(t, e, limits) && !e.Child?
    ensures WorkflowTree.Next(t, e, limits)
            == match e
               case Root(id, agent, policy) => t[id := Node(None, id, 0, agent, id, [], policy, None)]
               case Rerun(id, run, policy) =>
                 t[id := Node(t[id].parent, t[id].root, t[id].depth, t[id].agent, run, t[id].children, policy,
                              t[id].delegation)]
  {
  }
}
