/** runtime/workflow_runner.py: what a parent workflow may hand to a child, and what the child may then do. */
module Delegation {
  import opened Common
  import opened Text

  type WorkflowId = nat
  type RunId = nat

  datatype Problem =
    | AgentDenied | CapabilitiesDenied | ToolsDenied | MemoryDenied
    | Invalid(field: string) | UnknownTool | UnknownMemory | UnknownCapability | UnknownWorkflow
    | CannotSpawn | ChildRaised

  datatype Result<+T> = Ok(value: T) | Err(problem: Problem) {
    predicate IsFailure() { Err? }
    function PropagateFailure<U>(): Result<U>
      requires Err?
    {
      Err(problem)
    }
    function Extract(): T
      requires Ok?
    {
      value
    }
  }

  datatype Outcome = Pass | Stop(problem: Problem) {
    predicate IsFailure() { Stop? }
    function PropagateFailure<U>(): Result<U>
      requires Stop?
    {
      Err(problem)
    }
  }

  function Need(condition: bool, problem: Problem): Outcome { if condition then Pass else Stop(problem) }

  datatype SubrunPolicy = SubrunPolicy(
    maxChildren: nat, maxDepth: nat,
    allowedAgents: Option<seq<string>>, allowedCapabilities: Option<seq<string>>, allowedTools: Option<seq<string>>)

  datatype Delegation = Delegation(
    role: string, assignedBy: WorkflowId, assignedByRun: RunId, capabilities: seq<string>, tools: seq<string>,
    intent: string, output: string, criteria: seq<string>)

  /** What a caller asks of a child; an absent list is empty. */
  datatype Request = Request(
    input: string, agent: string, tool: Option<string>, role: Option<string>,
    capabilities: seq<string>, tools: seq<string>,
    intent: Option<string>, output: Option<string>, criteria: seq<string>, memories: seq<string>)

  const CAPABILITIES := {
    "model_call", "file_read", "file_write", "http", "exec",
    "runtime_read", "runtime_write", "memory_read", "memory_write"
  }

  // ---------- lists of names ----------

  /** normalize_string_list: strip, drop repetitions, refuse blank names. */
  function Normalized(items: seq<string>): Option<seq<string>> {
    if items == [] then Some([])
    else
      var item := Strip(items[|items| - 1]);
      match Normalized(items[..|items| - 1])
      case None => None
      case Some(names) => if item == "" then None else if item in names then Some(names) else Some(names + [item])
  }

  predicate AnyBlank(items: seq<string>) { exists i :: 0 <= i < |items| && Strip(items[i]) == "" }

  predicate Names(items: seq<string>, name: string) { exists i :: 0 <= i < |items| && Strip(items[i]) == name }

  /** The result has every stripped name once, and there is none exactly when some name is blank. */
  lemma {:induction false} NormalizedHolds(items: seq<string>)
    ensures Normalized(items).None? <==> AnyBlank(items)
    ensures Normalized(items).Some? ==>
              Distinct(Normalized(items).value) && forall name :: name in Normalized(items).value <==>
                    Names(items, name)
  {
    if items != [] {
      var n := |items| - 1;
      var front, last := items[..n], items[n];
      NormalizedHolds(front);
      if AnyBlank(front) {
        var i :| 0 <= i < |front| && Strip(front[i]) == "";
        assert Strip(items[i]) == "";
      }
      forall name ensures Names(items, name) <==> Names(front, name) || Strip(last) == name {
        if Names(front, name) {
          var i :| 0 <= i < |front| && Strip(front[i]) == name;
          assert Strip(items[i]) == name;
        }
        if Names(items, name) {
          var i :| 0 <= i < |items| && Strip(items[i]) == name;
          assert i < n ==> Strip(front[i]) == name;
        }
      }
      assert AnyBlank(items) <==> Names(items, "");
      assert AnyBlank(front) <==> Names(front, "");
    }
  }

  /** The names are in the order in which they first occur: what follows only adds to them. */
  lemma {:induction false} NormalizedGrows(items: seq<string>, n: nat)
    requires n <= |items| && Normalized(items).Some?
    ensures Normalized(items[..n]).Some? && Normalized(items[..n]).value <= Normalized(items).value
  {
    if n < |items| {
      var front := items[..|items| - 1];
      NormalizedGrows(front, n);
      assert front[..n] == items[..n];
    } else {
      assert items[..n] == items;
    }
  }

  method NormalizeStringList(items: seq<string>) returns (r: Option<seq<string>>)
    ensures r == Normalized(items)
  {
    var names := [];
    var i := 0;
    while i < |items|
      invariant i <= |items| && Normalized(items[..i]) == Some(names)
    {
      assert items[..i + 1][..i] == items[..i];
      var item := Strip(items[i]);
      if item == "" {
        NormalizedHolds(items);
        assert Strip(items[i]) == "";
        return None;
      }
      if item !in names {
        names := names + [item];
      }
      i := i + 1;
    }
    assert items[..i] == items;
    r := Some(names);
  }

  function NormalizedOr(items: seq<string>, field: string): Result<seq<string>> {
    match Normalized(items) case None => Err(Invalid(field)) case Some(names) => Ok(names)
  }

  /** normalize_optional_string */
  function NormalizedText(text: Option<string>, field: string): Result<Option<string>> {
    match text
    case None => Ok(None)
    case Some(s) => if Strip(s) == "" then Err(Invalid(field)) else Ok(Some(Strip(s)))
  }

  // ---------- building a delegation ----------

  predicate AllowedBy(values: seq<string>, allowed: Option<seq<string>>) {
    allowed.Some? ==> forall v :: v in values ==> v in allowed.value
  }

  /** requested_capability, over the table of tools and their capabilities. */
  function RequestedCapability(tool: Option<string>, tools: map<string, string>): Result<string> {
    match tool
    case None => Ok("model_call")
    case Some(name) => if name in tools then Ok(tools[name]) else Err(UnknownTool)
  }

  function ChildCapabilities(request: Request, capability: string): Result<seq<string>> {
    var named :- NormalizedOr(request.capabilities, "allowed_capabilities");
    var chosen := if named == [] then [capability] else named;
    :- Need(forall c :: c in chosen ==> c in CAPABILITIES, UnknownCapability);
    :- Need(capability in chosen, Invalid("allowed_capabilities"));
    Ok(chosen)
  }

  function ChildTools(request: Request): Result<seq<string>> {
    var named :- NormalizedOr(request.tools, "allowed_tools");
    match request.tool
    case None => if named == [] then Ok([]) else Err(Invalid("allowed_tools"))
    case Some(tool) =>
      var chosen := if named == [] then [tool] else named;
      if tool in chosen then Ok(chosen) else Err(Invalid("allowed_tools"))
  }

  function DefaultOutput(tool: Option<string>, role: string): string {
    match tool
    case Some(name) => "Bounded tool result for `" + name + "` plus a concise summary"
    case None => "Concise bounded result from the delegated `" + role + "` task"
  }

  /** ensure_requested_agent_allowed */
  function PermittedAgent(agent: string, policy: SubrunPolicy): Result<string> {
    if AllowedBy([agent], policy.allowedAgents) then Ok(agent) else Err(AgentDenied)
  }

  /** build_child_delegation */
  function BuildChildDelegation(parent: WorkflowId, parentRun: RunId, policy: SubrunPolicy, request: Request,
                                toolTable: map<string, string>): Result<Delegation>
  {
    var agent :- PermittedAgent(request.agent, policy);
    var role :- NormalizedText(request.role, "role");
    var roleName := if role.Some? then role.value else agent;
    var capability :- RequestedCapability(request.tool, toolTable);
    var capabilities :- ChildCapabilities(request, capability);
    var tools :- ChildTools(request);
    :- Need(AllowedBy(capabilities, policy.allowedCapabilities), CapabilitiesDenied);
    :- Need(request.tool.Some? ==> AllowedBy(tools, policy.allowedTools), ToolsDenied);
    var intent :- NormalizedText(request.intent, "task_intent");
    :- Need(intent.Some? || Strip(request.input) != "", Invalid("task_intent"));
    var output :- NormalizedText(request.output, "expected_output");
    var criteria :- NormalizedOr(request.criteria, "completion_criteria");
    Ok(Delegation(
         roleName, parent, parentRun, capabilities, tools,
         if intent.Some? then intent.value else Strip(request.input),
         if output.Some? then output.value else DefaultOutput(request.tool, roleName),
         if criteria != [] then criteria
         else ["Stay within the delegated capabilities and tool bounds.",
               "Return a bounded result that satisfies the expected output."]))
  }

  /** delegation_denial_reason: a workflow without a delegation is not restricted by one. */
  predicate Denied(delegation: Option<Delegation>, capability: string, tool: Option<string>) {
    && delegation.Some?
    && (capability !in delegation.value.capabilities || (tool.Some? && tool.value !in delegation.value.tools))
  }

  // ---------- what a delegation is worth ----------

  /** A child is never denied the very action it was started for. */
  lemma RequestedActionIsNotDenied(parent: WorkflowId, run: RunId, policy: SubrunPolicy, request: Request,
                                   toolTable: map<string, string>)
    requires BuildChildDelegation(parent, run, policy, request, toolTable).Ok?
    ensures RequestedCapability(request.tool, toolTable).Ok?
    ensures !Denied(Some(BuildChildDelegation(parent, run, policy, request, toolTable).value),
                    RequestedCapability(request.tool, toolTable).value, request.tool)
  {
    hide Normalized;
  }

  /** Whatever the child is not denied, its parent's subrun policy allows; a child that only calls the
      model is denied every tool. */
  lemma ChildStaysWithinPolicy(parent: WorkflowId, run: RunId, policy: SubrunPolicy, request: Request,
                               toolTable: map<string, string>, capability: string, tool: Option<string>)
    requires BuildChildDelegation(parent, run, policy, request, toolTable).Ok?
    requires !Denied(Some(BuildChildDelegation(parent, run, policy, request, toolTable).value), capability, tool)
    ensures capability in CAPABILITIES && AllowedBy([capability], policy.allowedCapabilities)
    ensures tool.Some? ==> request.tool.Some? && AllowedBy([tool.value], policy.allowedTools)
    ensures AllowedBy([request.agent], policy.allowedAgents)
  {
    hide Normalized;
  }

  /** The child's lists are what its request names, stripped and without repetition, or else just what
      the request needs. */
  lemma DelegatesWhatWasAsked(parent: WorkflowId, run: RunId, policy: SubrunPolicy, request: Request,
                              toolTable: map<string, string>)
    requires BuildChildDelegation(parent, run, policy, request, toolTable).Ok?
    ensures var d := BuildChildDelegation(parent, run, policy, request, toolTable).value;
            && Distinct(d.capabilities) && Distinct(d.tools)
            && (forall c :: c in d.capabilities <==>
                  Names(request.capabilities, c)
                  || (request.capabilities == [] && c == RequestedCapability(request.tool, toolTable).value))
            && (forall t :: t in d.tools <==>
                  Names(request.tools, t) || (request.tools == [] && request.tool == Some(t)))
            && (d.role != "" || request.agent == "") && d.intent != "" && d.output != "" && d.criteria != []
  {
    hide NormalizedOr, ChildCapabilities, ChildTools, Names, Distinct;
    CapabilitiesAsked(request, RequestedCapability(request.tool, toolTable).value);
    ToolsAsked(request);
  }

  lemma CapabilitiesAsked(request: Request, capability: string)
    requires ChildCapabilities(request, capability).Ok?
    ensures var chosen := ChildCapabilities(request, capability).value;
            Distinct(chosen) && forall c :: c in chosen <==>
                  Names(request.capabilities, c) || (request.capabilities == [] && c == capability)
  {
    hide Normalized;
    NormalizedHolds(request.capabilities);
    EmptyNamesNothing(request.capabilities);
  }

  lemma ToolsAsked(request: Request)
    requires ChildTools(request).Ok?
    ensures var chosen := ChildTools(request).value;
            Distinct(chosen) && forall t :: t in chosen <==>
                  Names(request.tools, t) || (request.tools == [] && request.tool == Some(t))
  {
    hide Normalized;
    NormalizedHolds(request.tools);
    EmptyNamesNothing(request.tools);
  }

  lemma EmptyNamesNothing(items: seq<string>)
    ensures Normalized(items) == Some([]) <==> items == []
  {
    NormalizedHolds(items);
    if items != [] && Normalized(items).Some? {
      assert Names(items, Strip(items[0]));
    }
  }

  /** A delegation does not bind what its holder hands on: a child that may not call the model can start
      a child that may, unless its own subrun policy forbids it. */
  lemma AttenuationIsNotTransitive(holder: Delegation, policy: SubrunPolicy, toolTable: map<string, string>)
    requires "model_call" !in holder.capabilities
    ensures var request := Request("x", "agent", None, None, [], [], None, None, [], []);
            var built := BuildChildDelegation(0, 0, policy, request, toolTable);
            && (built.Ok? <==>
                  AllowedBy(["agent"], policy.allowedAgents) && AllowedBy(["model_call"], policy.allowedCapabilities))
            && (built.Ok? ==>
                  Denied(Some(holder), "model_call", None) && !Denied(Some(built.value), "model_call", None))
  {
  }

  // ---------- exactly when a delegation does bind ----------

  /** Whatever a holder with this subrun policy hands on stays within its own capabilities. */
  ghost predicate CapabilitiesAttenuate(holder: Delegation, parent: WorkflowId, run: RunId, policy: SubrunPolicy,
                                        toolTable: map<string, string>) {
    forall request :: BuildChildDelegation(parent, run, policy, request, toolTable).Ok? ==>
      forall c :: c in BuildChildDelegation(parent, run, policy, request, toolTable).value.capabilities ==>
            c in holder.capabilities
  }

  ghost predicate ToolsAttenuate(holder: Delegation, parent: WorkflowId, run: RunId, policy: SubrunPolicy,
                                 toolTable: map<string, string>) {
    forall request :: BuildChildDelegation(parent, run, policy, request, toolTable).Ok? ==>
      forall t :: t in BuildChildDelegation(parent, run, policy, request, toolTable).value.tools ==> t in holder.tools
  }

  lemma CapabilityIsClean(c: string)
    requires c in CAPABILITIES
    ensures Strip(c) == c && c != ""
  {
    assert Clean(c);
    CleanStays(c);
  }

  lemma NextName(items: seq<string>, x: string)
    requires Normalized(items).Some? && Strip(x) == x && x != ""
    ensures Normalized(items + [x])
         == Some(if x in Normalized(items).value then Normalized(items).value else Normalized(items).value + [x])
  {
    var all := items + [x];
    assert all[..|all| - 1] == items && all[|all| - 1] == x;
  }

  lemma TwoNames(a: string, b: string)
    requires Strip(a) == a && a != "" && Strip(b) == b && b != ""
    ensures Normalized([a, b]) == Some(if a == b then [a] else [a, b])
  {
    hide Strip, Normalized;
    EmptyNamesNothing([]);
    NextName([], a);
    assert [] + [a] == [a];
    NextName([a], b);
    assert [a] + [b] == [a, b];
  }

  /** An admissible request stays admissible if it names one more capability that the policy allows. */
  lemma OneMoreCapability(parent: WorkflowId, run: RunId, policy: SubrunPolicy, request: Request,
                          toolTable: map<string, string>, c: string)
    returns (more: Request)
    requires BuildChildDelegation(parent, run, policy, request, toolTable).Ok?
    requires c in CAPABILITIES && AllowedBy([c], policy.allowedCapabilities)
    ensures BuildChildDelegation(parent, run, policy, more, toolTable).Ok?
    ensures c in BuildChildDelegation(parent, run, policy, more, toolTable).value.capabilities
  {
    hide Normalized, Strip, CAPABILITIES, ChildTools, PermittedAgent, NormalizedText;
    RequestedActionIsNotDenied(parent, run, policy, request, toolTable);
    var own := RequestedCapability(request.tool, toolTable).value;
    ChildStaysWithinPolicy(parent, run, policy, request, toolTable, own, request.tool);
    more := request.(capabilities := [own, c]);
    CapabilityIsClean(own);
    CapabilityIsClean(c);
    TwoNames(own, c);
    SameTools(request, more);
  }

  lemma SameTools(a: Request, b: Request)
    requires a.tool == b.tool && a.tools == b.tools
    ensures ChildTools(a) == ChildTools(b)
  {
  }

  /** What a holder hands on stays within its own capabilities exactly when its subrun policy allows none
      beyond them; given that it can hand on anything at all. */
  lemma CapabilitiesAttenuateExactlyWhen(holder: Delegation, parent: WorkflowId, run: RunId, policy: SubrunPolicy,
                                         toolTable: map<string, string>, admissible: Request)
    requires BuildChildDelegation(parent, run, policy, admissible, toolTable).Ok?
    ensures CapabilitiesAttenuate(holder, parent, run, policy, toolTable)
            <==> forall c :: c in CAPABILITIES && AllowedBy([c], policy.allowedCapabilities) ==>
                  c in holder.capabilities
  {
    hide BuildChildDelegation, CAPABILITIES;
    if CapabilitiesAttenuate(holder, parent, run, policy, toolTable) {
      forall c | c in CAPABILITIES && AllowedBy([c], policy.allowedCapabilities) ensures c in holder.capabilities {
        var more := OneMoreCapability(parent, run, policy, admissible, toolTable, c);
      }
    }
    if forall c :: c in CAPABILITIES && AllowedBy([c], policy.allowedCapabilities) ==> c in holder.capabilities {
      forall request, c | BuildChildDelegation(parent, run, policy, request, toolTable).Ok?
                          && c in BuildChildDelegation(parent, run, policy, request, toolTable).value.capabilities
        ensures c in holder.capabilities
      {
        ChildStaysWithinPolicy(parent, run, policy, request, toolTable, c, None);
      }
    }
  }

  /** A child may be given this tool: the policy allows it, and it is a name in normal form or one of the
      table whose capability may be handed on. */
  predicate Offered(t: string, policy: SubrunPolicy, toolTable: map<string, string>) {
    && AllowedBy([t], policy.allowedTools)
    && ((t != "" && Strip(t) == t)
        || (t in toolTable && toolTable[t] in CAPABILITIES && AllowedBy([toolTable[t]], policy.allowedCapabilities)))
  }

  lemma OneMoreNamedTool(parent: WorkflowId, run: RunId, policy: SubrunPolicy, request: Request,
                         toolTable: map<string, string>, t: string)
    returns (more: Request)
    requires BuildChildDelegation(parent, run, policy, request, toolTable).Ok?
    requires request.tool.Some? && request.tool.value != "" && Strip(request.tool.value) == request.tool.value
    requires t != "" && Strip(t) == t && AllowedBy([t], policy.allowedTools)
    ensures BuildChildDelegation(parent, run, policy, more, toolTable).Ok?
    ensures t in BuildChildDelegation(parent, run, policy, more, toolTable).value.tools
  {
    hide Normalized, Strip, ChildCapabilities;
    var own := request.tool.value;
    more := request.(tools := [own, t]);
    TwoNames(own, t);
    SameCapabilities(request, more);
    RequestedActionIsNotDenied(parent, run, policy, request, toolTable);
    ChildStaysWithinPolicy(parent, run, policy, request, toolTable, RequestedCapability(request.tool, toolTable).value,
                           Some(own));
  }

  lemma SameCapabilities(a: Request, b: Request)
    requires a.capabilities == b.capabilities
    ensures forall c :: ChildCapabilities(a, c) == ChildCapabilities(b, c)
  {
  }

  lemma OneMoreTableTool(parent: WorkflowId, run: RunId, policy: SubrunPolicy, request: Request,
                         toolTable: map<string, string>, t: string)
    returns (more: Request)
    requires BuildChildDelegation(parent, run, policy, request, toolTable).Ok?
    requires t in toolTable && toolTable[t] in CAPABILITIES && AllowedBy([toolTable[t]], policy.allowedCapabilities)
    requires AllowedBy([t], policy.allowedTools)
    ensures BuildChildDelegation(parent, run, policy, more, toolTable).Ok?
    ensures t in BuildChildDelegation(parent, run, policy, more, toolTable).value.tools
  {
    hide Normalized, Strip, CAPABILITIES;
    more := request.(tool := Some(t), tools := [], capabilities := []);
    EmptyNamesNothing([]);
  }

  lemma OneMoreTool(parent: WorkflowId, run: RunId, policy: SubrunPolicy, request: Request,
                    toolTable: map<string, string>, t: string)
    returns (more: Request)
    requires BuildChildDelegation(parent, run, policy, request, toolTable).Ok?
    requires request.tool.Some? && request.tool.value != "" && Strip(request.tool.value) == request.tool.value
    requires Offered(t, policy, toolTable)
    ensures BuildChildDelegation(parent, run, policy, more, toolTable).Ok?
    ensures t in BuildChildDelegation(parent, run, policy, more, toolTable).value.tools
  {
    hide BuildChildDelegation, Strip, CAPABILITIES;
    if t != "" && Strip(t) == t {
      more := OneMoreNamedTool(parent, run, policy, request, toolTable, t);
    } else {
      more := OneMoreTableTool(parent, run, policy, request, toolTable, t);
    }
  }

  lemma ToolsAreOffered(parent: WorkflowId, run: RunId, policy: SubrunPolicy, request: Request,
                        toolTable: map<string, string>, t: string)
    requires BuildChildDelegation(parent, run, policy, request, toolTable).Ok?
    requires t in BuildChildDelegation(parent, run, policy, request, toolTable).value.tools
    ensures Offered(t, policy, toolTable)
  {
    hide Normalized, Strip;
    var d := BuildChildDelegation(parent, run, policy, request, toolTable).value;
    assert t in ChildTools(request).value;
    ToolsAsked(request);
    var own := RequestedCapability(request.tool, toolTable).value;
    RequestedActionIsNotDenied(parent, run, policy, request, toolTable);
    ChildStaysWithinPolicy(parent, run, policy, request, toolTable, own, Some(t));
    if Names(request.tools, t) {
      var i :| 0 <= i < |request.tools| && Strip(request.tools[i]) == t;
      StripIsClean(request.tools[i]);
      NamedIsNotBlank(request.tools, i);
    }
  }

  lemma NamedIsNotBlank(items: seq<string>, i: nat)
    requires Normalized(items).Some? && i < |items|
    ensures Strip(items[i]) != ""
  {
    NormalizedHolds(items);
  }

  /** The same for tools, given that the holder can hand on some tool with a name in normal form. */
  lemma ToolsAttenuateExactlyWhen(holder: Delegation, parent: WorkflowId, run: RunId, policy: SubrunPolicy,
                                  toolTable: map<string, string>, admissible: Request)
    requires BuildChildDelegation(parent, run, policy, admissible, toolTable).Ok?
    requires admissible.tool.Some? && admissible.tool.value != ""
    requires Strip(admissible.tool.value) == admissible.tool.value
    ensures ToolsAttenuate(holder, parent, run, policy, toolTable)
            <==> forall t :: Offered(t, policy, toolTable) ==> t in holder.tools
  {
    hide BuildChildDelegation, Offered, Strip;
    if ToolsAttenuate(holder, parent, run, policy, toolTable) {
      forall t | Offered(t, policy, toolTable) ensures t in holder.tools {
        var more := OneMoreTool(parent, run, policy, admissible, toolTable, t);
      }
    }
    if forall t :: Offered(t, policy, toolTable) ==> t in holder.tools {
      forall request, t | BuildChildDelegation(parent, run, policy, request, toolTable).Ok?
                          && t in BuildChildDelegation(parent, run, policy, request, toolTable).value.tools
        ensures t in holder.tools
      {
        ToolsAreOffered(parent, run, policy, request, toolTable, t);
      }
    }
  }
}
