/** The tree of workflows that start_child_workflow builds, and how large and how deep it can get. */
module WorkflowTree {
  import opened Common
  import opened Delegation

  datatype Node = Node(
    parent: Option<WorkflowId>, root: WorkflowId, depth: nat, agent: string, latestRun: RunId,
    children: seq<WorkflowId>, policy: SubrunPolicy, delegation: Option<Delegation>)

  datatype Scope = Global | OfAgent(name: string) | OfWorkflow(workflow: WorkflowId) | OfRun(run: RunId) | OtherScope

  /** What became of the child's run: it raised before the workflow was written, or the workflow is there,
      with the subrun policy it was configured with, whether or not the run raised afterwards. */
  datatype ChildRun = Unwritten | Written(policy: SubrunPolicy, raised: bool)

  type Tree = map<WorkflowId, Node>

  // ---------- shared memories ----------

  /** memory_is_shareable_with_child; a workflow's first run has the workflow's id. */
  predicate Shareable(parentId: WorkflowId, parent: Node, scope: Scope, childAgent: string) {
    match scope
    case Global => true
    case OfAgent(name) => name == parent.agent || name == childAgent
    case OfWorkflow(workflow) => workflow == parentId || workflow == parent.root
    case OfRun(run) => run == parentId || run == parent.latestRun
    case OtherScope => false
  }

  function Shared(parentId: WorkflowId, parent: Node, names: seq<string>, table: map<string, Scope>,
                  childAgent: string): Result<seq<string>> {
    if names == [] then Ok([])
    else
      var front :- Shared(parentId, parent, names[..|names| - 1], table, childAgent);
      var name := names[|names| - 1];
      :- Need(name in table, UnknownMemory);
      :- Need(Shareable(parentId, parent, table[name], childAgent), MemoryDenied);
      Ok(front + [name])
  }

  /** All or nothing: either every named memory may be shared and all are, or the child is not started. */
  lemma {:induction false} SharedHolds(parentId: WorkflowId, parent: Node, names: seq<string>,
                                       table: map<string, Scope>, childAgent: string)
    ensures var r := Shared(parentId, parent, names, table, childAgent);
            (r.Ok? <==> forall i :: 0 <= i < |names| ==>
               names[i] in table && Shareable(parentId, parent, table[names[i]], childAgent))
            && (r.Ok? ==> r.value == names)
  {
    if names != [] {
      var n := |names| - 1;
      SharedHolds(parentId, parent, names[..n], table, childAgent);
      assert names == names[..n] + [names[n]];
      assert forall i :: 0 <= i < n ==> names[..n][i] == names[i];
    }
  }

  /** materialize_shared_memories */
  method MaterializeSharedMemories(parentId: WorkflowId, parent: Node, ids: seq<string>, table: map<string, Scope>,
                                   childAgent: string)
    returns (r: Result<seq<string>>)
    ensures r == match Normalized(ids)
                 case None => Err(Invalid("shared_memory_ids"))
                 case Some(names) => Shared(parentId, parent, names, table, childAgent)
  {
    var normalized := NormalizeStringList(ids);
    if normalized.None? {
      return Err(Invalid("shared_memory_ids"));
    }
    var names := normalized.value;
    var shared := [];
    var i := 0;
    while i < |names|
      invariant i <= |names| && Shared(parentId, parent, names[..i], table, childAgent) == Ok(shared)
    {
      assert names[..i + 1][..i] == names[..i];
      var one := if names[i] !in table then Stop(UnknownMemory)
      else if !Shareable(parentId, parent, table[names[i]], childAgent) then Stop(MemoryDenied) else Pass;
      if one.Stop? {
        FirstProblemStands(parentId, parent, names, i, table, childAgent);
        return Err(one.problem);
      }
      shared := shared + [names[i]];
      i := i + 1;
    }
    assert names[..i] == names;
    r := Ok(shared);
  }

  lemma {:induction false} FirstProblemStands(parentId: WorkflowId, parent: Node, names: seq<string>, i: nat,
                                              table: map<string, Scope>, childAgent: string)
    requires i < |names| && Shared(parentId, parent, names[..i + 1], table, childAgent).Err?
    ensures Shared(parentId, parent, names, table, childAgent)
            == Shared(parentId, parent, names[..i + 1], table, childAgent)
  {
    if i + 1 == |names| {
      assert names[..i + 1] == names;
    } else {
      var n := |names| - 1;
      assert names[..n][..i + 1] == names[..i + 1];
      FirstProblemStands(parentId, parent, names[..n], i, table, childAgent);
    }
  }

  // ---------- the steps ----------

  predicate CanSpawn(n: Node) { n.depth < n.policy.maxDepth && |n.children| < n.policy.maxChildren }

  function RootNode(id: WorkflowId, agent: string, policy: SubrunPolicy): Node {
    Node(None, id, 0, agent, id, [], policy, None)
  }

  function ChildNode(parentId: WorkflowId, parent: Node, childId: WorkflowId, agent: string, delegation: Delegation,
                     policy: SubrunPolicy): Node
  {
    Node(Some(parentId), parent.root, parent.depth + 1, agent, childId, [], policy, Some(delegation))
  }

  /** The tree after the child `childId` of `parentId` has run. The parent registers it in any case. */
  function Spawned(t: Tree, parentId: WorkflowId, childId: WorkflowId, agent: string, delegation: Delegation,
                   ran: ChildRun): Tree
    requires parentId in t
  {
    var parent := t[parentId];
    var known := match ran
      case Unwritten => t
      case Written(policy, _) => t[childId := ChildNode(parentId, parent, childId, agent, delegation, policy)];
    known[parentId := parent.(children := parent.children + [childId])]
  }

  /** The checks start_child_workflow makes before it starts anything. */
  function Admitted(t: Tree, parentId: WorkflowId, request: Request, toolTable: map<string, string>,
                    memories: map<string, Scope>): Result<Delegation>
  {
    var parent :- if parentId in t then Ok(t[parentId]) else Err(UnknownWorkflow);
    :- Need(CanSpawn(parent), CannotSpawn);
    var delegation :- BuildChildDelegation(parentId, parent.latestRun, parent.policy, request, toolTable);
    var names :- NormalizedOr(request.memories, "shared_memory_ids");
    var _ :- Shared(parentId, parent, names, memories, request.agent);
    Ok(delegation)
  }

  /** A new root, a child, or a later run that configures a workflow anew. */
  datatype Event =
    | Root(id: WorkflowId, agent: string, policy: SubrunPolicy)
    | Child(parentId: WorkflowId, childId: WorkflowId, childAgent: string, delegation: Delegation, ran: ChildRun)
    | Rerun(workflow: WorkflowId, run: RunId, newPolicy: SubrunPolicy)

  predicate Within(policy: SubrunPolicy, limits: SubrunPolicy) {
    policy.maxChildren <= limits.maxChildren && policy.maxDepth <= limits.maxDepth
  }

  /** The registered children of some workflows. */
  function ChildrenOf(t: Tree, ids: set<WorkflowId>): set<WorkflowId> {
    set p, c | p in ids && p in t && c in t[p].children :: c
  }

  /** Every id ever given to a workflow; new ids are none of them. */
  function Known(t: Tree): set<WorkflowId> { t.Keys + ChildrenOf(t, t.Keys) }

  predicate Enabled(t: Tree, e: Event, limits: SubrunPolicy) {
    match e
    case Root(id, _, policy) => id !in Known(t) && Within(policy, limits)
    case Child(parentId, childId, _, _, ran) =>
      parentId in t && CanSpawn(t[parentId]) && childId !in Known(t) && (ran.Written? ==> Within(ran.policy, limits))
    case Rerun(id, _, policy) => id in t && Within(policy, limits)
  }

  function Next(t: Tree, e: Event, limits: SubrunPolicy): Tree
    requires Enabled(t, e, limits)
  {
    match e
    case Root(id, agent, policy) => t[id := RootNode(id, agent, policy)]
    case Child(parentId, childId, agent, delegation, ran) => Spawned(t, parentId, childId, agent, delegation, ran)
    case Rerun(id, run, policy) => t[id := t[id].(latestRun := run, policy := policy)]
  }

  // ---------- the invariant ----------

  predicate NodeOk(t: Tree, id: WorkflowId, limits: SubrunPolicy)
    requires id in t
  {
    var n := t[id];
    && Within(n.policy, limits)
    && n.depth <= limits.maxDepth && |n.children| <= limits.maxChildren
    && (n.children != [] ==> n.depth < limits.maxDepth)
    && match n.parent
       case None => n.depth == 0 && n.root == id
       case Some(p) => p in t && id in t[p].children && n.depth == t[p].depth + 1 && n.root == t[p].root
  }

  /** No workflow is registered twice: not by one parent, not by two. */
  ghost predicate ChildrenOnce(t: Tree) {
    && (forall id :: id in t ==> Distinct(t[id].children))
    && (forall id, c :: id in t && c in t[id].children && c in t ==> t[c].parent == Some(id))
    && (forall a, b :: a in t && b in t && a != b ==> Elements(t[a].children) !! Elements(t[b].children))
  }

  ghost predicate TreeOk(t: Tree, limits: SubrunPolicy) {
    (forall id :: id in t ==> NodeOk(t, id, limits)) && ChildrenOnce(t)
  }

  lemma KnownHolds(t: Tree, id: WorkflowId)
    requires id !in Known(t)
    ensures id !in t && forall p :: p in t ==> id !in t[p].children
  {
  }

  lemma NodesStayOk(t: Tree, e: Event, limits: SubrunPolicy)
    requires TreeOk(t, limits) && Enabled(t, e, limits)
    ensures var u := Next(t, e, limits); forall id :: id in u ==> NodeOk(u, id, limits)
  {
    hide ChildrenOnce, Known;
    match e
    case Root(id, _, _) => KnownHolds(t, id);
    case Child(parentId, childId, _, _, _) => KnownHolds(t, childId);
    case Rerun(_, _, _) =>
  }

  lemma ChildrenStayOnce(t: Tree, e: Event, limits: SubrunPolicy)
    requires ChildrenOnce(t) && Enabled(t, e, limits)
    ensures ChildrenOnce(Next(t, e, limits))
  {
    hide Known, Distinct, Elements;
    match e
    case Root(id, _, _) =>
      KnownHolds(t, id);
      NoElements();
    case Child(parentId, childId, _, _, _) =>
      KnownHolds(t, childId);
      NoElements();
      OneMore(t[parentId].children, childId);
      forall id | id in t ensures childId !in Elements(t[id].children) {
        InElements(t[id].children, childId);
      }
    case Rerun(_, _, _) =>
  }

  lemma InElements(s: seq<WorkflowId>, id: WorkflowId)
    ensures id in Elements(s) <==> id in s
  {
  }

  lemma NoElements()
    ensures Elements<WorkflowId>([]) == {} && Distinct<WorkflowId>([])
  {
  }

  lemma OneMore(s: seq<WorkflowId>, id: WorkflowId)
    requires Distinct(s) && id !in s
    ensures Distinct(s + [id]) && Elements(s + [id]) == Elements(s) + {id}
  {
  }

  /** Every step keeps the tree in order. */
  lemma StepKeepsTree(t: Tree, e: Event, limits: SubrunPolicy)
    requires TreeOk(t, limits) && Enabled(t, e, limits)
    ensures TreeOk(Next(t, e, limits), limits)
  {
    NodesStayOk(t, e, limits);
    ChildrenStayOnce(t, e, limits);
  }

  lemma NodeIsOk(t: Tree, limits: SubrunPolicy, id: WorkflowId)
    requires TreeOk(t, limits) && id in t
    ensures NodeOk(t, id, limits)
  {
  }

  // ---------- histories ----------

  predicate Possible(events: seq<Event>, limits: SubrunPolicy)
    decreases |events|, 0
  {
    events == []
    || (Possible(events[..|events| - 1], limits)
        && Enabled(After(events[..|events| - 1], limits), events[|events| - 1], limits))
  }

  function After(events: seq<Event>, limits: SubrunPolicy): Tree
    requires Possible(events, limits)
    decreases |events|, 1
  {
    if events == [] then map[] else Next(After(events[..|events| - 1], limits), events[|events| - 1], limits)
  }

  lemma {:induction false} HistoriesKeepTree(events: seq<Event>, limits: SubrunPolicy)
    requires Possible(events, limits)
    ensures TreeOk(After(events, limits), limits)
  {
    hide Enabled, Next;
    if events != [] {
      HistoriesKeepTree(events[..|events| - 1], limits);
      StepKeepsTree(After(events[..|events| - 1], limits), events[|events| - 1], limits);
    }
  }

  // ---------- depth ----------

  /** A path of parent pointers that ends at a workflow without a parent. */
  predicate Chain(t: Tree, path: seq<WorkflowId>) {
    && path != [] && (forall i :: 0 <= i < |path| ==> path[i] in t)
    && (forall i :: 0 <= i < |path| - 1 ==> t[path[i]].parent == Some(path[i + 1]))
    && t[path[|path| - 1]].parent.None?
  }

  /** Every workflow's depth is the length of its parent chain, and the root is the same all along it. */
  lemma {:induction false} DepthIsChainLength(t: Tree, limits: SubrunPolicy, path: seq<WorkflowId>)
    requires TreeOk(t, limits) && Chain(t, path)
    ensures |path| == t[path[0]].depth + 1 <= limits.maxDepth + 1
    ensures t[path[0]].root == path[|path| - 1]
    ensures forall i :: 0 <= i < |path| ==> t[path[i]].root == t[path[0]].root
  {
    assert NodeOk(t, path[0], limits);
    if |path| > 1 {
      var rest := path[1..];
      assert forall i :: 0 <= i < |rest| ==> rest[i] == path[i + 1];
      assert t[path[0]].parent == Some(path[1]);
      DepthIsChainLength(t, limits, rest);
      forall i | 0 <= i < |path| ensures t[path[i]].root == t[path[0]].root {
        assert i > 0 ==> path[i] == rest[i - 1];
      }
    }
  }

  lemma {:induction false} ChainExists(t: Tree, limits: SubrunPolicy, id: WorkflowId) returns (path: seq<WorkflowId>)
    requires TreeOk(t, limits) && id in t
    ensures Chain(t, path) && path[0] == id
    decreases t[id].depth
  {
    assert NodeOk(t, id, limits);
    if t[id].parent.None? {
      path := [id];
    } else {
      var rest := ChainExists(t, limits, t[id].parent.value);
      path := [id] + rest;
    }
  }

  // ---------- size ----------

  /** All workflows of one tree: those with its root, and their children that were registered only. */
  function Family(t: Tree, root: WorkflowId): set<WorkflowId> {
    var members := set id | id in t && t[id].root == root;
    members + ChildrenOf(t, members)
  }

  function Level(t: Tree, root: WorkflowId, k: nat): set<WorkflowId> {
    if k == 0 then {root} else ChildrenOf(t, Level(t, root, k - 1))
  }

  function UpTo(t: Tree, root: WorkflowId, k: nat): set<WorkflowId> {
    if k == 0 then Level(t, root, 0) else UpTo(t, root, k - 1) + Level(t, root, k)
  }

  function Power(c: nat, k: nat): nat { if k == 0 then 1 else c * Power(c, k - 1) }

  /** 1 + c + c * c + ... up to the d-th power. */
  function TreeSize(c: nat, d: nat): nat { if d == 0 then 1 else TreeSize(c, d - 1) + Power(c, d) }

  /** The family is complete: whoever has this root, and whoever is registered as a child of one of them. */
  lemma FamilyIsWhole(t: Tree, root: WorkflowId, id: WorkflowId)
    ensures id in Family(t, root) <==>
              (id in t && t[id].root == root)
              || exists p :: p in t && t[p].root == root && id in t[p].children
  {
  }

  lemma OneLess(c: nat, a: nat, p: nat)
    ensures (c - 1) * (a + p) == (c - 1) * a + c * p - p
  {
  }

  /** The sum of the powers in closed form. */
  lemma {:induction false} TreeSizeClosed(c: nat, d: nat)
    ensures (c - 1) * TreeSize(c, d) == Power(c, d + 1) - 1
  {
    if d == 0 {
      assert Power(c, 1) == c * Power(c, 0) == c;
    } else {
      hide Power;
      TreeSizeClosed(c, d - 1);
      OneLess(c, TreeSize(c, d - 1), Power(c, d));
      PowerNext(c, d);
    }
  }

  lemma PowerNext(c: nat, k: nat)
    ensures Power(c, k + 1) == c * Power(c, k)
  {
  }

  lemma ChildrenSplit(t: Tree, ids: set<WorkflowId>, id: WorkflowId)
    requires id in ids
    ensures ChildrenOf(t, ids) == ChildrenOf(t, ids - {id}) + (if id in t then Elements(t[id].children) else {})
  {
  }

  lemma OwnChildren(t: Tree, limits: SubrunPolicy, id: WorkflowId)
    requires TreeOk(t, limits)
    ensures |if id in t then Elements(t[id].children) else {}| <= limits.maxChildren
  {
    hide TreeOk, Elements;
    if id in t {
      NodeIsOk(t, limits, id);
      FewElements(t[id].children);
    }
  }

  function Product(c: nat, n: nat): nat { c * n }

  lemma ProductGrows(c: nat, n: nat)
    ensures Product(c, n + 1) == Product(c, n) + c && Product(c, 0) == 0
  {
  }

  lemma {:induction false} FanOut(t: Tree, limits: SubrunPolicy, ids: set<WorkflowId>)
    requires TreeOk(t, limits)
    ensures |ChildrenOf(t, ids)| <= Product(limits.maxChildren, |ids|)
  {
    hide TreeOk, Elements, Product, ChildrenOf;
    if ids == {} {
      NoParentsNoChildren(t);
      ProductGrows(limits.maxChildren, 0);
    } else {
      var id :| id in ids;
      FanOut(t, limits, ids - {id});
      ChildrenSplit(t, ids, id);
      OwnChildren(t, limits, id);
      ProductGrows(limits.maxChildren, |ids - {id}|);
    }
  }

  lemma NoParentsNoChildren(t: Tree)
    ensures ChildrenOf(t, {}) == {}
  {
  }

  lemma {:induction false} LevelSize(t: Tree, limits: SubrunPolicy, root: WorkflowId, k: nat)
    requires TreeOk(t, limits)
    ensures |Level(t, root, k)| <= Power(limits.maxChildren, k)
  {
    hide TreeOk, ChildrenOf;
    if k > 0 {
      LevelSize(t, limits, root, k - 1);
      FanOut(t, limits, Level(t, root, k - 1));
      Times(limits.maxChildren, |Level(t, root, k - 1)|, Power(limits.maxChildren, k - 1));
    }
  }

  lemma Times(c: nat, a: nat, b: nat)
    requires a <= b
    ensures c * a <= c * b
  {
  }

  lemma {:induction false} UpToSize(t: Tree, limits: SubrunPolicy, root: WorkflowId, k: nat)
    requires TreeOk(t, limits)
    ensures |UpTo(t, root, k)| <= TreeSize(limits.maxChildren, k)
  {
    hide TreeOk, Level;
    LevelSize(t, limits, root, k);
    if k > 0 { UpToSize(t, limits, root, k - 1); }
  }

  lemma {:induction false} UpToHolds(t: Tree, root: WorkflowId, k: nat, n: nat)
    requires k <= n
    ensures Level(t, root, k) <= UpTo(t, root, n)
  {
    if k < n { UpToHolds(t, root, k, n - 1); } else if k > 0 {}
  }

  /** A workflow stands on the level of its depth below its root. */
  lemma {:induction false} OnItsLevel(t: Tree, limits: SubrunPolicy, id: WorkflowId)
    requires TreeOk(t, limits) && id in t
    ensures id in Level(t, t[id].root, t[id].depth)
    decreases t[id].depth
  {
    hide TreeOk;
    NodeIsOk(t, limits, id);
    if t[id].parent.Some? { OnItsLevel(t, limits, t[id].parent.value); }
  }

  /** Every workflow of a tree, the failed and the never written ones included, is counted by the sum of
      the powers of the fan-out up to the depth limit. */
  lemma FamilySize(t: Tree, limits: SubrunPolicy, root: WorkflowId)
    requires TreeOk(t, limits)
    ensures |Family(t, root)| <= TreeSize(limits.maxChildren, limits.maxDepth)
  {
    hide TreeOk, UpTo, Family;
    var d := limits.maxDepth;
    forall id | id in Family(t, root) ensures id in UpTo(t, root, d) {
      FamilyMember(t, limits, root, id);
    }
    UpToSize(t, limits, root, d);
    SubsetCount(Family(t, root), UpTo(t, root, d));
  }

  lemma FamilyMember(t: Tree, limits: SubrunPolicy, root: WorkflowId, id: WorkflowId)
    requires TreeOk(t, limits) && id in Family(t, root)
    ensures id in UpTo(t, root, limits.maxDepth)
  {
    hide TreeOk, UpTo;
    if id in t && t[id].root == root {
      NodeIsOk(t, limits, id);
      OnItsLevel(t, limits, id);
      UpToHolds(t, root, t[id].depth, limits.maxDepth);
    } else {
      var p :| p in t && t[p].root == root && id in t[p].children;
      NodeIsOk(t, limits, p);
      OnItsLevel(t, limits, p);
      NextLevel(t, root, t[p].depth, p, id);
      UpToHolds(t, root, t[p].depth + 1, limits.maxDepth);
    }
  }

  lemma NextLevel(t: Tree, root: WorkflowId, k: nat, p: WorkflowId, id: WorkflowId)
    requires p in t && p in Level(t, root, k) && id in t[p].children
    ensures id in Level(t, root, k + 1)
  {
  }

  /** The bound over every history. */
  lemma TreesAreBounded(events: seq<Event>, limits: SubrunPolicy, root: WorkflowId)
    requires Possible(events, limits)
    ensures |Family(After(events, limits), root)| <= TreeSize(limits.maxChildren, limits.maxDepth)
    ensures forall id :: id in After(events, limits) ==> After(events, limits)[id].depth <= limits.maxDepth
  {
    hide Family, After, TreeSize, ChildrenOnce;
    HistoriesKeepTree(events, limits);
    FamilySize(After(events, limits), limits, root);
    forall id | id in After(events, limits) ensures After(events, limits)[id].depth <= limits.maxDepth {
      assert NodeOk(After(events, limits), id, limits);
    }
  }

  // ---------- the store ----------

  class WorkflowStore {
    var nodes: Tree

    constructor ()
      ensures nodes == map[]
    {
      nodes := map[];
    }

    method StartRoot(id: WorkflowId, agent: string, policy: SubrunPolicy)
      requires id !in Known(nodes)
      modifies this
      ensures nodes == old(nodes)[id := RootNode(id, agent, policy)]
    {
      nodes := nodes[id := RootNode(id, agent, policy)];
    }

    /** start_child_workflow. Nothing changes unless the request is admitted; then the parent has one child
        more, also when the child's run raised. `childId` is a new id, `ran` what became of the run. */
    method StartChildWorkflow(parentId: WorkflowId, request: Request, toolTable: map<string, string>,
                              memories: map<string, Scope>, childId: WorkflowId, ran: ChildRun,
                              ghost limits: SubrunPolicy)
      returns (r: Result<WorkflowId>)
      requires childId !in Known(nodes) && TreeOk(nodes, limits) && (ran.Written? ==> Within(ran.policy, limits))
      modifies this
      ensures TreeOk(nodes, limits)
      ensures var admitted := Admitted(old(nodes), parentId, request, toolTable, memories);
              && nodes == (if admitted.Err? then old(nodes)
                           else Spawned(old(nodes), parentId, childId, request.agent, admitted.value, ran))
              && r == (match admitted
                       case Err(problem) => Err(problem)
                       case Ok(_) => if ran.Unwritten? || ran.raised then Err(ChildRaised) else Ok(childId))
    {
      hide Known, TreeOk, Normalized, BuildChildDelegation, Shared;
      if parentId !in nodes {
        return Err(UnknownWorkflow);
      }
      var parent := nodes[parentId];
      if !CanSpawn(parent) {
        return Err(CannotSpawn);
      }
      var delegation :- BuildChildDelegation(parentId, parent.latestRun, parent.policy, request, toolTable);
      var _ :- MaterializeSharedMemories(parentId, parent, request.memories, memories, request.agent);
      StepKeepsTree(nodes, Child(parentId, childId, request.agent, delegation, ran), limits);
      KnownHolds(nodes, childId);
      if ran.Written? {
        nodes := nodes[childId := ChildNode(parentId, parent, childId, request.agent, delegation, ran.policy)];
      }
      nodes := nodes[parentId := parent.(children := Registered(parent, childId))];
      r := if ran.Unwritten? || ran.raised then Err(ChildRaised) else Ok(childId);
    }

    /** A later run of a workflow configures it anew. */
    method Rerun(id: WorkflowId, run: RunId, policy: SubrunPolicy, ghost limits: SubrunPolicy)
      requires id in nodes && TreeOk(nodes, limits) && Within(policy, limits)
      modifies this
      ensures nodes == old(nodes)[id := old(nodes)[id].(latestRun := run, policy := policy)] && TreeOk(nodes, limits)
    {
      StepKeepsTree(nodes, Event.Rerun(id, run, policy), limits);
      nodes := nodes[id := nodes[id].(latestRun := run, policy := policy)];
    }
  }

  /** register_child_workflow, where the parent may spawn. */
  function Registered(parent: Node, childId: WorkflowId): (r: seq<WorkflowId>)
    requires CanSpawn(parent)
    ensures |r| <= parent.policy.maxChildren && childId in r
  {
    if childId in parent.children then parent.children else parent.children + [childId]
  }
}
