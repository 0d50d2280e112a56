/** `validate_dag`: which configurations are accepted, and with which plan. */
module Validator {
  import opened Model
  import opened Parameters
  import opened Descendants
  import opened Board
  import opened Planner
  import opened References

  const DAG_CYCLE := Workflow("DAG_CYCLE")
  const UNREACHABLE_NODE := Workflow("UNREACHABLE_NODE")

  /** The dictionary of listed nodes by id; a later one replaces an earlier one. */
  function NodeMap(listed: seq<NodeDef>): Nodes {
    if listed == [] then map[]
    else var last := listed[|listed| - 1]; NodeMap(listed[..|listed| - 1])[last.id := last]
  }

  /** What the configuration schema guarantees before validation. */
  ghost predicate SchemaValid(cfg: Config, listed: seq<NodeDef>) {
    && cfg.nodes == NodeMap(listed)
    && cfg.maxParallel >= 1
    && (forall g | g in cfg.groups :: cfg.groups[g] >= 1)
    && (forall n | n in listed :: n.parameters.Object?)
  }

  predicate DistinctIds(listed: seq<NodeDef>) {
    forall i, j | 0 <= i < j < |listed| :: listed[i].id != listed[j].id
  }

  predicate DistinctCheckpoints(listed: seq<NodeDef>) {
    forall i, j | 0 <= i < j < |listed| :: listed[i].checkpointName != listed[j].checkpointName
  }

  predicate DistinctDependencies(node: NodeDef) {
    forall i, j | 0 <= i < j < |node.dependencies| :: node.dependencies[i] != node.dependencies[j]
  }

  /** The checks on one node, in their order. */
  function NodeFault(cfg: Config, node: NodeDef): Option<Failure> {
    if node.notebook !in cfg.definitions then Some(Workflow("MISSING_NOTEBOOK"))
    else if exists d | d in node.dependencies :: d !in cfg.nodes then Some(Workflow("UNDEFINED_DEPENDENCY"))
    else if !DistinctDependencies(node) then Some(Workflow("DUPLICATE_DEPENDENCY"))
    else if node.dependencies == [] && !node.trigger.AllSuccess? && !node.trigger.AllDone? then
      Some(Workflow("INVALID_TRIGGER"))
    else if node.group !in cfg.groups then Some(Workflow("INVALID_CONCURRENCY"))
    else if exists name | name in node.resources ::
              name !in cfg.resources || node.resources[name] > cfg.resources[name]
    then Some(Workflow("INVALID_CONCURRENCY"))
    else if !Safe(node.strategy) && node.retry.maxRetries > 0 then Some(Workflow("UNSAFE_RETRY"))
    else if node.strategy.Compensation?
            && (node.compensationNode !in cfg.nodes || node.compensationNode == node.id) then
      Some(Workflow("INVALID_COMPENSATION"))
    else if && node.condition.Some? && node.parameters.Object?
            && node.condition.value.parameter !in node.parameters.fields
    then Some(Workflow("INVALID_CONDITION"))
    else if !Accepts(node.parameters, cfg, node) then Some(Workflow("INVALID_REFERENCE"))
    else None
  }

  /** What is raised for a node, check by check; both concurrency checks raise the same. */
  const CODES := ["MISSING_NOTEBOOK", "UNDEFINED_DEPENDENCY", "DUPLICATE_DEPENDENCY", "INVALID_TRIGGER",
                  "INVALID_CONCURRENCY", "UNSAFE_RETRY", "INVALID_COMPENSATION", "INVALID_CONDITION",
                  "INVALID_REFERENCE"]

  /** The node fails check `i`. */
  ghost predicate Breaks(cfg: Config, node: NodeDef, i: nat) {
    match i
    case 0 => node.notebook !in cfg.definitions
    case 1 => exists d | d in node.dependencies :: d !in cfg.nodes
    case 2 => exists i, j | 0 <= i < j < |node.dependencies| :: node.dependencies[i] == node.dependencies[j]
    case 3 => node.dependencies == [] && node.trigger !in {AllSuccess, AllDone}
    case 4 =>
      || node.group !in cfg.groups
      || exists name | name in node.resources ::
           name !in cfg.resources || node.resources[name] > cfg.resources[name]
    case 5 => node.strategy in {Compensation, Manual} && node.retry.maxRetries > 0
    case 6 =>
      node.strategy == Compensation && (node.compensationNode !in cfg.nodes || node.compensationNode == node.id)
    case 7 =>
      && node.condition.Some? && node.parameters.Object?
      && node.condition.value.parameter !in node.parameters.fields
    case 8 => !AllAdmitted(node.parameters, cfg, node)
    case _ => false
  }

  /** The node passes every check. */
  ghost predicate Correct(cfg: Config, node: NodeDef) {
    forall i | 0 <= i < |CODES| :: !Breaks(cfg, node, i)
  }

  /** The first check that the node fails decides what is raised. */
  lemma FaultsExactly(cfg: Config, node: NodeDef)
    ensures NodeFault(cfg, node).None? <==> Correct(cfg, node)
    ensures forall i | 0 <= i < |CODES| ::
              NodeFault(cfg, node) == Some(Workflow(CODES[i])) <==>
              Breaks(cfg, node, i) && forall j | 0 <= j < i :: !Breaks(cfg, node, j)
  {
    hide Accepts, AllAdmitted;
    AcceptsExactly(node.parameters, cfg, node);
    assert DistinctDependencies(node) <==> !Breaks(cfg, node, 2);
    var notebook, undefined, duplicate := Breaks(cfg, node, 0), Breaks(cfg, node, 1), Breaks(cfg, node, 2);
    var trigger, concurrency, retry := Breaks(cfg, node, 3), Breaks(cfg, node, 4), Breaks(cfg, node, 5);
    var compensation, condition, reference := Breaks(cfg, node, 6), Breaks(cfg, node, 7), Breaks(cfg, node, 8);
  }

  /** Everything that is checked before the graph itself. */
  ghost predicate WellFormed(cfg: Config, listed: seq<NodeDef>, sparkCapacity: nat) {
    && (forall i, j | 0 <= i < j < |listed| :: listed[i].id != listed[j].id)
    && (forall i, j | 0 <= i < j < |listed| :: listed[i].checkpointName != listed[j].checkpointName)
    && cfg.entries <= cfg.nodes.Keys
    && cfg.maxParallel <= sparkCapacity
    && forall n | n in listed :: Correct(cfg, n)
  }

  ghost predicate Acyclic(nodes: Nodes) {
    forall c :: !Cycle(nodes, c)
  }

  lemma {:induction false} MapHoldsListed(listed: seq<NodeDef>, k: NodeId)
    ensures k in NodeMap(listed) ==> NodeMap(listed)[k] in listed && NodeMap(listed)[k].id == k
    ensures k !in NodeMap(listed) ==> forall n | n in listed :: n.id != k
  {
    if listed != [] {
      MapHoldsListed(listed[..|listed| - 1], k);
      assert forall n | n in listed :: n == listed[|listed| - 1] || n in listed[..|listed| - 1];
    }
  }

  /** A well-formed configuration has the properties that the scheduler relies on. */
  lemma WellFormedNodes(cfg: Config, listed: seq<NodeDef>, sparkCapacity: nat)
    requires SchemaValid(cfg, listed) && WellFormed(cfg, listed, sparkCapacity)
    ensures forall k | k in cfg.nodes :: ValidNode(cfg, k)
    ensures forall k, d | k in cfg.nodes && d in cfg.nodes[k].dependencies :: d in cfg.nodes
  {
    forall k | k in cfg.nodes ensures ValidNode(cfg, k) && forall d | d in cfg.nodes[k].dependencies :: d in cfg.nodes {
      MapHoldsListed(listed, k);
      FaultsExactly(cfg, cfg.nodes[k]);
      assert NodeFault(cfg, cfg.nodes[k]).None?;
    }
  }

  lemma FullLengthIsComplete(nodes: Nodes, plan: seq<NodeId>)
    requires Greedy(nodes, plan)
    ensures |plan| == |nodes| <==> Complete(nodes, plan)
  {
    GreedyOrders(nodes, plan);
    forall i, j | 0 <= i < j < |plan| ensures plan[i] != plan[j] {
      assert LeastAt(nodes, plan, j);
      assert plan[i] in plan[..j];
    }
    DistinctCount(plan, Elements(plan));
    if |plan| == |nodes| {
      SubsetOfSameSize(Elements(plan), nodes.Keys);
    }
  }

  lemma SubsetOfSameSize<T>(small: set<T>, large: set<T>)
    requires small <= large && |small| == |large|
    ensures small == large
  {
    assert large == small + (large - small);
  }

  /** `len(plan) != len(nodes)` means a cycle, and nothing else. */
  lemma ShortPlanMeansCycle(nodes: Nodes, plan: seq<NodeId>)
    requires Greedy(nodes, plan) && Stuck(nodes, Elements(plan))
    requires forall k, d | k in nodes && d in nodes[k].dependencies :: d in nodes
    ensures |plan| != |nodes| <==> exists c :: Cycle(nodes, c)
    ensures |plan| == |nodes| ==> Planned(nodes, plan)
  {
    FullLengthIsComplete(nodes, plan);
    GreedyOrders(nodes, plan);
    if Complete(nodes, plan) {
      forall c ensures !Cycle(nodes, c) {
        if Cycle(nodes, c) {
          CycleBlocks(nodes, plan, c);
        }
      }
    } else {
      var c := StuckHasCycle(nodes, Elements(plan));
    }
  }

  /** The first fault of the listed nodes, if any: the first check that the first incorrect node fails. */
  ghost predicate FirstFault(cfg: Config, listed: seq<NodeDef>, fault: Option<Failure>) {
    if fault.None? then forall n | n in listed :: Correct(cfg, n)
    else exists k, i | 0 <= k < |listed| && 0 <= i < |CODES| :: FaultAt(cfg, listed, k, i, fault)
  }

  ghost predicate FaultAt(cfg: Config, listed: seq<NodeDef>, k: nat, i: nat, fault: Option<Failure>)
    requires k < |listed| && i < |CODES|
  {
    && (forall j | 0 <= j < k :: Correct(cfg, listed[j]))
    && (forall j | 0 <= j < i :: !Breaks(cfg, listed[k], j)) && Breaks(cfg, listed[k], i)
    && fault == Some(Workflow(CODES[i]))
  }

  lemma FaultIsAt(cfg: Config, listed: seq<NodeDef>, k: nat)
    requires k < |listed| && NodeFault(cfg, listed[k]).Some? && forall j | 0 <= j < k :: Correct(cfg, listed[j])
    ensures FirstFault(cfg, listed, NodeFault(cfg, listed[k]))
    ensures NodeFault(cfg, listed[k]) !in {Some(DAG_CYCLE), Some(UNREACHABLE_NODE)}
  {
    FaultsExactly(cfg, listed[k]);
    hide Breaks;
    var fault := NodeFault(cfg, listed[k]);
    var i := CodeOf(cfg, listed[k]);
    assert FaultAt(cfg, listed, k, i, fault);
  }

  lemma CodeOf(cfg: Config, node: NodeDef) returns (i: nat)
    requires NodeFault(cfg, node).Some?
    ensures i < |CODES| && NodeFault(cfg, node) == Some(Workflow(CODES[i]))
  {
    var code := NodeFault(cfg, node).value.code;
    assert code == CODES[0] || code == CODES[1] || code == CODES[2] || code == CODES[3] || code == CODES[4]
        || code == CODES[5] || code == CODES[6] || code == CODES[7] || code == CODES[8];
    i :| 0 <= i < |CODES| && CODES[i] == code;
  }

  method CheckNodes(cfg: Config, listed: seq<NodeDef>) returns (fault: Option<Failure>)
    ensures FirstFault(cfg, listed, fault)
    ensures fault.None? <==> forall n | n in listed :: Correct(cfg, n)
    ensures fault.Some? ==> fault != Some(DAG_CYCLE) && fault != Some(UNREACHABLE_NODE)
  {
    hide NodeFault, Correct;
    for i := 0 to |listed|
      invariant forall j | 0 <= j < i :: Correct(cfg, listed[j])
    {
      assert listed[i] in listed;
      fault := NodeFault(cfg, listed[i]);
      FaultsExactly(cfg, listed[i]);
      if fault.Some? {
        FaultIsAt(cfg, listed, i);
        return;
      }
    }
    fault := None;
  }

  /** `validate_dag`. An accepted configuration is one that the scheduler's theorems apply to; a
      well-formed one is refused exactly for a cycle, or for entries that are not the roots. */
  method ValidateDag(cfg: Config, listed: seq<NodeDef>, sparkCapacity: nat) returns (r: Outcome<seq<NodeId>>)
    requires SchemaValid(cfg, listed)
    ensures r.Ok? <==> WellFormed(cfg, listed, sparkCapacity) && Acyclic(cfg.nodes) && cfg.entries == Roots(cfg.nodes)
    ensures r == Err(DAG_CYCLE) <==> WellFormed(cfg, listed, sparkCapacity) && !Acyclic(cfg.nodes)
    ensures r == Err(UNREACHABLE_NODE) <==>
            WellFormed(cfg, listed, sparkCapacity) && Acyclic(cfg.nodes) && cfg.entries != Roots(cfg.nodes)
    ensures r.Ok? ==> ValidConfig(cfg, r.value) && Greedy(cfg.nodes, r.value) && Complete(cfg.nodes, r.value)
  {
    hide NodeFault, Greedy, Planned, Cycle, ValidNode, Complete, Stuck, SchemaValid, Correct;
    if !DistinctIds(listed) {
      return Err(Workflow("DUPLICATE_NODE"));
    }
    if !DistinctCheckpoints(listed) {
      return Err(Workflow("DUPLICATE_CHECKPOINT"));
    }
    if !(cfg.entries <= cfg.nodes.Keys) {
      return Err(Workflow("UNDEFINED_ENTRY"));
    }
    if cfg.maxParallel > sparkCapacity {
      return Err(Workflow("INVALID_CONCURRENCY"));
    }
    var fault := CheckNodes(cfg, listed);
    if fault.Some? {
      return Err(fault.value);
    }
    WellFormedNodes(cfg, listed, sparkCapacity);
    r := MakePlan(cfg);
    SchemaFacts(cfg, listed);
  }

  lemma SchemaFacts(cfg: Config, listed: seq<NodeDef>)
    requires SchemaValid(cfg, listed)
    ensures cfg.maxParallel >= 1
  {
  }

  /** The graph half of the validator. */
  method MakePlan(cfg: Config) returns (r: Outcome<seq<NodeId>>)
    requires forall k, d | k in cfg.nodes && d in cfg.nodes[k].dependencies :: d in cfg.nodes
    ensures r.Ok? <==> Acyclic(cfg.nodes) && cfg.entries == Roots(cfg.nodes)
    ensures r.Err? ==> r.error == if Acyclic(cfg.nodes) then UNREACHABLE_NODE else DAG_CYCLE
    ensures r.Ok? ==> Planned(cfg.nodes, r.value) && Greedy(cfg.nodes, r.value) && Complete(cfg.nodes, r.value)
  {
    hide Greedy, Planned, Cycle, Complete, Stuck, Closure;
    var plan := Kahn(cfg.nodes);
    ShortPlanMeansCycle(cfg.nodes, plan);
    if |plan| != |cfg.nodes| {
      return Err(DAG_CYCLE);
    }
    FullLengthIsComplete(cfg.nodes, plan);
    RootsReachAll(cfg.nodes, plan);
    var covered := DescendantsOf(cfg.nodes, cfg.entries);
    if cfg.entries != Roots(cfg.nodes) || covered != cfg.nodes.Keys {
      return Err(UNREACHABLE_NODE);
    }
    r := Ok(plan);
  }

  lemma RootsReachAll(nodes: Nodes, plan: seq<NodeId>)
    requires Planned(nodes, plan)
    ensures Closure(nodes, Roots(nodes)) == nodes.Keys
  {
    RootsCover(nodes, plan, |plan|);
    assert plan[..|plan|] == plan;
    forall k | k in nodes ensures k in Closure(nodes, Roots(nodes)) {
      assert k in plan;
    }
  }
}
