/** Concurrency budgets: running counters against the sums they stand for. */
module Capacity {
  import opened Model
  import opened Descendants

  function Demand(node: NodeDef, name: string): nat {
    if name in node.resources then node.resources[name] else 0
  }

  /** How many chosen nodes run in group `g`. */
  function GroupLoad(nodes: Nodes, plan: seq<NodeId>, chosen: set<NodeId>, g: string): nat {
    if plan == [] then 0
    else GroupLoad(nodes, plan[1..], chosen, g) +
         if plan[0] in chosen && plan[0] in nodes && nodes[plan[0]].group == g then 1 else 0
  }

  /** How much of resource `name` the chosen nodes hold. */
  function ResourceLoad(nodes: Nodes, plan: seq<NodeId>, chosen: set<NodeId>, name: string): nat {
    if plan == [] then 0
    else ResourceLoad(nodes, plan[1..], chosen, name) +
         if plan[0] in chosen && plan[0] in nodes then Demand(nodes[plan[0]], name) else 0
  }

  ghost predicate Distinct(plan: seq<NodeId>) {
    forall i, j | 0 <= i < j < |plan| :: plan[i] != plan[j]
  }

  lemma {:induction false} UnusedLoad(nodes: Nodes, plan: seq<NodeId>, chosen: set<NodeId>, k: NodeId, name: string)
    requires k !in plan
    ensures GroupLoad(nodes, plan, chosen + {k}, name) == GroupLoad(nodes, plan, chosen, name)
    ensures ResourceLoad(nodes, plan, chosen + {k}, name) == ResourceLoad(nodes, plan, chosen, name)
  {
    if plan != [] {
      UnusedLoad(nodes, plan[1..], chosen, k, name);
    }
  }

  /** Reserving one more node adds exactly its own demand. */
  lemma {:induction false} AddLoad(nodes: Nodes, plan: seq<NodeId>, chosen: set<NodeId>, k: NodeId, name: string)
    requires Distinct(plan) && k in plan && k in nodes && k !in chosen
    ensures GroupLoad(nodes, plan, chosen + {k}, name)
         == GroupLoad(nodes, plan, chosen, name) + (if nodes[k].group == name then 1 else 0)
    ensures ResourceLoad(nodes, plan, chosen + {k}, name)
         == ResourceLoad(nodes, plan, chosen, name) + Demand(nodes[k], name)
  {
    assert Distinct(plan[1..]);
    if plan[0] == k {
      assert k !in plan[1..];
      UnusedLoad(nodes, plan[1..], chosen, k, name);
    } else {
      AddLoad(nodes, plan[1..], chosen, k, name);
    }
  }

  lemma {:induction false} LoadMonotone(
    nodes: Nodes, plan: seq<NodeId>, small: set<NodeId>, large: set<NodeId>, name: string
  )
    requires small <= large
    ensures GroupLoad(nodes, plan, small, name) <= GroupLoad(nodes, plan, large, name)
    ensures ResourceLoad(nodes, plan, small, name) <= ResourceLoad(nodes, plan, large, name)
  {
    if plan != [] {
      LoadMonotone(nodes, plan[1..], small, large, name);
    }
  }

  lemma {:induction false} EmptyLoad(nodes: Nodes, plan: seq<NodeId>, name: string)
    ensures GroupLoad(nodes, plan, {}, name) == 0
    ensures ResourceLoad(nodes, plan, {}, name) == 0
  {
    if plan != [] {
      EmptyLoad(nodes, plan[1..], name);
    }
  }

  /** The chosen nodes respect `max_parallel`, every group limit and every resource limit. */
  ghost predicate WithinLimits(cfg: Config, plan: seq<NodeId>, chosen: set<NodeId>) {
    && |chosen| <= cfg.maxParallel
    && (forall g | g in cfg.groups :: GroupLoad(cfg.nodes, plan, chosen, g) <= cfg.groups[g])
    && (forall name | name in cfg.resources :: ResourceLoad(cfg.nodes, plan, chosen, name) <= cfg.resources[name])
  }

  lemma SubsetWithinLimits(cfg: Config, plan: seq<NodeId>, small: set<NodeId>, large: set<NodeId>)
    requires small <= large && WithinLimits(cfg, plan, large)
    ensures WithinLimits(cfg, plan, small)
  {
    CardinalityMonotone(small, large);
    forall g | g in cfg.groups ensures GroupLoad(cfg.nodes, plan, small, g) <= cfg.groups[g] {
      LoadMonotone(cfg.nodes, plan, small, large, g);
    }
    forall name | name in cfg.resources ensures ResourceLoad(cfg.nodes, plan, small, name) <= cfg.resources[name] {
      LoadMonotone(cfg.nodes, plan, small, large, name);
    }
  }

  lemma CardinalityMonotone<T>(small: set<T>, large: set<T>)
    requires small <= large
    ensures |small| <= |large|
  {
    assert large == small + (large - small);
  }

  /** The three counters that one scheduler iteration keeps: `reserved`, `groups` and `resources`. */
  class Budget {
    const cfg: Config
    const plan: seq<NodeId>
    var reserved: set<NodeId>
    var groups: map<string, nat>
    var resources: map<string, nat>

    /** The counters are the sums over the reserved set. */
    ghost predicate Valid()
      reads this
    {
      && Distinct(plan)
      && reserved <= cfg.nodes.Keys && (forall k | k in cfg.nodes :: k in plan)
      && (forall g :: Counted(groups, g) == GroupLoad(cfg.nodes, plan, reserved, g))
      && (forall name :: Counted(resources, name) == ResourceLoad(cfg.nodes, plan, reserved, name))
    }

    static function Counted(counter: map<string, nat>, key: string): nat {
      if key in counter then counter[key] else 0
    }

    constructor (cfg: Config, plan: seq<NodeId>)
      requires Distinct(plan) && forall k | k in cfg.nodes :: k in plan
      ensures Valid() && reserved == {} && this.cfg == cfg && this.plan == plan
    {
      this.cfg, this.plan := cfg, plan;
      reserved, groups, resources := {}, map[], map[];
      new;
      forall name {
        EmptyLoad(cfg.nodes, plan, name);
      }
    }

    /** `fits`: the global, group and resource budgets each have room for `node`. */
    function Fits(node: NodeDef): bool
      reads this
    {
      && |reserved| < cfg.maxParallel
      && node.group in cfg.groups && Counted(groups, node.group) < cfg.groups[node.group]
      && forall name | name in node.resources ::
           name in cfg.resources && Counted(resources, name) + node.resources[name] <= cfg.resources[name]
    }

    /** A node fits exactly when it can be added without breaking a limit. */
    lemma FitsExactly(k: NodeId)
      requires Valid() && WithinLimits(cfg, plan, reserved) && k in cfg.nodes && k !in reserved
      requires var node := cfg.nodes[k]; node.group in cfg.groups && node.resources.Keys <= cfg.resources.Keys
      ensures Fits(cfg.nodes[k]) <==> WithinLimits(cfg, plan, reserved + {k})
    {
      var node := cfg.nodes[k];
      assert |reserved + {k}| == |reserved| + 1;
      forall name {
        AddLoad(cfg.nodes, plan, reserved, k, name);
      }
      if WithinLimits(cfg, plan, reserved + {k}) {
        assert GroupLoad(cfg.nodes, plan, reserved + {k}, node.group) <= cfg.groups[node.group];
        forall name | name in node.resources
          ensures Counted(resources, name) + node.resources[name] <= cfg.resources[name]
        {
          assert ResourceLoad(cfg.nodes, plan, reserved + {k}, name) <= cfg.resources[name];
        }
      }
    }

    /** `reserve`: count one node in all three budgets. */
    method Reserve(k: NodeId)
      requires Valid() && k in cfg.nodes && k !in reserved
      modifies this
      ensures Valid()
      ensures reserved == old(reserved) + {k}
      ensures old(WithinLimits(cfg, plan, reserved) && Fits(cfg.nodes[k])) ==> WithinLimits(cfg, plan, reserved)
    {
      var node := cfg.nodes[k];
      ghost var before := reserved;
      forall name {
        AddLoad(cfg.nodes, plan, before, k, name);
      }
      reserved := reserved + {k};
      groups := groups[node.group := Counted(groups, node.group) + 1];
      resources := map name | name in resources.Keys + node.resources.Keys ::
                     Counted(resources, name) + Demand(node, name);
    }

    /** An empty budget has room for any node that the validator admitted. */
    lemma EmptyFits(node: NodeDef)
      requires Valid() && reserved == {} && cfg.maxParallel >= 1
      requires node.group in cfg.groups && cfg.groups[node.group] >= 1
      requires forall name | name in node.resources ::
                 name in cfg.resources && node.resources[name] <= cfg.resources[name]
      ensures Fits(node)
    {
      EmptyLoad(cfg.nodes, plan, node.group);
      forall name | name in node.resources
        ensures name in cfg.resources && Counted(resources, name) + node.resources[name] <= cfg.resources[name]
      {
        EmptyLoad(cfg.nodes, plan, name);
      }
    }
  }
}
