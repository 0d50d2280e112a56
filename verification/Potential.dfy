/** The termination measure of the scheduler: remaining attempts and undispatched nodes. */
module Potential {
  import opened Model
  import opened Descendants
  import opened Board

  /** Three units per attempt still allowed, and up to two for the way to the next dispatch. */
  function Weight(node: NodeDef, r: NodeRecord, active: map<NodeId, Context>): nat {
    (if r.attempt <= node.retry.maxRetries + 1 then 3 * (node.retry.maxRetries + 1 - r.attempt) else 0) +
    if r.nodeId in active then 1 else if r.status.Pending? then 1 else if r.status.Ready? then 2 else 0
  }

  function WeightOf(nodes: Nodes, b: Board, k: NodeId): nat {
    if k in nodes && k in b.recs then Weight(nodes[k], b.recs[k], b.active) else 0
  }

  function Sum(nodes: Nodes, plan: seq<NodeId>, b: Board): nat {
    if plan == [] then 0 else WeightOf(nodes, b, plan[0]) + Sum(nodes, plan[1..], b)
  }

  lemma {:induction false} SumMonotone(nodes: Nodes, plan: seq<NodeId>, b: Board, b': Board)
    requires forall k | k in plan :: WeightOf(nodes, b', k) <= WeightOf(nodes, b, k)
    ensures Sum(nodes, plan, b') <= Sum(nodes, plan, b)
    ensures (exists x | x in plan :: WeightOf(nodes, b', x) < WeightOf(nodes, b, x)) ==>
              Sum(nodes, plan, b') < Sum(nodes, plan, b)
  {
    if plan != [] {
      SumMonotone(nodes, plan[1..], b, b');
    }
  }

  /** All the work there can be: three units per allowed attempt and one per node. */
  function Bound(nodes: Nodes, plan: seq<NodeId>): nat {
    if plan == [] then 0
    else (if plan[0] in nodes then 3 * nodes[plan[0]].retry.maxRetries + 4 else 0) + Bound(nodes, plan[1..])
  }

  lemma {:induction false} SumBounded(nodes: Nodes, plan: seq<NodeId>, b: Board)
    requires b.recs.Keys == nodes.Keys
    requires forall k | k in b.recs :: b.recs[k].status.Pending? && b.recs[k].attempt == 0
    ensures Sum(nodes, plan, b) <= Bound(nodes, plan)
  {
    if plan != [] {
      SumBounded(nodes, plan[1..], b);
    }
  }
}
