/** The deterministic plan: Kahn's algorithm with a least-first ready set. */
module Planner {
  import opened Model
  import opened Descendants
  import opened Board

  // ----- The order of node ids -----

  /** Lexicographic order of strings, by character. */
  predicate Less(a: string, b: string) {
    if b == "" then false
    else if a == "" then true
    else a[0] < b[0] || (a[0] == b[0] && Less(a[1..], b[1..]))
  }

  lemma {:induction false} LessIsTotal(a: string, b: string)
    ensures a == b || Less(a, b) || Less(b, a)
    ensures !(Less(a, b) && Less(b, a)) && !Less(a, a)
  {
    if a != "" && b != "" {
      LessIsTotal(a[1..], b[1..]);
    }
    if a != "" {
      LessIsTotal(a[1..], a[1..]);
    }
  }

  lemma {:induction false} LessIsTransitive(a: string, b: string, c: string)
    requires Less(a, b) && Less(b, c)
    ensures Less(a, c)
  {
    if a != "" && b != "" && c != "" && a[0] == b[0] && b[0] == c[0] {
      LessIsTransitive(a[1..], b[1..], c[1..]);
    }
  }

  /** The texts agree up to place `i`, where the first ends or has the smaller character. */
  ghost predicate SmallerAt(a: string, b: string, i: int) {
    0 <= i <= |a| && i < |b| && a[..i] == b[..i] && (i == |a| || a[i] < b[i])
  }

  lemma {:induction false} LessIsLexicographic(a: string, b: string)
    ensures Less(a, b) <==> exists i :: SmallerAt(a, b, i)
  {
    if a != "" && b != "" {
      LessIsLexicographic(a[1..], b[1..]);
      if i :| SmallerAt(a[1..], b[1..], i) {
        if a[0] == b[0] {
          assert a[..i + 1] == [a[0]] + a[1..][..i] && b[..i + 1] == [b[0]] + b[1..][..i];
          assert SmallerAt(a, b, i + 1);
        }
      }
      if i :| SmallerAt(a, b, i) {
        if i > 0 {
          assert a[0] == a[..i][0] && b[0] == b[..i][0];
          assert a[1..][..i - 1] == a[..i][1..] && b[1..][..i - 1] == b[..i][1..];
          assert SmallerAt(a[1..], b[1..], i - 1);
        }
      }
      if a[0] < b[0] {
        assert SmallerAt(a, b, 0);
      }
    } else if b != "" {
      assert SmallerAt(a, b, 0);
    }
  }

  /** `heapq.heappop` on a heap of distinct ids. */
  method PopLeast(ready: set<NodeId>) returns (least: NodeId, rest: set<NodeId>)
    requires ready != {}
    ensures least in ready && rest == ready - {least}
    ensures forall k | k in rest :: Less(least, k)
  {
    least :| least in ready;
    var todo := ready - {least};
    while todo != {}
      invariant todo <= ready && least in ready && least !in todo
      invariant forall k | k in ready && k !in todo && k != least :: Less(least, k)
    {
      var k :| k in todo;
      LessIsTotal(k, least);
      if Less(k, least) {
        forall j | j in ready && j !in todo && j != least ensures Less(k, j) {
          LessIsTransitive(k, least, j);
        }
        least := k;
      }
      todo := todo - {k};
    }
    rest := ready - {least};
  }

  // ----- What the plan is -----

  function Elements(plan: seq<NodeId>): set<NodeId> {
    set k | k in plan
  }

  /** Not yet planned, with every dependency planned. */
  predicate Available(nodes: Nodes, done: set<NodeId>, k: NodeId) {
    k in nodes && k !in done && forall d | d in nodes[k].dependencies :: d in done
  }

  /** Each entry is the least available node at its turn. */
  ghost predicate Greedy(nodes: Nodes, plan: seq<NodeId>) {
    forall i | 0 <= i < |plan| :: LeastAt(nodes, plan, i)
  }

  ghost predicate LeastAt(nodes: Nodes, plan: seq<NodeId>, i: nat)
    requires i < |plan|
  {
    && Available(nodes, Elements(plan[..i]), plan[i])
    && forall k | Available(nodes, Elements(plan[..i]), k) :: k == plan[i] || Less(plan[i], k)
  }

  ghost predicate Stuck(nodes: Nodes, done: set<NodeId>) {
    forall k :: !Available(nodes, done, k)
  }

  // ----- The algorithm -----

  /** How many mentioned dependencies are still unplanned. */
  function Unmet(deps: seq<NodeId>, done: set<NodeId>): nat {
    if deps == [] then 0 else (if deps[0] in done then 0 else 1) + Unmet(deps[1..], done)
  }

  lemma {:induction false} UnmetIsZero(deps: seq<NodeId>, done: set<NodeId>)
    ensures Unmet(deps, done) == 0 <==> forall d | d in deps :: d in done
  {
    if deps != [] {
      UnmetIsZero(deps[1..], done);
      assert forall d | d in deps :: d == deps[0] || d in deps[1..];
    }
  }

  lemma {:induction false} UnmetFalls(deps: seq<NodeId>, done: set<NodeId>, key: NodeId)
    requires key !in done
    ensures Unmet(deps, done + {key}) + multiset(deps)[key] == Unmet(deps, done)
  {
    if deps != [] {
      UnmetFalls(deps[1..], done, key);
      assert deps == [deps[0]] + deps[1..];
    }
  }

  lemma {:induction false} UnmetAtFirst(deps: seq<NodeId>)
    ensures Unmet(deps, {}) == |deps|
  {
    if deps != [] {
      UnmetAtFirst(deps[1..]);
    }
  }

  /** `indegree` counts the unplanned dependencies, and `ready` holds the available nodes. */
  ghost predicate Counts(nodes: Nodes, done: set<NodeId>, indegree: map<NodeId, nat>, ready: set<NodeId>) {
    && indegree.Keys == nodes.Keys
    && (forall k | k in nodes :: indegree[k] == Unmet(nodes[k].dependencies, done))
    && (forall k :: k in ready <==> Available(nodes, done, k))
    && (forall k | k in done :: k in nodes && Unmet(nodes[k].dependencies, done) == 0)
  }

  method Kahn(nodes: Nodes) returns (plan: seq<NodeId>)
    requires forall k, d | k in nodes && d in nodes[k].dependencies :: d in nodes
    ensures Greedy(nodes, plan) && Stuck(nodes, Elements(plan))
  {
    hide Counts, Greedy, Elements, Adjacency, Mentions, Available;
    var indegree: map<NodeId, nat> := map k | k in nodes :: |nodes[k].dependencies|;
    var children := BuildChildren(nodes);
    var ready := set k | k in nodes && |nodes[k].dependencies| == 0;
    plan := [];
    InitialCounts(nodes, indegree, ready);
    while ready != {}
      invariant Greedy(nodes, plan)
      invariant Counts(nodes, Elements(plan), indegree, ready)
      decreases nodes.Keys - Elements(plan)
    {
      var key, rest := PopLeast(ready);
      ghost var done := Elements(plan);
      var listed := if key in children then children[key] else [];
      ListedExactly(nodes, children, key);
      assert rest + {key} == ready;
      ReadyIsAvailable(nodes, done, indegree, ready);
      OneMorePlanned(nodes, plan, key);
      indegree, ready := Relax(nodes, done, key, listed, indegree, rest);
      GreedyStep(nodes, plan, key);
      plan := plan + [key];
    }
    ReadyIsAvailable(nodes, Elements(plan), indegree, ready);
  }

  lemma ReadyIsAvailable(nodes: Nodes, done: set<NodeId>, indegree: map<NodeId, nat>, ready: set<NodeId>)
    requires Counts(nodes, done, indegree, ready)
    ensures forall k :: k in ready <==> Available(nodes, done, k)
  {
  }

  lemma OneMorePlanned(nodes: Nodes, plan: seq<NodeId>, key: NodeId)
    requires Available(nodes, Elements(plan), key)
    ensures Elements(plan + [key]) == Elements(plan) + {key} && key in nodes
    ensures nodes.Keys - Elements(plan + [key]) < nodes.Keys - Elements(plan)
  {
    assert key in nodes.Keys - Elements(plan);
    assert nodes.Keys - Elements(plan + [key]) == nodes.Keys - Elements(plan) - {key};
  }

  lemma InitialCounts(nodes: Nodes, indegree: map<NodeId, nat>, ready: set<NodeId>)
    requires indegree == map k | k in nodes :: |nodes[k].dependencies|
    requires ready == set k | k in nodes && |nodes[k].dependencies| == 0
    ensures Elements([]) == {} && Counts(nodes, Elements([]), indegree, ready) && Greedy(nodes, [])
  {
    forall k | k in nodes ensures indegree[k] == Unmet(nodes[k].dependencies, {}) {
      UnmetAtFirst(nodes[k].dependencies);
    }
    forall k ensures k in ready <==> Available(nodes, {}, k) {
      if k in nodes {
        UnmetIsZero(nodes[k].dependencies, {});
      }
    }
  }

  lemma GreedyStep(nodes: Nodes, plan: seq<NodeId>, key: NodeId)
    requires Greedy(nodes, plan) && Available(nodes, Elements(plan), key)
    requires forall k | Available(nodes, Elements(plan), k) :: k == key || Less(key, k)
    ensures Greedy(nodes, plan + [key])
  {
    var longer := plan + [key];
    forall i | 0 <= i < |longer| ensures LeastAt(nodes, longer, i) {
      if i < |plan| {
        assert LeastAt(nodes, plan, i);
        assert longer[..i] == plan[..i];
      } else {
        assert longer[..i] == plan;
      }
    }
  }

  /** The inner loop: the children of a planned node lose one unmet dependency per mention. */
  method Relax(
    nodes: Nodes, ghost done: set<NodeId>, key: NodeId, listed: seq<NodeId>, indegree: map<NodeId, nat>,
    rest: set<NodeId>
  ) returns (indegree': map<NodeId, nat>, ready: set<NodeId>)
    requires key in nodes && Available(nodes, done, key) && Counts(nodes, done, indegree, rest + {key}) && key !in rest
    requires forall c :: multiset(listed)[c] == Mentions(nodes, c, key)
    ensures Counts(nodes, done + {key}, indegree', ready)
  {
    indegree', ready := indegree, rest;
    hide Counts, Available, Relaxing;
    RelaxFirst(nodes, done, key, listed, indegree, rest);
    assert listed[0..] == listed;
    for i := 0 to |listed|
      invariant indegree'.Keys == nodes.Keys
      invariant Relaxing(nodes, done + {key}, indegree', multiset(listed[i..]), ready)
    {
      var child := listed[i];
      assert listed[i..] == [child] + listed[i + 1..];
      assert multiset(listed[i..]) - multiset{child} == multiset(listed[i + 1..]);
      RelaxStep(nodes, done + {key}, indegree', multiset(listed[i..]), ready, child);
      indegree' := indegree'[child := indegree'[child] - 1];
      if indegree'[child] == 0 {
        ready := ready + {child};
      }
    }
    RelaxLast(nodes, done + {key}, indegree', ready);
  }

  /** In the inner loop: `left` are the children still to be visited. */
  ghost predicate Relaxing(
    nodes: Nodes, done: set<NodeId>, indegree: map<NodeId, nat>, left: multiset<NodeId>, ready: set<NodeId>
  ) {
    && indegree.Keys == nodes.Keys
    && (forall k | k in nodes :: indegree[k] == Unmet(nodes[k].dependencies, done) + left[k])
    && (forall k | k in left :: k in nodes && k !in done)
    && (forall k :: k in ready <==> k in nodes && k !in done && indegree[k] == 0)
    && (forall k | k in done :: k in nodes && Unmet(nodes[k].dependencies, done) == 0)
  }

  lemma RelaxStep(
    nodes: Nodes, done: set<NodeId>, indegree: map<NodeId, nat>, left: multiset<NodeId>, ready: set<NodeId>,
    child: NodeId
  )
    requires Relaxing(nodes, done, indegree, left, ready) && child in left
    ensures child in indegree && indegree[child] > 0
    ensures Relaxing(nodes, done, indegree[child := indegree[child] - 1], left - multiset{child},
                     if indegree[child] == 1 then ready + {child} else ready)
  {
  }

  lemma RelaxFirst(
    nodes: Nodes, done: set<NodeId>, key: NodeId, listed: seq<NodeId>, indegree: map<NodeId, nat>, rest: set<NodeId>
  )
    requires Counts(nodes, done, indegree, rest + {key}) && key !in rest
    requires Available(nodes, done, key)
    requires forall c :: multiset(listed)[c] == Mentions(nodes, c, key)
    ensures Relaxing(nodes, done + {key}, indegree, multiset(listed), rest) && indegree.Keys == nodes.Keys
  {
    forall k | multiset(listed)[k] > 0 ensures k in nodes {
      assert multiset(listed)[k] == Mentions(nodes, k, key);
    }
    forall k | k in nodes
      ensures indegree[k] == Unmet(nodes[k].dependencies, done + {key}) + multiset(listed)[k]
    {
      UnmetFalls(nodes[k].dependencies, done, key);
    }
    assert Available(nodes, done, key);
    UnmetIsZero(nodes[key].dependencies, done);
    forall k ensures k in rest <==> k in nodes && k !in done + {key} && indegree[k] == 0 {
      assert k in rest + {key} <==> Available(nodes, done, k);
      if k in nodes {
        UnmetIsZero(nodes[k].dependencies, done);
      }
    }
  }

  lemma RelaxLast(nodes: Nodes, done: set<NodeId>, indegree: map<NodeId, nat>, ready: set<NodeId>)
    requires Relaxing(nodes, done, indegree, multiset{}, ready)
    ensures Counts(nodes, done, indegree, ready)
  {
    forall k ensures k in ready <==> Available(nodes, done, k) {
      if k in nodes {
        UnmetIsZero(nodes[k].dependencies, done);
      }
    }
  }

  // ----- What the plan means -----

  ghost predicate Complete(nodes: Nodes, plan: seq<NodeId>) {
    Elements(plan) == nodes.Keys
  }

  /** A greedy plan lists each node once, after its dependencies. */
  lemma GreedyOrders(nodes: Nodes, plan: seq<NodeId>)
    requires Greedy(nodes, plan)
    ensures Elements(plan) <= nodes.Keys
    ensures Complete(nodes, plan) ==> Planned(nodes, plan)
  {
    forall k | k in Elements(plan) ensures k in nodes {
      var i :| 0 <= i < |plan| && plan[i] == k;
      assert LeastAt(nodes, plan, i);
    }
    forall i, j | 0 <= i < j < |plan| ensures plan[i] != plan[j] {
      assert LeastAt(nodes, plan, j);
      assert plan[i] in plan[..j];
    }
    if Complete(nodes, plan) {
      forall i, d | 0 <= i < |plan| && d in nodes[plan[i]].dependencies ensures d in plan[..i] {
        assert LeastAt(nodes, plan, i);
      }
    }
  }

  /** The plan does not depend on the order in which the nodes were listed, nor on heap layout. */
  lemma {:induction false} PlanIsDeterministic(nodes: Nodes, p: seq<NodeId>, q: seq<NodeId>, n: nat)
    requires Greedy(nodes, p) && Stuck(nodes, Elements(p)) && Greedy(nodes, q) && Stuck(nodes, Elements(q))
    requires n <= |p| && n <= |q| && p[..n] == q[..n]
    ensures p == q
    decreases |p| - n
  {
    assert p[..|p|] == p && q[..|q|] == q;
    if n < |p| || n < |q| {
      assert n < |p| && n < |q| by {
        assert n < |p| ==> LeastAt(nodes, p, n);
        assert n < |q| ==> LeastAt(nodes, q, n);
      }
      assert LeastAt(nodes, p, n) && LeastAt(nodes, q, n);
      LessIsTotal(p[n], q[n]);
      assert p[..n + 1] == p[..n] + [p[n]] && q[..n + 1] == q[..n] + [q[n]];
      PlanIsDeterministic(nodes, p, q, n + 1);
    }
  }

  /** Among all topological orders the plan is the lexicographically least. */
  lemma PlanIsLeast(nodes: Nodes, plan: seq<NodeId>, q: seq<NodeId>) returns (i: nat)
    requires Greedy(nodes, plan) && Complete(nodes, plan) && Planned(nodes, q) && q != plan
    ensures i < |plan| && i < |q| && plan[..i] == q[..i] && Less(plan[i], q[i])
  {
    GreedyOrders(nodes, plan);
    SameLength(plan, q);
    i := 0;
    while i < |plan| && plan[i] == q[i]
      invariant 0 <= i <= |plan| && plan[..i] == q[..i]
    {
      i := i + 1;
    }
    assert plan == plan[..|plan|] && q == q[..|q|];
    assert LeastAt(nodes, plan, i);
    assert q[i] !in q[..i];
    assert q[i] in (set k | k in q) && q[i] in nodes;
    assert Available(nodes, Elements(plan[..i]), q[i]);
  }

  lemma SameLength(p: seq<NodeId>, q: seq<NodeId>)
    requires (forall i, j | 0 <= i < j < |p| :: p[i] != p[j]) && (forall i, j | 0 <= i < j < |q| :: q[i] != q[j])
    requires Elements(p) == set k | k in q
    ensures |p| == |q|
  {
    DistinctCount(p, Elements(p));
    DistinctCount(q, Elements(q));
  }

  /** Pigeonhole: distinct members of a set, at most as many as the set has. */
  lemma {:induction false} DistinctCount(p: seq<NodeId>, s: set<NodeId>)
    requires (forall i, j | 0 <= i < j < |p| :: p[i] != p[j]) && forall k | k in p :: k in s
    ensures |p| <= |s|
    ensures Elements(p) == s ==> |p| == |s|
  {
    if p != [] {
      var init, k := p[..|p| - 1], p[|p| - 1];
      assert k !in init;
      DistinctCount(init, s - {k});
      assert Elements(p) == Elements(init) + {k};
    }
  }

  // ----- Cycles -----

  /** Each member depends on the next one, and the last on the first. */
  ghost predicate Cycle(nodes: Nodes, c: seq<NodeId>) {
    && c != []
    && forall i | 0 <= i < |c| :: c[i] in nodes && Next(c, i) in nodes[c[i]].dependencies
  }

  function Next(c: seq<NodeId>, i: nat): NodeId
    requires i < |c|
  {
    if i + 1 < |c| then c[i + 1] else c[0]
  }

  function PositionOf(q: seq<NodeId>, k: NodeId): (i: nat)
    requires k in q
    ensures i < |q| && q[i] == k
  {
    if q[0] == k then 0 else 1 + PositionOf(q[1..], k)
  }

  lemma DependsOnEarlier(nodes: Nodes, q: seq<NodeId>, k: NodeId, d: NodeId)
    requires Planned(nodes, q) && k in nodes && d in nodes[k].dependencies
    ensures k in q && d in q && PositionOf(q, d) < PositionOf(q, k)
  {
    assert k in (set j | j in q);
    var i := PositionOf(q, k);
    var j :| 0 <= j < i && q[j] == d;
    var p := PositionOf(q, d);
    assert p == j;
  }

  lemma {:induction false} CycleDescends(nodes: Nodes, q: seq<NodeId>, c: seq<NodeId>, i: nat)
    requires Planned(nodes, q) && Cycle(nodes, c) && i < |c|
    ensures c[i] in q && c[0] in q && PositionOf(q, c[i]) + i <= PositionOf(q, c[0])
  {
    hide Planned, PositionOf;
    if i > 0 {
      CycleDescends(nodes, q, c, i - 1);
      assert Next(c, i - 1) == c[i];
      DependsOnEarlier(nodes, q, c[i - 1], c[i]);
    } else {
      DependsOnEarlier(nodes, q, c[0], Next(c, 0));
    }
  }

  /** A cyclic graph has no topological order. */
  lemma CycleBlocks(nodes: Nodes, q: seq<NodeId>, c: seq<NodeId>)
    requires Cycle(nodes, c)
    ensures !Planned(nodes, q)
  {
    hide PositionOf;
    if Planned(nodes, q) {
      var last := |c| - 1;
      CycleDescends(nodes, q, c, last);
      assert Next(c, last) == c[0];
      DependsOnEarlier(nodes, q, c[last], c[0]);
    }
  }

  /** From any unplanned node of a stuck graph, an unplanned dependency can be followed for ever. */
  lemma {:induction false} Walk(nodes: Nodes, done: set<NodeId>, start: NodeId, n: nat) returns (w: seq<NodeId>)
    requires Stuck(nodes, done) && start in nodes && start !in done
    requires forall k, d | k in nodes && d in nodes[k].dependencies :: d in nodes
    ensures |w| == n + 1 && forall k | k in w :: k in nodes && k !in done
    ensures forall i | 0 <= i < n :: w[i + 1] in nodes[w[i]].dependencies
  {
    if n == 0 {
      w := [start];
    } else {
      var shorter := Walk(nodes, done, start, n - 1);
      var last := shorter[n - 1];
      assert !Available(nodes, done, last);
      var d :| d in nodes[last].dependencies && d !in done;
      w := shorter + [d];
    }
  }

  /** DAG_CYCLE is justified: a stuck, incomplete plan exhibits a cycle. */
  lemma StuckHasCycle(nodes: Nodes, done: set<NodeId>) returns (c: seq<NodeId>)
    requires Stuck(nodes, done) && done <= nodes.Keys && done != nodes.Keys
    requires forall k, d | k in nodes && d in nodes[k].dependencies :: d in nodes
    ensures Cycle(nodes, c)
  {
    var start :| start in nodes && start !in done;
    var w := Walk(nodes, done, start, |nodes.Keys|);
    if forall i, j | 0 <= i < j < |w| :: w[i] != w[j] {
      DistinctCount(w, nodes.Keys);
    }
    var i, j :| 0 <= i < j < |w| && w[i] == w[j];
    c := w[i..j];
    forall m | 0 <= m < |c|
      ensures c[m] in nodes && Next(c, m) in nodes[c[m]].dependencies
    {
      assert w[i + m + 1] in nodes[w[i + m]].dependencies;
    }
  }

  // ----- Coverage -----

  function Roots(nodes: Nodes): set<NodeId> {
    set k | k in nodes && nodes[k].dependencies == []
  }

  /** Every node of an acyclic graph descends from a root, so the coverage half of the UNREACHABLE_NODE
      test can never fail once the entries equal the roots. */
  lemma {:induction false} RootsCover(nodes: Nodes, plan: seq<NodeId>, n: nat)
    requires Planned(nodes, plan) && n <= |plan|
    ensures forall k | k in plan[..n] :: k in Closure(nodes, Roots(nodes))
  {
    if n > 0 {
      RootsCover(nodes, plan, n - 1);
      var k := plan[n - 1];
      assert plan[..n] == plan[..n - 1] + [k];
      assert k in nodes;
      if nodes[k].dependencies != [] {
        var d := nodes[k].dependencies[0];
        assert d in plan[..n - 1];
      }
    }
  }
}
