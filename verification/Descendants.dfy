/** Downstream closure: the worklist of `descendants` against its meaning as a least closed set. */
module Descendants {
  import opened Model

  type Nodes = map<NodeId, NodeDef>

  function Children(nodes: Nodes, s: set<NodeId>): set<NodeId> {
    set k | k in nodes && exists d | d in nodes[k].dependencies :: d in s
  }

  /** Closed under dependency edges: whatever depends on a member is a member. */
  ghost predicate Closed(nodes: Nodes, s: set<NodeId>) {
    forall k, d | k in nodes && d in nodes[k].dependencies :: d in s ==> k in s
  }

  ghost function Closure(nodes: Nodes, s: set<NodeId>): (r: set<NodeId>)
    ensures s <= r && Closed(nodes, r) && r <= s + nodes.Keys
    decreases nodes.Keys - s
  {
    var next := Children(nodes, s);
    if next <= s then s
    else
      var k :| k in next && k !in s;
      assert nodes.Keys - (s + next) < nodes.Keys - s by {
        assert k in nodes.Keys - s && k !in nodes.Keys - (s + next);
      }
      Closure(nodes, s + next)
  }

  lemma {:induction false} ClosureIsLeast(nodes: Nodes, s: set<NodeId>, c: set<NodeId>)
    requires s <= c && Closed(nodes, c)
    ensures Closure(nodes, s) <= c
    decreases nodes.Keys - s
  {
    var next := Children(nodes, s);
    if !(next <= s) {
      var k :| k in next && k !in s;
      assert k in nodes.Keys - s && k !in nodes.Keys - (s + next);
      ClosureIsLeast(nodes, s + next, c);
    }
  }

  lemma ClosureUnique(nodes: Nodes, s: set<NodeId>, r: set<NodeId>)
    requires s <= r && Closed(nodes, r) && r <= Closure(nodes, s)
    ensures r == Closure(nodes, s)
  {
    ClosureIsLeast(nodes, s, r);
  }

  /** The adjacency lists that `descendants` and the planner build: `children[d]` lists the nodes that
      name `d` as a dependency, once per mention. */
  ghost predicate Adjacency(nodes: Nodes, children: map<NodeId, seq<NodeId>>) {
    forall d, c :: Listings(children, d, c) == Mentions(nodes, c, d)
  }

  /** How often `c` is listed under `d`. */
  function Listings(children: map<NodeId, seq<NodeId>>, d: NodeId, c: NodeId): nat {
    if d in children then multiset(children[d])[c] else 0
  }

  /** How often `c` names `d` as a dependency. */
  function Mentions(nodes: Nodes, c: NodeId, d: NodeId): nat {
    if c in nodes then multiset(nodes[c].dependencies)[d] else 0
  }

  method BuildChildren(nodes: Nodes) returns (children: map<NodeId, seq<NodeId>>)
    ensures Adjacency(nodes, children)
  {
    children := map k | k in nodes :: [];
    var todo := nodes.Keys;
    while todo != {}
      invariant todo <= nodes.Keys
      invariant forall d, c :: Listings(children, d, c) == if c in todo then 0 else Mentions(nodes, c, d)
      decreases todo
    {
      var key :| key in todo;
      children := ListUnder(children, key, nodes[key].dependencies);
      todo := todo - {key};
    }
  }

  /** Append `key` to the list of each of its dependencies. */
  method ListUnder(children: map<NodeId, seq<NodeId>>, key: NodeId, deps: seq<NodeId>)
    returns (children': map<NodeId, seq<NodeId>>)
    ensures forall d, c ::
              Listings(children', d, c) == Listings(children, d, c) + if c == key then multiset(deps)[d] else 0
  {
    children' := children;
    for i := 0 to |deps|
      invariant forall d, c ::
                  Listings(children', d, c) == Listings(children, d, c) + if c == key then multiset(deps[..i])[d] else 0
    {
      var listed := if deps[i] in children' then children'[deps[i]] else [];
      children' := children'[deps[i] := listed + [key]];
      assert deps[..i + 1] == deps[..i] + [deps[i]];
    }
    assert deps[..|deps|] == deps;
  }

  /** The inner loop of `descendants`: add the children not yet seen, and queue them. */
  method Visit(listed: seq<NodeId>, result: set<NodeId>, pending: set<NodeId>)
    returns (result': set<NodeId>, pending': set<NodeId>)
    ensures result' == result + set c | c in listed
    ensures pending' == pending + ((set c | c in listed) - result)
  {
    result', pending' := result, pending;
    var i := 0;
    while i < |listed|
      invariant 0 <= i <= |listed|
      invariant result' == result + set c | c in listed[..i]
      invariant pending' == pending + ((set c | c in listed[..i]) - result)
    {
      var child := listed[i];
      assert listed[..i + 1] == listed[..i] + [child];
      if child !in result' {
        result' := result' + {child};
        pending' := pending' + {child};
      }
      i := i + 1;
    }
    assert listed[..i] == listed;
  }

  lemma ListedExactly(nodes: Nodes, children: map<NodeId, seq<NodeId>>, d: NodeId)
    requires Adjacency(nodes, children)
    ensures var listed := if d in children then children[d] else [];
            && (forall c :: multiset(listed)[c] == Mentions(nodes, c, d))
            && (forall c :: c in listed <==> c in nodes && d in nodes[c].dependencies)
  {
    var listed := if d in children then children[d] else [];
    forall c ensures multiset(listed)[c] == Mentions(nodes, c, d) {
      assert Listings(children, d, c) == Mentions(nodes, c, d);
    }
    forall c ensures c in listed <==> c in nodes && d in nodes[c].dependencies {
      assert c in multiset(listed) <==> c in listed;
      if c in nodes {
        assert d in multiset(nodes[c].dependencies) <==> d in nodes[c].dependencies;
      }
    }
  }

  /** `descendants`: a worklist over the adjacency lists computes exactly the least closed superset. */
  method DescendantsOf(nodes: Nodes, origins: set<NodeId>) returns (result: set<NodeId>)
    ensures result == Closure(nodes, origins)
  {
    var children := BuildChildren(nodes);
    result := origins;
    var pending := origins;
    while pending != {}
      invariant origins <= result <= Closure(nodes, origins)
      invariant pending <= result
      invariant forall k, d | k in nodes && d in nodes[k].dependencies && d in result && d !in pending :: k in result
      decreases nodes.Keys - result, pending
    {
      var key :| key in pending;
      var listed := if key in children then children[key] else [];
      ghost var before, queued := result, pending;
      ListedExactly(nodes, children, key);
      assert forall c | c in listed :: c in Closure(nodes, origins);
      result, pending := Visit(listed, result, pending - {key});
      if result != before {
        var grown :| grown in result && grown !in before;
        assert grown in nodes.Keys - before && grown !in nodes.Keys - result;
        assert nodes.Keys - result < nodes.Keys - before;
      } else {
        assert pending == queued - {key};
      }
    }
    ClosureUnique(nodes, origins, result);
  }
}
