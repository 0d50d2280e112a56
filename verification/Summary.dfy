/** The critical path of `_summary`: one pass over the plan against the meaning over all paths. */
module Summary {
  import opened Model
  import opened ControlLog
  import opened StoreHistory
  import AttemptLinearity
  import opened Descendants
  import opened Board

  // ----- Attempt time -----

  predicate FinishOf(e: Event, run: RunId) {
    e.entry.kind.AttemptFinished? && e.entry.payload.NodePayload? && e.entry.payload.node.common.runId == run
  }

  /** Total execution time of all finished attempts of one node in one run. */
  function ActiveTime(log: seq<Event>, run: RunId, k: NodeId): real {
    if log == [] then 0.0
    else
      var e := log[|log| - 1];
      ActiveTime(log[..|log| - 1], run, k) +
      if FinishOf(e, run) && e.entry.payload.node.nodeId == k then e.entry.payload.node.duration else 0.0
  }

  /** Each ATTEMPT_FINISHED event of the run adds its duration to its node, and nothing else does. */
  lemma ActiveTimeAdds(log: seq<Event>, e: Event, run: RunId, k: NodeId)
    ensures ActiveTime([], run, k) == 0.0
    ensures ActiveTime(log + [e], run, k) ==
            if && e.entry.kind == AttemptFinished && e.entry.payload.NodePayload?
               && e.entry.payload.node.common.runId == run && e.entry.payload.node.nodeId == k
            then ActiveTime(log, run, k) + e.entry.payload.node.duration else ActiveTime(log, run, k)
  {
    assert (log + [e])[..|log|] == log;
  }

  /** No finished attempt took negative time. */
  ghost predicate Timed(log: seq<Event>) {
    forall e | e in log :: e.entry.kind.AttemptFinished? && e.entry.payload.NodePayload? ==>
             e.entry.payload.node.duration >= 0.0
  }

  lemma {:induction false} TimedCommit(log: seq<Event>, es: seq<Entry>)
    requires Timed(log)
    requires forall e | e in es :: e.kind.AttemptFinished? && e.payload.NodePayload? ==> e.payload.node.duration >= 0.0
    ensures Timed(Commit(log, es))
  {
    forall e | e in Commit(log, es) && e !in log ensures e.entry in es {
      var i :| 0 <= i < |Commit(log, es)| && Commit(log, es)[i] == e;
      assert i >= |log|;
      assert e.entry == es[i - |log|];
    }
  }

  lemma DecidedTimes(t: Tables, c: Command, now: real)
    requires Decide(t, c, now).Ok?
    ensures forall e | e in Decide(t, c, now).value ::
              e.kind.AttemptFinished? && e.payload.NodePayload? ==> e.payload.node.duration >= 0.0
  {
    if c.Reconcile? {
      AttemptLinearity.ReconcileIsQuiet(NodesOf(t, c.run), t.runs[c.run].plan, now);
    }
  }

  lemma {:induction false} HistoriesAreTimed(calls: seq<Call>)
    ensures Timed(Exec([], calls))
  {
    if calls != [] {
      var init, call := calls[..|calls| - 1], calls[|calls| - 1];
      HistoriesAreTimed(init);
      var log := Exec([], init);
      if Decide(Fold(log), call.command, call.now).Ok? {
        DecidedTimes(Fold(log), call.command, call.now);
        TimedCommit(log, Decide(Fold(log), call.command, call.now).value);
      }
    }
  }

  lemma {:induction false} ActiveTimeIsPositive(log: seq<Event>, run: RunId, k: NodeId)
    requires Timed(log)
    ensures ActiveTime(log, run, k) >= 0.0
  {
    if log != [] {
      ActiveTimeIsPositive(log[..|log| - 1], run, k);
    }
  }

  // ----- Paths -----

  /** Each node is a dependency of the next one. */
  ghost predicate Path(nodes: Nodes, p: seq<NodeId>) {
    && p != []
    && p[|p| - 1] in nodes
    && forall i | 0 < i < |p| :: p[i] in nodes && p[i - 1] in nodes[p[i]].dependencies
  }

  type Times = NodeId -> real

  function PathTime(time: Times, p: seq<NodeId>): real {
    if p == [] then 0.0 else PathTime(time, p[..|p| - 1]) + time(p[|p| - 1])
  }

  ghost predicate EndsIn(nodes: Nodes, p: seq<NodeId>, k: NodeId) {
    Path(nodes, p) && p[|p| - 1] == k
  }

  /** `w` is the greatest total time of a path that ends in `k`. */
  ghost predicate Longest(nodes: Nodes, time: Times, k: NodeId, w: real) {
    && (forall p | EndsIn(nodes, p, k) :: PathTime(time, p) <= w)
    && (exists p :: EndsIn(nodes, p, k) && PathTime(time, p) == w)
  }

  ghost predicate NonNegative(time: Times) {
    forall k :: time(k) >= 0.0
  }

  lemma {:induction false} PathTimeIsPositive(time: Times, p: seq<NodeId>)
    requires NonNegative(time)
    ensures PathTime(time, p) >= 0.0
  {
    if p != [] {
      PathTimeIsPositive(time, p[..|p| - 1]);
    }
  }

  /** `best` is the greatest table entry of the dependencies, or zero without dependencies. */
  ghost predicate BestEntry(deps: seq<NodeId>, weighted: map<NodeId, real>, best: real) {
    && (forall d | d in deps :: d in weighted && weighted[d] <= best)
    && (if deps == [] then best == 0.0 else exists d :: d in deps && weighted[d] == best)
  }

  ghost predicate TableHolds(nodes: Nodes, time: Times, weighted: map<NodeId, real>) {
    forall k | k in weighted :: k in nodes && Longest(nodes, time, k, weighted[k])
  }

  /** A path is its last node, or a path to one of that node's dependencies and the node. */
  lemma PathSplits(nodes: Nodes, p: seq<NodeId>, k: NodeId)
    requires EndsIn(nodes, p, k)
    ensures k in nodes
    ensures |p| == 1 ==> p[..|p| - 1] == []
    ensures |p| > 1 && p[|p| - 2] in nodes ==>
              p[|p| - 2] in nodes[k].dependencies && EndsIn(nodes, p[..|p| - 1], p[|p| - 2])
    ensures |p| > 1 ==> p[|p| - 2] in nodes[k].dependencies
  {
    if |p| > 1 {
      assert p[|p| - 1] == k;
    }
  }

  lemma PathExtends(nodes: Nodes, time: Times, q: seq<NodeId>, d: NodeId, k: NodeId)
    requires EndsIn(nodes, q, d) && k in nodes && d in nodes[k].dependencies
    ensures EndsIn(nodes, q + [k], k) && PathTime(time, q + [k]) == PathTime(time, q) + time(k)
  {
    assert (q + [k])[..|q|] == q;
  }

  /** The table entry of a node whose dependencies' entries are right bounds every path to it. */
  lemma EntryBounds(nodes: Nodes, time: Times, k: NodeId, weighted: map<NodeId, real>, best: real, p: seq<NodeId>)
    requires NonNegative(time) && TableHolds(nodes, time, weighted)
    requires k in nodes && BestEntry(nodes[k].dependencies, weighted, best) && EndsIn(nodes, p, k)
    ensures PathTime(time, p) <= time(k) + best
  {
    PathSplits(nodes, p, k);
    if |p| == 1 {
      if nodes[k].dependencies != [] {
        var d :| d in nodes[k].dependencies && weighted[d] == best;
        var q :| EndsIn(nodes, q, d) && PathTime(time, q) == best;
        PathTimeIsPositive(time, q);
      }
    } else {
      assert Longest(nodes, time, p[|p| - 2], weighted[p[|p| - 2]]);
    }
  }

  /** ... and some path reaches it. */
  lemma EntryReached(
    nodes: Nodes, time: Times, k: NodeId, weighted: map<NodeId, real>, best: real
  ) returns (p: seq<NodeId>)
    requires TableHolds(nodes, time, weighted)
    requires k in nodes && BestEntry(nodes[k].dependencies, weighted, best)
    ensures EndsIn(nodes, p, k) && PathTime(time, p) == time(k) + best
  {
    if nodes[k].dependencies == [] {
      p := [k];
      assert p[..0] == [];
    } else {
      var d :| d in nodes[k].dependencies && weighted[d] == best;
      var q :| EndsIn(nodes, q, d) && PathTime(time, q) == best;
      PathExtends(nodes, time, q, d, k);
      p := q + [k];
    }
  }

  lemma EntryIsLongest(nodes: Nodes, time: Times, k: NodeId, weighted: map<NodeId, real>, best: real)
    requires NonNegative(time) && TableHolds(nodes, time, weighted)
    requires k in nodes && BestEntry(nodes[k].dependencies, weighted, best)
    ensures Longest(nodes, time, k, time(k) + best)
  {
    forall p | EndsIn(nodes, p, k) ensures PathTime(time, p) <= time(k) + best {
      EntryBounds(nodes, time, k, weighted, best, p);
    }
    var p := EntryReached(nodes, time, k, weighted, best);
  }

  // ----- The pass -----

  /** A `defaultdict(float)` lookup. */
  function TimeOf(times: map<NodeId, real>, k: NodeId): real {
    if k in times then times[k] else 0.0
  }

  method SumTimes(log: seq<Event>, run: RunId) returns (times: map<NodeId, real>)
    ensures forall k :: TimeOf(times, k) == ActiveTime(log, run, k)
  {
    times := map[];
    for i := 0 to |log|
      invariant forall k :: TimeOf(times, k) == ActiveTime(log[..i], run, k)
    {
      var e := log[i];
      assert log[..i + 1][..i] == log[..i];
      if FinishOf(e, run) {
        var k := e.entry.payload.node.nodeId;
        times := times[k := TimeOf(times, k) + e.entry.payload.node.duration];
      }
    }
    assert log[..|log|] == log;
  }

  /** `max(..., default=0)` over table entries. */
  method BestOf(deps: seq<NodeId>, weighted: map<NodeId, real>) returns (best: real)
    requires forall d | d in deps :: d in weighted
    ensures BestEntry(deps, weighted, best)
  {
    best := 0.0;
    for i := 0 to |deps|
      invariant BestEntry(deps[..i], weighted, best)
    {
      assert deps[..i + 1] == deps[..i] + [deps[i]];
      assert deps[i] in deps[..i + 1];
      if i == 0 || weighted[deps[i]] > best {
        best := weighted[deps[i]];
      } else {
        var d :| d in deps[..i] && weighted[d] == best;
        assert d in deps[..i + 1];
      }
    }
    assert deps[..|deps|] == deps;
  }

  /** The attempt times of a run, as a function. */
  ghost function TimesOf(log: seq<Event>, run: RunId): Times {
    k => ActiveTime(log, run, k)
  }

  /** The `weighted_paths` loop and its maximum. Each entry is the greatest total attempt time over all
      dependency paths that end in its node, and the figure is the greatest over all paths. */
  method CriticalPath(nodes: Nodes, plan: seq<NodeId>, log: seq<Event>, run: RunId)
    returns (weighted: map<NodeId, real>, figure: real)
    requires Planned(nodes, plan) && Timed(log)
    ensures weighted.Keys == nodes.Keys
    ensures forall k | k in nodes :: Longest(nodes, TimesOf(log, run), k, weighted[k])
    ensures forall p | Path(nodes, p) :: PathTime(TimesOf(log, run), p) <= figure
    ensures if nodes == map[] then figure == 0.0
            else exists p :: Path(nodes, p) && PathTime(TimesOf(log, run), p) == figure
  {
    hide Longest, BestEntry, Planned, ActiveTime;
    var times := SumTimes(log, run);
    forall k ensures ActiveTime(log, run, k) >= 0.0 {
      ActiveTimeIsPositive(log, run, k);
    }
    weighted := FillTable(nodes, plan, times, TimesOf(log, run));
    figure := BestOf(plan, weighted);
    Greatest(nodes, TimesOf(log, run), plan, weighted, figure);
  }

  method FillTable(nodes: Nodes, plan: seq<NodeId>, times: map<NodeId, real>, ghost time: Times)
    returns (weighted: map<NodeId, real>)
    requires Planned(nodes, plan) && NonNegative(time) && forall k :: TimeOf(times, k) == time(k)
    ensures nodes.Keys == weighted.Keys == set k | k in plan
    ensures TableHolds(nodes, time, weighted)
  {
    hide Longest, BestEntry, Planned, TableHolds, NonNegative;
    weighted := map[];
    PlanCovers(nodes, plan);
    for i := 0 to |plan|
      invariant forall k :: k in weighted <==> k in plan[..i]
      invariant TableHolds(nodes, time, weighted)
    {
      var k := plan[i];
      PlanStep(nodes, plan, i);
      var best := BestOf(nodes[k].dependencies, weighted);
      EntryIsLongest(nodes, time, k, weighted, best);
      TableGrows(nodes, time, weighted, k, time(k) + best);
      weighted := weighted[k := TimeOf(times, k) + best];
    }
    assert plan[..|plan|] == plan;
  }

  lemma PlanCovers(nodes: Nodes, plan: seq<NodeId>)
    requires Planned(nodes, plan)
    ensures nodes.Keys == (set k | k in plan) && plan[..|plan|] == plan
    ensures forall time: Times :: TableHolds(nodes, time, map[])
  {
  }

  lemma TableGrows(nodes: Nodes, time: Times, weighted: map<NodeId, real>, k: NodeId, w: real)
    requires TableHolds(nodes, time, weighted) && k in nodes && Longest(nodes, time, k, w)
    ensures TableHolds(nodes, time, weighted[k := w])
  {
  }

  lemma PlanStep(nodes: Nodes, plan: seq<NodeId>, i: nat)
    requires Planned(nodes, plan) && i < |plan|
    ensures plan[i] in nodes && forall d | d in nodes[plan[i]].dependencies :: d in plan[..i]
    ensures plan[..i + 1] == plan[..i] + [plan[i]]
  {
  }

  lemma Greatest(nodes: Nodes, time: Times, plan: seq<NodeId>, weighted: map<NodeId, real>, figure: real)
    requires nodes.Keys == weighted.Keys == set k | k in plan
    requires TableHolds(nodes, time, weighted) && BestEntry(plan, weighted, figure)
    ensures forall k | k in nodes :: Longest(nodes, time, k, weighted[k])
    ensures forall p | Path(nodes, p) :: PathTime(time, p) <= figure
    ensures if nodes == map[] then figure == 0.0 else exists p :: Path(nodes, p) && PathTime(time, p) == figure
  {
    forall p | Path(nodes, p) ensures PathTime(time, p) <= figure {
      var k := p[|p| - 1];
      assert EndsIn(nodes, p, k) && k in plan;
      assert Longest(nodes, time, k, weighted[k]);
    }
    if plan != [] {
      var d :| d in plan && weighted[d] == figure;
      assert Longest(nodes, time, d, weighted[d]);
      var p :| EndsIn(nodes, p, d) && PathTime(time, p) == figure;
    }
  }
}
