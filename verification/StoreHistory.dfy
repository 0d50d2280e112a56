/** Theorems about whole histories of the control store: any number of callers, any interleaving. */
module StoreHistory {
  import opened Model
  import opened ControlLog
  import opened StoreInvariants

  datatype Call = Call(command: Command, now: real)

  /** One serial transaction: a raising body leaves the log as it was. */
  function Step(log: seq<Event>, call: Call): seq<Event> {
    match Decide(Fold(log), call.command, call.now)
    case Ok(es) => Commit(log, es)
    case Err(_) => log
  }

  function Exec(log: seq<Event>, calls: seq<Call>): seq<Event> {
    if calls == [] then log else Step(Exec(log, calls[..|calls| - 1]), calls[|calls| - 1])
  }

  ghost predicate Lawful(log: seq<Event>, calls: seq<Call>) {
    calls == [] ||
    var init := calls[..|calls| - 1];
    Lawful(log, init) && Conventional(Fold(Exec(log, init)), calls[|calls| - 1].command)
  }

  lemma StepFold(log: seq<Event>, call: Call)
    ensures Fold(Step(log, call)) == After(Fold(log), call.command, call.now)
    ensures Numbered(log) ==> Numbered(Step(log, call))
    ensures log <= Step(log, call)
  {
    match Decide(Fold(log), call.command, call.now)
    case Ok(es) => FoldCommit(log, es);
    case Err(_) =>
  }

  /** Every reachable log is numbered 1..n and folds to a well-formed projection. */
  lemma {:induction false} ReachableOk(log: seq<Event>, calls: seq<Call>)
    requires Numbered(log) && StoreOk(Fold(log)) && Lawful(log, calls)
    ensures Numbered(Exec(log, calls)) && StoreOk(Fold(Exec(log, calls)))
    ensures log <= Exec(log, calls)
  {
    if calls != [] {
      var init, call := calls[..|calls| - 1], calls[|calls| - 1];
      ReachableOk(log, init);
      StepFold(Exec(log, init), call);
      CallKeeps(Fold(Exec(log, init)), call.command, call.now);
    }
  }

  // ----- Closed runs are frozen -----

  /** The calls that rewrite at most one node record. */
  predicate OnNode(c: Command) {
    c.Prepare? || c.Claim? || c.Finish? || c.Skip? || c.Remote?
  }

  function TargetRun(c: Command): RunId
    requires OnNode(c)
  {
    if c.Prepare? || c.Skip? then c.run else c.ctx.runId
  }

  function TargetNode(c: Command): NodeId
    requires OnNode(c)
  {
    if c.Prepare? || c.Skip? then c.node else c.ctx.nodeId
  }

  /** Such a call, when it appends at all, replaces one record of a RUNNING run. */
  lemma NodeStep(t: Tables, c: Command, now: real) returns (kind: EventType, r: NodeRecord)
    requires StoreOk(t) && OnNode(c)
    requires Decide(t, c, now).Ok? && Decide(t, c, now).value != []
    ensures Decide(t, c, now).value == [Entry(kind, NodePayload(r))]
    ensures var run, k := TargetRun(c), TargetNode(c);
            && run in t.runs && t.runs[run].status.RunRunning? && run in t.nodes && k in t.nodes[run]
            && r.common == t.nodes[run][k].common && r.common.runId == run && r.nodeId == k
            && RecordOk(t, run, k, t.nodes[run][k])
            && After(t, c, now) == WithNodes(t, run, t.nodes[run][k := r], 1)
  {
    hide Decide, RecordOk;
    var run, k := TargetRun(c), TargetNode(c);
    kind, r := NodeDecision(t, c, now);
    assert RunOk(t, run);
    RecordNames(t, run, k);
    EvolveOne(t, Entry(kind, NodePayload(r)));
  }

  lemma RecordNames(t: Tables, run: RunId, k: NodeId)
    requires run in t.runs && run in t.nodes && k in t.nodes[run] && RecordOk(t, run, k, t.nodes[run][k])
    ensures t.nodes[run][k].nodeId == k && t.nodes[run][k].common == t.runs[run].common
  {
  }

  /** The decision alone: one record of the target node, under its own name. */
  lemma NodeDecision(t: Tables, c: Command, now: real) returns (kind: EventType, r: NodeRecord)
    requires OnNode(c) && Decide(t, c, now).Ok? && Decide(t, c, now).value != []
    ensures Decide(t, c, now).value == [Entry(kind, NodePayload(r))]
    ensures var run, k := TargetRun(c), TargetNode(c);
            && run in t.runs && t.runs[run].status.RunRunning? && k in NodesOf(t, run)
            && r.common == NodesOf(t, run)[k].common && r.nodeId == NodesOf(t, run)[k].nodeId
  {
    var es := Decide(t, c, now).value;
    kind, r := es[0].kind, es[0].payload.node;
    assert es == [es[0]];
  }

  lemma StepFreezes(t: Tables, c: Command, now: real)
    requires StoreOk(t)
    ensures ClosedKept(t, After(t, c, now))
  {
    hide StoreOk, Decide;
    if Decide(t, c, now).Ok? && Decide(t, c, now).value != [] {
      if OnNode(c) {
        var _, _ := NodeStep(t, c, now);
      } else {
        RunStepFreezes(t, c, now);
      }
    }
  }

  lemma RunStepFreezes(t: Tables, c: Command, now: real)
    requires StoreOk(t) && !OnNode(c) && Decide(t, c, now).Ok? && Decide(t, c, now).value != []
    ensures ClosedKept(t, After(t, c, now))
  {
    if c.Begin? {
      BeginFreezes(t, c, now);
    } else if c.Reconcile? {
      ReconcileFreezes(t, c, now);
    } else {
      OneEntryFreezes(t, c, now);
    }
  }

  lemma OneEntryFreezes(t: Tables, c: Command, now: real)
    requires StoreOk(t) && (c.FinishRun? || c.PutOutbox?) && Decide(t, c, now).Ok? && Decide(t, c, now).value != []
    ensures ClosedKept(t, After(t, c, now))
  {
    var es := Decide(t, c, now).value;
    assert es == [es[0]];
    EvolveOne(t, es[0]);
    if c.FinishRun? {
      assert RunOk(t, c.run);
    }
  }

  lemma BeginFreezes(t: Tables, c: Command, now: real)
    requires StoreOk(t) && c.Begin? && Decide(t, c, now).Ok?
    ensures ClosedKept(t, After(t, c, now))
  {
    hide StoreOk, Decide, After;
    var _ := BegunRun(t, c, now);
  }

  lemma ReconcileFreezes(t: Tables, c: Command, now: real)
    requires StoreOk(t) && c.Reconcile? && Decide(t, c, now).Ok?
    ensures ClosedKept(t, After(t, c, now))
  {
    hide StoreOk, Decide, After;
    ReconciledRun(t, c, now);
  }

  /** Once a run is SUCCEEDED or FAILED, all its nodes are terminal and neither it nor they ever change. */
  lemma {:induction false} ClosedRunsAreFrozen(log: seq<Event>, calls: seq<Call>, run: RunId)
    requires Numbered(log) && StoreOk(Fold(log)) && Lawful(log, calls)
    requires run in Fold(log).runs && !Open(Fold(log).runs[run].status)
    ensures var t, t' := Fold(log), Fold(Exec(log, calls));
            && run in t'.runs && t'.runs[run] == t.runs[run]
            && run in t.nodes && run in t'.nodes && t'.nodes[run] == t.nodes[run]
            && Settled(t'.nodes[run])
  {
    assert RunOk(Fold(log), run);
    if calls != [] {
      var init, call := calls[..|calls| - 1], calls[|calls| - 1];
      ClosedRunsAreFrozen(log, init, run);
      ReachableOk(log, init);
      StepFold(Exec(log, init), call);
      StepFreezes(Fold(Exec(log, init)), call.command, call.now);
    }
  }

  /** The runs of a scope form one chain: run k+1 was begun from run k, and only the last can be open. */
  lemma RunsFormAChain(calls: seq<Call>, i: nat)
    requires Lawful([], calls)
    requires i < |Fold(Exec([], calls)).runOrder|
    ensures var t := Fold(Exec([], calls));
            && t.runs.Keys == (set id | id in t.runOrder)
            && t.runs[t.runOrder[i]].attempt == i + 1
            && t.runs[t.runOrder[i]].common.parent == (if i == 0 then None else Some(t.runOrder[i - 1]))
            && (i + 1 < |t.runOrder| ==> !Open(t.runs[t.runOrder[i]].status))
  {
    ReachableOk([], calls);
    assert Link(Fold(Exec([], calls)), i);
  }
}
