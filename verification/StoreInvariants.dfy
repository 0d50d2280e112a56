/** What every store call keeps: the run chain, settled closed runs, proof-carrying outputs and the
    provenance of reuse. */
module StoreInvariants {
  import opened Model
  import opened ControlLog

  // ----- The invariant on projections -----

  /** Run k of the scope carries attempt k and names run k-1 as its parent; only the last run can be open. */
  ghost predicate Chained(t: Tables) {
    && t.runs.Keys == t.nodes.Keys == (set id | id in t.runOrder)
    && (forall i, j | 0 <= i < j < |t.runOrder| :: t.runOrder[i] != t.runOrder[j])
    && (forall i | 0 <= i < |t.runOrder| :: Link(t, i))
  }

  ghost predicate Link(t: Tables, i: nat)
    requires i < |t.runOrder|
  {
    && t.runOrder[i] in t.runs
    && var run := t.runs[t.runOrder[i]];
    && t.runOrder[i] <= t.sequence
    && run.attempt == i + 1
    && run.common.parent == (if i == 0 then None else Some(t.runOrder[i - 1]))
    && (Open(run.status) ==> i == |t.runOrder| - 1)
  }

  /** A record has outputs and a checkpoint exactly when it is success-class, and then the
      checkpoint commits to the outputs. */
  predicate Carrying(r: NodeRecord) {
    && (Success(r.status) <==> r.outputs != map[])
    && (Success(r.status) <==> r.checkpoint.Some?)
    && (Success(r.status) ==> r.checkpoint.value.outputs == Outputs(r.outputs))
  }

  /** A reused record names a closed run where the same node SUCCEEDED with the same outputs and checkpoint. */
  ghost predicate Provenance(t: Tables, r: NodeRecord) {
    && (r.status.SkippedAlreadySatisfied? <==> r.reusedFrom.Some?)
    && (r.reusedFrom.Some? ==>
          var o := r.reusedFrom.value;
          && o in t.runs && !Open(t.runs[o].status)
          && o in t.nodes && r.nodeId in t.nodes[o]
          && t.nodes[o][r.nodeId].status.Succeeded?
          && t.nodes[o][r.nodeId].outputs == r.outputs
          && t.nodes[o][r.nodeId].checkpoint == r.checkpoint)
  }

  /** What a record says of itself: its node's criticality; a clock that starts with the claim and stops with the
      outcome; an error only for an outcome, and a retry only if that error allows one. */
  predicate Consistent(r: NodeRecord) {
    && (r.critical <==> r.nodeId in r.common.config.nodes && r.common.config.nodes[r.nodeId].critical)
    && (r.endedAt.Some? <==> Terminal(r.status))
    && (r.status.Pending? || r.status.Ready? ==> r.startedAt.None?) && (r.status.Running? ==> r.startedAt.Some?)
    && (r.status.Pending? || r.status.Ready? || r.status.Running? ==> r.error.None? && r.duration == 0.0)
    && (r.status.Succeeded? || r.status.Failed? || r.status.TimedOut? ==>
          r.duration == if r.startedAt.None? || r.endedAt.value <= r.startedAt.value then 0.0
                        else r.endedAt.value - r.startedAt.value)
    && (r.retryable <==>
          && (r.status.Succeeded? || r.status.Failed? || r.status.TimedOut?)
          && r.error.Some? && r.error.value.retryable)
    && (r.attempt == 0 ==> r.remote.None?)
  }

  ghost predicate RecordOk(t: Tables, run: RunId, k: NodeId, r: NodeRecord)
    requires run in t.runs
  {
    && r.nodeId == k
    && r.common == t.runs[run].common
    && (r.claim.Some? ==> r.claim.value <= t.sequence)
    && (r.attempt == 0 <==> r.claim.None?)
    && (r.uncertain ==> r.status.Failed? || r.status.TimedOut?)
    && (r.status.Pending? ==> r.attempt == 0)
    && Carrying(r) && Consistent(r)
    && Provenance(t, r)
  }

  ghost predicate RunOk(t: Tables, run: RunId)
    requires run in t.runs && run in t.nodes
  {
    && t.runs[run].common.runId == run
    && t.nodes[run].Keys == (set k | k in t.runs[run].plan)
    && (forall k | k in t.nodes[run] :: RecordOk(t, run, k, t.nodes[run][k]))
    && (Open(t.runs[run].status) || Settled(t.nodes[run]))
  }

  ghost predicate Settled(recs: map<NodeId, NodeRecord>) {
    forall k | k in recs :: Terminal(recs[k].status)
  }

  ghost predicate StoreOk(t: Tables) {
    && Chained(t)
    && (forall run | run in t.runs :: RunOk(t, run))
    && (forall e | e in t.outbox :: t.outbox[e].effect == e)
  }

  // ----- Calling conventions -----

  /** How the repository's callers use the free arguments of a call. Everything else about a call
      (who makes it, when, with which context) is arbitrary. */
  ghost predicate Conventional(t: Tables, c: Command) {
    match c
    case Finish(_, res) =>
      && (res.status.Succeeded? || res.status.Failed? || res.status.TimedOut?)
      && (res.status.Succeeded? ==> !res.uncertain)
    case Skip(run, node, _, status, _, prior, _) =>
      && (status.SkippedAlreadySatisfied? || status.SkippedCondition? || status.Blocked? || status.Cancelled?)
      && (status.SkippedAlreadySatisfied? && prior.Some? ==>
            && run in t.runs
            && t.runs[run].common.parent.Some?
            && node in NodesOf(t, t.runs[run].common.parent.value)
            && prior.value == NodesOf(t, t.runs[run].common.parent.value)[node])
    case FinishRun(_, _, status) => !status.RunRunning?
    case _ => true
  }

  // ----- Every call keeps the invariant -----

  lemma OpenIsLast(t: Tables, run: RunId)
    requires Chained(t) && run in t.runs && Open(t.runs[run].status)
    ensures t.runOrder != [] && run == t.runOrder[|t.runOrder| - 1]
  {
    var i :| 0 <= i < |t.runOrder| && t.runOrder[i] == run;
    assert Link(t, i);
  }

  /** Closed runs of `t` are exactly as they were in `t'`. */
  ghost predicate ClosedKept(t: Tables, t': Tables) {
    forall o | o in t.runs && o in t.nodes && !Open(t.runs[o].status) ::
      o in t'.runs && o in t'.nodes && t'.runs[o] == t.runs[o] && t'.nodes[o] == t.nodes[o]
  }

  lemma RecordFrame(t: Tables, t': Tables, run: RunId, k: NodeId, r: NodeRecord)
    requires t.runs.Keys == t.nodes.Keys
    requires run in t.runs && RecordOk(t, run, k, r)
    requires t.sequence <= t'.sequence && ClosedKept(t, t')
    requires run in t'.runs && t'.runs[run].common == t.runs[run].common
    ensures RecordOk(t', run, k, r)
  {
  }

  /** A run whose own record and nodes did not change stays well-formed. */
  lemma RunFrame(t: Tables, t': Tables, run: RunId)
    requires t.runs.Keys == t.nodes.Keys
    requires run in t.runs && RunOk(t, run)
    requires t.sequence <= t'.sequence && ClosedKept(t, t')
    requires run in t'.runs && run in t'.nodes && t'.runs[run] == t.runs[run] && t'.nodes[run] == t.nodes[run]
    ensures RunOk(t', run)
  {
    forall k | k in t'.nodes[run] ensures RecordOk(t', run, k, t'.nodes[run][k]) {
      RecordFrame(t, t', run, k, t.nodes[run][k]);
    }
  }

  lemma ChainFrame(t: Tables, t': Tables)
    requires Chained(t)
    requires t.sequence <= t'.sequence && t'.runOrder == t.runOrder
    requires t'.runs.Keys == t'.nodes.Keys == t.runs.Keys
    requires forall id | id in t.runs ::
               && t'.runs[id].common == t.runs[id].common && t'.runs[id].attempt == t.runs[id].attempt
               && (Open(t'.runs[id].status) ==> Open(t.runs[id].status))
    ensures Chained(t')
  {
    forall i | 0 <= i < |t'.runOrder| ensures Link(t', i) {
      assert Link(t, i);
    }
  }

  /** Enough to look at the one run that a transaction touched. */
  lemma OneRunChanged(t: Tables, t': Tables, run: RunId)
    requires StoreOk(t) && Chained(t')
    requires t.sequence <= t'.sequence && t'.outbox == t.outbox
    requires t'.runs.Keys == t.runs.Keys + {run}
    requires run in t.runs ==> Open(t.runs[run].status)
    requires forall q | q in t.runs && q != run :: t'.runs[q] == t.runs[q] && t'.nodes[q] == t.nodes[q]
    requires RunOk(t', run)
    ensures StoreOk(t')
  {
    forall q | q in t'.runs && q != run ensures RunOk(t', q) {
      assert RunOk(t, q);
      RunFrame(t, t', q);
    }
  }

  /** Rewriting one record of an open run, by any record that is itself well-formed. */
  lemma NodePutKeeps(t: Tables, kind: EventType, r: NodeRecord)
    requires StoreOk(t)
    requires var run := r.common.runId;
             && run in t.runs && run in t.nodes && Open(t.runs[run].status) && r.nodeId in t.nodes[run]
             && RecordOk(t.(sequence := t.sequence + 1), run, r.nodeId, r)
    ensures StoreOk(Evolve(t, Entry(kind, NodePayload(r))))
  {
    hide StoreOk, RunOk, RecordOk, Chained, Link, Evolve;
    var run := r.common.runId;
    var t' := WithNodes(t, run, t.nodes[run][r.nodeId := r], 1);
    EvolvePut(t, kind, r);
    PutChained(t, run, t.nodes[run][r.nodeId := r]);
    NodePutRun(t, t', r);
    OneRunChanged(t, t', run);
  }

  lemma PutChained(t: Tables, run: RunId, recs: map<NodeId, NodeRecord>)
    requires StoreOk(t) && run in t.runs
    ensures t.runs.Keys == t.nodes.Keys && RunOk(t, run) && Chained(WithNodes(t, run, recs, 1))
  {
    hide RecordOk, Link, RunOk;
    ChainFrame(t, WithNodes(t, run, recs, 1));
  }

  lemma EvolvePut(t: Tables, kind: EventType, r: NodeRecord)
    requires r.common.runId in t.nodes
    ensures var run := r.common.runId;
            Evolve(t, Entry(kind, NodePayload(r))) == WithNodes(t, run, t.nodes[run][r.nodeId := r], 1)
  {
  }

  lemma NodePutRun(t: Tables, t': Tables, r: NodeRecord)
    requires t.runs.Keys == t.nodes.Keys
    requires var run := r.common.runId;
             && run in t.runs && RunOk(t, run) && Open(t.runs[run].status) && r.nodeId in t.nodes[run]
             && RecordOk(t.(sequence := t.sequence + 1), run, r.nodeId, r)
             && t' == WithNodes(t, run, t.nodes[run][r.nodeId := r], 1)
    ensures RunOk(t', r.common.runId)
  {
    var run := r.common.runId;
    assert t'.nodes[run].Keys == t.nodes[run].Keys;
    RecordFrame(t.(sequence := t.sequence + 1), t', run, r.nodeId, r);
    forall k | k in t'.nodes[run] && k != r.nodeId ensures RecordOk(t', run, k, t'.nodes[run][k]) {
      RecordFrame(t, t', run, k, t.nodes[run][k]);
    }
  }

  /** Rewriting the record of the last run, with its nodes unchanged. */
  lemma RunPutKeeps(t: Tables, kind: EventType, run: RunRecord)
    requires StoreOk(t)
    requires var id := run.common.runId;
             && id in t.runs && Open(t.runs[id].status)
             && t.runs[id].(status := run.status, endedAt := run.endedAt) == run
             && (Open(run.status) || Settled(t.nodes[id]))
    ensures StoreOk(Evolve(t, Entry(kind, RunPayload(run))))
  {
    var id := run.common.runId;
    var t' := Evolve(t, Entry(kind, RunPayload(run)));
    assert t'.nodes == t.nodes;
    assert RunOk(t, id);
    ChainFrame(t, t');
    forall k | k in t'.nodes[id] ensures RecordOk(t', id, k, t'.nodes[id][k]) {
      RecordFrame(t, t', id, k, t.nodes[id][k]);
    }
    OneRunChanged(t, t', id);
  }

  lemma FreshRun(t: Tables)
    requires Chained(t)
    ensures t.sequence + 1 !in t.runs
  {
    forall i | 0 <= i < |t.runOrder| ensures t.runOrder[i] != t.sequence + 1 {
      assert Link(t, i);
    }
  }

  lemma BeginChains(t: Tables, run: RunRecord, count: nat, recs: map<NodeId, NodeRecord>)
    requires Chained(t)
    requires forall id | id in t.runs :: !Open(t.runs[id].status)
    requires run.common.runId == t.sequence + 1 && run.attempt == |t.runOrder| + 1
    requires run.common.parent == if t.runOrder == [] then None else Some(t.runOrder[|t.runOrder| - 1])
    ensures Chained(WithNodes(Evolve(t, Entry(RunStarted, RunPayload(run))), run.common.runId, recs, count))
  {
    FreshRun(t);
    var t' := WithNodes(Evolve(t, Entry(RunStarted, RunPayload(run))), run.common.runId, recs, count);
    assert t'.runOrder == t.runOrder + [run.common.runId];
    forall i | 0 <= i < |t'.runOrder| ensures Link(t', i) {
      if i < |t.runOrder| {
        assert Link(t, i);
        assert t'.runOrder[i] == t.runOrder[i];
      }
    }
  }

  /** Whatever the mode, a run that may begin names the latest run as its parent, or none if it is the first. */
  lemma BeginParent(t: Tables, request: RunRequest, cfg: Config, plan: seq<NodeId>, now: real)
    requires Chained(t) && DecideBegin(t, request, cfg, plan, now).Ok?
    ensures BeginCommon(t, request, cfg).parent
         == if t.runOrder == [] then None else Some(t.runOrder[|t.runOrder| - 1])
    ensures forall id | id in t.runs :: !Open(t.runs[id].status)
  {
    if t.runOrder == [] {
      assert t.runs.Keys == {};
    }
  }

  lemma BeginKeeps(t: Tables, request: RunRequest, cfg: Config, plan: seq<NodeId>, now: real)
    requires StoreOk(t)
    ensures StoreOk(After(t, Begin(request, cfg, plan), now))
  {
    if DecideBegin(t, request, cfg, plan, now).Ok? {
      BeginParent(t, request, cfg, plan, now);
      FreshRun(t);
      var t', run := BeginTables(t, request, cfg, plan, now);
      BeginChains(t, run, |plan|, CreateAll(run.common, plan));
      CreatedRun(t', run.common.runId);
      OneRunChanged(t, t', run.common.runId);
    }
  }

  lemma CreatedRun(t: Tables, run: RunId)
    requires run in t.runs && run in t.nodes && t.runs[run].common.runId == run && Open(t.runs[run].status)
    requires t.nodes[run] == CreateAll(t.runs[run].common, t.runs[run].plan)
    ensures RunOk(t, run)
  {
    forall k | k in t.nodes[run] ensures RecordOk(t, run, k, t.nodes[run][k]) {
      assert t.nodes[run][k] == NewNode(t.runs[run].common, k);
    }
  }

  lemma BeginTables(t: Tables, request: RunRequest, cfg: Config, plan: seq<NodeId>, now: real)
    returns (t': Tables, run: RunRecord)
    requires Chained(t) && DecideBegin(t, request, cfg, plan, now).Ok?
    ensures t' == After(t, Begin(request, cfg, plan), now)
    ensures run == NewRun(t, request, cfg, plan, now)
    ensures t' == WithNodes(Evolve(t, Entry(RunStarted, RunPayload(run))), run.common.runId,
                            CreateAll(run.common, plan), |plan|)
  {
    var es := DecideBegin(t, request, cfg, plan, now).value;
    run := es[0].payload.run;
    FreshRun(t);
    EvolveConcat(t, [es[0]], CreateEntries(run.common, plan));
    EvolveOne(t, es[0]);
    EvolveCreate(Evolve(t, es[0]), run.common, plan);
    t' := EvolveAll(t, es);
  }

  /** The tables after `begin_run` have one more run, of PENDING nodes, and are otherwise the same. */
  ghost predicate OneRunMore(t: Tables, t': Tables, run: RunId) {
    && (forall o | o in t.runs :: o in t'.runs && t'.runs[o] == t.runs[o])
    && (forall o | o in t.nodes :: o in t'.nodes && t'.nodes[o] == t.nodes[o])
    && (forall o | o != run :: NodesOf(t', o) == NodesOf(t, o))
    && (forall k | k in NodesOf(t', run) ::
          NodesOf(t', run)[k].attempt == 0 && NodesOf(t', run)[k].status.Pending?)
  }

  lemma CreatedTables(t: Tables, run: RunRecord, plan: seq<NodeId>, count: nat)
    requires run.common.runId !in t.runs && run.common.runId !in t.nodes
    ensures OneRunMore(t, WithNodes(Evolve(t, Entry(RunStarted, RunPayload(run))), run.common.runId,
                                    CreateAll(run.common, plan), count), run.common.runId)
  {
  }

  /** `begin_run` adds one run, of PENDING nodes, and touches no other. */
  lemma BegunRun(t: Tables, c: Command, now: real) returns (run: RunId)
    requires StoreOk(t) && c.Begin? && Decide(t, c, now).Ok?
    ensures run !in t.nodes && run !in t.runs && NodesOf(t, run) == map[]
    ensures OneRunMore(t, After(t, c, now), run)
  {
    FreshRun(t);
    hide RunOk, RecordOk, Link, OneRunMore, CreateAll;
    var t', begun := BeginTables(t, c.request, c.cfg, c.plan, now);
    run := begun.common.runId;
    CreatedTables(t, begun, c.plan, |c.plan|);
  }

  /** The parent's records are in order too. */
  lemma ParentRecordOk(t: Tables, run: RunId, k: NodeId)
    requires StoreOk(t) && run in t.runs && Open(t.runs[run].status) && t.runs[run].common.parent.Some?
    ensures var p := t.runs[run].common.parent.value;
            && p in t.runs && p in t.nodes && !Open(t.runs[p].status) && RunOk(t, p)
            && (k in t.nodes[p] ==> RecordOk(t, p, k, t.nodes[p][k]))
  {
    hide RecordOk;
    OpenIsLast(t, run);
    assert Link(t, |t.runOrder| - 1);
    assert Link(t, |t.runOrder| - 2);
    assert RunOk(t, t.runs[run].common.parent.value);
  }

  lemma SkipCallKeeps(t: Tables, c: Command, now: real)
    requires StoreOk(t) && c.Skip? && Conventional(t, c)
    ensures StoreOk(After(t, c, now))
  {
    match Decide(t, c, now)
    case Err(_) =>
    case Ok(es) =>
      var run := c.run;
      assert RunOk(t, run);
      var r := t.nodes[run][c.node];
      assert RecordOk(t, run, c.node, r);
      if c.status.SkippedAlreadySatisfied? {
        ParentRecordOk(t, run, c.node);
      }
      var r' := es[0].payload.node;
      assert RecordOk(t.(sequence := t.sequence + 1), run, c.node, r');
      NodePutKeeps(t, es[0].kind, r');
      EvolveOne(t, es[0]);
  }

  /** The calls that rewrite one record without copying from another run. */
  lemma AttemptKeeps(t: Tables, c: Command, now: real)
    requires StoreOk(t) && Conventional(t, c) && (c.Prepare? || c.Claim? || c.Finish? || c.Remote?)
    ensures StoreOk(After(t, c, now))
  {
    match Decide(t, c, now)
    case Err(_) =>
    case Ok(es) =>
      if es != [] {
        hide RunOk, RecordOk, Evolve;
        AttemptRecord(t, c, now);
        NodePutKeeps(t, es[0].kind, es[0].payload.node);
        EvolveOne(t, es[0]);
      }
  }

  /** The record that such a call puts is well-formed. */
  lemma AttemptRecord(t: Tables, c: Command, now: real)
    requires StoreOk(t) && Conventional(t, c) && (c.Prepare? || c.Claim? || c.Finish? || c.Remote?)
    requires Decide(t, c, now).Ok? && Decide(t, c, now).value != []
    ensures var es, run := Decide(t, c, now).value, if c.Prepare? then c.run else c.ctx.runId;
            && es == [es[0]] && es[0].payload.NodePayload?
            && var r := es[0].payload.node;
            && r.common.runId == run && run in t.runs && run in t.nodes && Open(t.runs[run].status)
            && r.nodeId in t.nodes[run] && RecordOk(t.(sequence := t.sequence + 1), run, r.nodeId, r)
  {
    hide RecordOk, Prepared, Claimed, Finished;
    var run := if c.Prepare? then c.run else c.ctx.runId;
    var k := if c.Prepare? then c.node else c.ctx.nodeId;
    assert RunOk(t, run);
    var r := t.nodes[run][k];
    match c {
      case Prepare(_, _, _, inputs, deps, delay) =>
        PreparedOk(t, run, k, r, inputs, deps, now + delay);
      case Claim(_) => ClaimedOk(t, run, k, r, now);
      case Finish(ctx, res) => FinishedOk(t, run, k, r, res, now > ctx.deadline, now);
      case Remote(_, remote) => RemoteOk(t, run, k, r, remote);
    }
  }

  lemma PreparedOk(
    t: Tables, run: RunId, k: NodeId, r: NodeRecord, inputs: Fingerprint, deps: map<NodeId, Status>, readyAt: real
  )
    requires run in t.runs && RecordOk(t, run, k, r) && !r.uncertain
    requires r.status.Pending? || r.status.Failed? || r.status.TimedOut?
    ensures RecordOk(t.(sequence := t.sequence + 1), run, k, Prepared(r, inputs, deps, readyAt, t.sequence + 1))
    ensures Prepared(r, inputs, deps, readyAt, t.sequence + 1).nodeId == k
    ensures Prepared(r, inputs, deps, readyAt, t.sequence + 1).common == t.runs[run].common
  {
  }

  lemma ClaimedOk(t: Tables, run: RunId, k: NodeId, r: NodeRecord, now: real)
    requires run in t.runs && RecordOk(t, run, k, r) && r.status.Ready?
    ensures RecordOk(t.(sequence := t.sequence + 1), run, k, Claimed(r, now))
    ensures Claimed(r, now).nodeId == k && Claimed(r, now).common == t.runs[run].common
  {
  }

  lemma FinishedOk(t: Tables, run: RunId, k: NodeId, r: NodeRecord, res: Result, late: bool, now: real)
    requires run in t.runs && RecordOk(t, run, k, r) && (r.status.Ready? || r.status.Running?)
    requires res.status.Succeeded? || res.status.Failed? || res.status.TimedOut?
    requires res.status.Succeeded? ==> !res.uncertain && CheckpointCommits(res)
    ensures RecordOk(t.(sequence := t.sequence + 1), run, k, Finished(r, res, late, now))
    ensures Finished(r, res, late, now).nodeId == k && Finished(r, res, late, now).common == t.runs[run].common
  {
  }

  lemma RemoteOk(t: Tables, run: RunId, k: NodeId, r: NodeRecord, remote: int)
    requires run in t.runs && RecordOk(t, run, k, r) && r.claim.Some?
    ensures RecordOk(t.(sequence := t.sequence + 1), run, k, r.(remote := Some(remote)))
    ensures r.nodeId == k && r.common == t.runs[run].common
  {
  }

  lemma OutboxKeeps(t: Tables, c: Command, now: real)
    requires StoreOk(t) && c.PutOutbox?
    ensures StoreOk(After(t, c, now))
  {
    hide RunOk, Link;
    match Decide(t, c, now)
    case Err(_) =>
    case Ok(es) =>
      if es != [] {
        assert es == [es[0]];
        EvolveOne(t, es[0]);
        var t' := Evolve(t, es[0]);
        ChainFrame(t, t');
        forall q | q in t'.runs ensures RunOk(t', q) {
          assert RunOk(t, q);
          RunFrame(t, t', q);
        }
      }
  }

  lemma FinishRunKeeps(t: Tables, c: Command, now: real)
    requires StoreOk(t) && c.FinishRun? && Conventional(t, c)
    ensures StoreOk(After(t, c, now))
  {
    match Decide(t, c, now)
    case Err(_) =>
    case Ok(es) =>
      assert es == [es[0]];
      EvolveOne(t, es[0]);
      RunPutKeeps(t, es[0].kind, es[0].payload.run);
  }

  lemma ReconcileTables(t: Tables, c: Command, now: real) returns (mid: Tables, last: Entry)
    requires StoreOk(t) && c.Reconcile? && Decide(t, c, now).Ok?
    ensures exists count: nat ::
              mid == WithNodes(t, c.run, ReconcileAll(t.nodes[c.run], t.runs[c.run].plan, now), count)
    ensures last == Entry(RunReconciled, RunPayload(t.runs[c.run].(status := RunFailed, endedAt := Some(now))))
    ensures After(t, c, now) == Evolve(mid, last)
  {
    var run := c.run;
    var plan := t.runs[run].plan;
    assert RunOk(t, run);
    var recs := t.nodes[run];
    forall k | k in recs ensures recs[k].nodeId == k && recs[k].common.runId == run {
      assert RecordOk(t, run, k, recs[k]);
    }
    var es := Decide(t, c, now).value;
    var head := ReconcileEntries(recs, plan, now);
    last := es[|head|];
    assert es == head + [last];
    EvolveConcat(t, head, [last]);
    EvolveReconcile(t, run, plan, now);
    mid := EvolveAll(t, head);
    EvolveOne(mid, last);
  }

  /** Reconciliation rewrites the nodes and the status of one open run. */
  lemma ReconciledRun(t: Tables, c: Command, now: real)
    requires StoreOk(t) && c.Reconcile? && Decide(t, c, now).Ok?
    ensures c.run in t.runs && c.run in t.nodes && Open(t.runs[c.run].status)
    ensures After(t, c, now).runs == t.runs[c.run := t.runs[c.run].(status := RunFailed, endedAt := Some(now))]
    ensures After(t, c, now).nodes == t.nodes[c.run := ReconcileAll(t.nodes[c.run], t.runs[c.run].plan, now)]
    ensures After(t, c, now).runOrder == t.runOrder && After(t, c, now).outbox == t.outbox
  {
    hide RecordOk, ReconcileAll;
    assert RunOk(t, c.run);
    var mid, last := ReconcileTables(t, c, now);
  }

  lemma ReconcileKeeps(t: Tables, c: Command, now: real)
    requires StoreOk(t) && c.Reconcile?
    ensures StoreOk(After(t, c, now))
  {
    if Decide(t, c, now).Ok? {
      var mid, last := ReconcileTables(t, c, now);
      var count: nat :| mid == WithNodes(t, c.run, ReconcileAll(t.nodes[c.run], t.runs[c.run].plan, now), count);
      assert RunOk(t, c.run);
      ReconciledNodesKeep(t, mid, c.run, now, count);
      RunPutKeeps(mid, last.kind, last.payload.run);
    }
  }

  lemma ReconciledNodesKeep(t: Tables, mid: Tables, run: RunId, now: real, count: nat)
    requires StoreOk(t) && run in t.runs && Open(t.runs[run].status)
    requires mid == WithNodes(t, run, ReconcileAll(t.nodes[run], t.runs[run].plan, now), count)
    ensures StoreOk(mid) && Settled(mid.nodes[run])
  {
    hide RecordOk, Link, Reconciled, RunOk, Settled;
    assert RunOk(t, run);
    ReconciledRunOk(t, mid, run, now, count);
    ChainFrame(t, mid);
    OneRunChanged(t, mid, run);
  }

  lemma ReconciledRunOk(t: Tables, mid: Tables, run: RunId, now: real, count: nat)
    requires t.runs.Keys == t.nodes.Keys && run in t.runs && Open(t.runs[run].status) && RunOk(t, run)
    requires mid == WithNodes(t, run, ReconcileAll(t.nodes[run], t.runs[run].plan, now), count)
    ensures RunOk(mid, run) && Settled(mid.nodes[run])
  {
    hide RecordOk, Reconciled;
    forall k | k in mid.nodes[run]
      ensures RecordOk(mid, run, k, mid.nodes[run][k]) && Terminal(mid.nodes[run][k].status)
    {
      ReconciledOk(t, run, k, now);
      RecordFrame(t, mid, run, k, mid.nodes[run][k]);
    }
  }

  lemma ReconciledOk(t: Tables, run: RunId, k: NodeId, now: real)
    requires run in t.runs && run in t.nodes && k in t.nodes[run] && RecordOk(t, run, k, t.nodes[run][k])
    ensures RecordOk(t, run, k, Reconciled(t.nodes[run][k], now))
    ensures Terminal(Reconciled(t.nodes[run][k], now).status)
  {
  }

  /** No call, by anyone in any order, breaks the invariant. */
  lemma CallKeeps(t: Tables, c: Command, now: real)
    requires StoreOk(t) && Conventional(t, c)
    ensures StoreOk(After(t, c, now))
  {
    match c
    case Begin(request, cfg, plan) => BeginKeeps(t, request, cfg, plan, now);
    case Skip(_, _, _, _, _, _, _) => SkipCallKeeps(t, c, now);
    case PutOutbox(_, _, _, _) => OutboxKeeps(t, c, now);
    case FinishRun(_, _, _) => FinishRunKeeps(t, c, now);
    case Reconcile(_, _, _) => ReconcileKeeps(t, c, now);
    case _ => AttemptKeeps(t, c, now);
  }
}
