/** What recovery guarantees: reuse is closed under ancestors, finished dependencies are final, and a
    resumed run has the outputs of a clean one. */
module Restart {
  import opened Model
  import opened ControlLog
  import opened Parameters
  import opened Descendants
  import opened Board
  import opened Recovery
  import opened StoreInvariants
  import opened Triggers
  import opened Planning
  import opened Rebuild

  // ----- Reuse -----

  /** `a` is `k` or an ancestor of it: `k` is in the downstream closure of `a`. */
  ghost predicate Upstream(nodes: Nodes, a: NodeId, k: NodeId) {
    k in Closure(nodes, {a})
  }

  lemma ParentIsUpstream(nodes: Nodes, a: NodeId, d: NodeId, k: NodeId)
    requires k in nodes && d in nodes[k].dependencies && Upstream(nodes, a, d)
    ensures Upstream(nodes, a, k)
  {
  }

  /** Every ancestor of a reused node is reused in the same run. */
  lemma ReuseIsAncestorClosed(job: Job, b: Board, a: NodeId, k: NodeId)
    requires Inv(job, b) && a in b.recs && k in b.recs && Upstream(job.cfg.nodes, a, k)
    requires b.recs[k].status.SkippedAlreadySatisfied?
    ensures b.recs[a].status.SkippedAlreadySatisfied?
  {
    hide Ruled, Proven, Shape, ContextHolds, WasRead, Final;
    var rest := set j | j in b.recs && !b.recs[j].status.SkippedAlreadySatisfied?;
    if a in rest {
      forall c, d | c in job.cfg.nodes && d in job.cfg.nodes[c].dependencies && d in rest ensures c in rest {
        assert NodeInv(job, b, c);
      }
      ClosureIsLeast(job.cfg.nodes, {a}, rest);
    }
  }

  /** Nothing downstream of a node that was executed in this run, of a prior failure, or of a forced
      origin is reused. */
  lemma NothingDownstreamIsReused(job: Job, b: Board, seeds: set<NodeId>, a: NodeId, k: NodeId)
    requires Inv(job, b) && Closure(job.cfg.nodes, seeds) <= b.invalid
    requires a in seeds || (a in b.recs && b.recs[a].attempt > 0)
    requires k in b.recs && Upstream(job.cfg.nodes, a, k)
    ensures !b.recs[k].status.SkippedAlreadySatisfied?
  {
    if a in b.recs {
      assert NodeInv(job, b, a);
    }
    assert a in b.invalid;
    ClosureIsLeast(job.cfg.nodes, {a}, b.invalid);
    assert NodeInv(job, b, k);
  }

  // ----- Dependency finality -----

  /** The statuses that a node recorded when it was prepared or skipped are its dependencies' present
      ones, whatever happened since; only a cancelled node may have recorded unfinished ones. */
  lemma DependenciesAreFinal(job: Job, b: Board, k: NodeId)
    requires Inv(job, b) && k in b.recs && !b.recs[k].status.Pending? && !b.recs[k].status.Cancelled?
    ensures b.recs[k].dependencyStatus == Statuses(b.recs, job.cfg.nodes[k].dependencies)
    ensures forall d | d in job.cfg.nodes[k].dependencies ::
              d in b.recs && Terminal(b.recs[d].status) && !b.recs[d].uncertain && d !in b.active
  {
    assert NodeInv(job, b, k);
    forall d | d in job.cfg.nodes[k].dependencies ensures d in b.recs && Final(job, b, d) {
    }
  }

  /** In one run a node is attempted at most `max_retries + 1` times, and once if repeating it is unsafe. */
  lemma AttemptsAreBounded(job: Job, b: Board, k: NodeId)
    requires ValidJob(job) && Inv(job, b) && k in b.recs
    ensures k in job.cfg.nodes && b.recs[k].attempt <= job.cfg.nodes[k].retry.maxRetries + 1
    ensures job.cfg.nodes[k].strategy in {Compensation, Manual} ==> b.recs[k].attempt <= 1
  {
    Basics(job, b, k);
    assert ValidNode(job.cfg, k);
  }

  // ----- Restart equivalence -----

  /** What `produce` gives each node when the whole plan runs once, from `sources`, without failures. */
  function CleanProofs(cfg: Config, produce: Production, sources: Json -> Json, plan: seq<NodeId>)
    : map<NodeId, map<string, OutputProof>>
  {
    if plan == [] then map[]
    else
      var before := CleanProofs(cfg, produce, sources, plan[..|plan| - 1]);
      var k := plan[|plan| - 1];
      if k !in cfg.nodes then before
      else
        match Resolve(cfg.nodes[k].parameters, cfg.data, map[], map[])
        case None => before
        case Some(resolved) => before[k := produce(CleanInputs(cfg, cfg.nodes[k], resolved, sources(resolved), before))]
  }

  function CleanInputs(
    cfg: Config, node: NodeDef, resolved: Json, contents: Json, before: map<NodeId, map<string, OutputProof>>
  ): Fingerprint
  {
    Inputs(SignatureOf(cfg, node), resolved, contents,
           map d | d in node.dependencies && d in before :: DependencyProof(Succeeded, before[d]))
  }

  /** The node and all its ancestors are success-class. */
  ghost predicate Solid(nodes: Nodes, recs: Records, k: NodeId) {
    forall a | a in nodes && Upstream(nodes, a, k) :: a in recs && Success(recs[a].status)
  }

  /** What the run read is constant: one content per resolved parameter tree. */
  ghost predicate Constant(canRead: Reads, sources: Json -> Json) {
    forall resolved, contents | canRead(resolved, contents) :: contents == sources(resolved)
  }

  lemma SolidParent(nodes: Nodes, recs: Records, k: NodeId, d: NodeId)
    requires Solid(nodes, recs, k) && k in nodes && d in nodes[k].dependencies
    ensures Solid(nodes, recs, d)
  {
    forall a | a in nodes && Upstream(nodes, a, d) ensures a in recs && Success(recs[a].status) {
      ParentIsUpstream(nodes, a, d, k);
    }
  }

  lemma SolidSelf(nodes: Nodes, recs: Records, k: NodeId)
    requires Solid(nodes, recs, k) && k in nodes
    ensures k in recs && Success(recs[k].status)
  {
    assert k in Closure(nodes, {k});
    assert Upstream(nodes, k, k);
  }

  /** The inputs of a solid node are those of a clean run, once its dependencies' proofs are. */
  lemma SolidInputs(
    cfg: Config, produce: Production, canRead: Reads, sources: Json -> Json, recs: Records, k: NodeId,
    before: map<NodeId, map<string, OutputProof>>
  )
    requires Trusted(cfg, produce, canRead, recs) && Constant(canRead, sources)
    requires k in cfg.nodes && Solid(cfg.nodes, recs, k) && ConfigOnly(cfg.nodes[k].parameters)
    requires forall d | d in cfg.nodes[k].dependencies ::
               d in recs && Success(recs[d].status) && d in before && before[d] == Proofs(recs[d].outputs)
    ensures k in recs
    ensures var resolved := Resolve(cfg.nodes[k].parameters, cfg.data, map[], map[]);
            && resolved.Some?
            && Proofs(recs[k].outputs) ==
                 produce(CleanInputs(cfg, cfg.nodes[k], resolved.value, sources(resolved.value), before))
  {
    hide Solid, Resolve, SignatureOf, Proofs, ConfigOnly;
    SolidSelf(cfg.nodes, recs, k);
    assert Proven(cfg, produce, recs, k, recs[k]);
    var node, fp := cfg.nodes[k], recs[k].inputs.value;
    assert DependencyProofs(recs, node.dependencies)
        == map d | d in node.dependencies && d in before :: DependencyProof(Succeeded, before[d]);
  }

  lemma CleanStep(cfg: Config, produce: Production, sources: Json -> Json, plan: seq<NodeId>, n: nat, resolved: Json)
    requires 0 < n <= |plan| && Planned(cfg.nodes, plan)
    ensures var k, init := plan[n - 1], plan[..n - 1];
            var before, clean :=
              CleanProofs(cfg, produce, sources, init), CleanProofs(cfg, produce, sources, plan[..n]);
            && k in cfg.nodes && k !in init
            && (forall d | d in cfg.nodes[k].dependencies :: d in init && d in cfg.nodes)
            && (forall j | j in before && j != k :: j in clean && clean[j] == before[j])
            && (Resolve(cfg.nodes[k].parameters, cfg.data, map[], map[]) == Some(resolved) ==>
                  k in clean && clean[k] ==
                                produce(CleanInputs(cfg, cfg.nodes[k], resolved, sources(resolved), before)))
  {
    assert plan[..n][..n - 1] == plan[..n - 1];
  }

  /** Node by node along the plan. */
  lemma {:induction false} SolidNodesAreClean(
    cfg: Config, produce: Production, canRead: Reads, sources: Json -> Json, recs: Records, plan: seq<NodeId>,
    n: nat, k: NodeId
  )
    requires Trusted(cfg, produce, canRead, recs) && Constant(canRead, sources) && Planned(cfg.nodes, plan)
    requires forall j | j in cfg.nodes :: ConfigOnly(cfg.nodes[j].parameters)
    requires n <= |plan| && k in plan[..n] && k in cfg.nodes && Solid(cfg.nodes, recs, k)
    ensures k in recs && Success(recs[k].status)
    ensures var clean := CleanProofs(cfg, produce, sources, plan[..n]);
            k in clean && clean[k] == Proofs(recs[k].outputs)
  {
    hide Solid, Resolve, Proofs, ConfigOnly, Trusted, Constant, CleanInputs, CleanProofs, Planned;
    SolidSelf(cfg.nodes, recs, k);
    var last := plan[n - 1];
    var before := CleanProofs(cfg, produce, sources, plan[..n - 1]);
    assert plan[..n] == plan[..n - 1] + [last];
    CleanStep(cfg, produce, sources, plan, n, Null);
    if k == last {
      forall d | d in cfg.nodes[k].dependencies
        ensures d in recs && Success(recs[d].status) && d in before && before[d] == Proofs(recs[d].outputs)
      {
        SolidParent(cfg.nodes, recs, k, d);
        SolidNodesAreClean(cfg, produce, canRead, sources, recs, plan, n - 1, d);
      }
      SolidInputs(cfg, produce, canRead, sources, recs, k, before);
      CleanStep(cfg, produce, sources, plan, n, Resolve(cfg.nodes[k].parameters, cfg.data, map[], map[]).value);
    } else {
      SolidNodesAreClean(cfg, produce, canRead, sources, recs, plan, n - 1, k);
    }
  }

  /** The run has `plan`'s configuration over constant `sources`, and parameters that depend on it alone. */
  ghost predicate Comparable(
    t: Tables, readings: Readings, run: RunId, cfg: Config, sources: Json -> Json, plan: seq<NodeId>
  ) {
    && run in t.runs && t.runs[run].common.config == cfg && Planned(cfg.nodes, plan)
    && (forall j | j in cfg.nodes :: ConfigOnly(cfg.nodes[j].parameters))
    && run in readings && Constant(readings[run], sources)
  }

  /** Restart equivalence. Take any scope in order: whatever chain of failed, crashed, reconciled,
      resumed and forced runs led there. In each run, closed or not, whose sources stayed constant while it
      read them, every node that is success-class with all its ancestors, executed or reused, has the digests
      and row counts that one clean run of the same configuration over these sources gives it. */
  lemma RestartEquivalence(
    t: Tables, produce: Production, readings: Readings, flight: Option<Flight>, run: RunId, cfg: Config,
    sources: Json -> Json, plan: seq<NodeId>, k: NodeId
  )
    requires SystemOk(t, produce, readings, flight) && Comparable(t, readings, run, cfg, sources, plan)
    requires k in plan && Solid(cfg.nodes, NodesOf(t, run), k)
    ensures k in NodesOf(t, run)
    ensures var clean := CleanProofs(cfg, produce, sources, plan);
            k in clean && clean[k] == Proofs(NodesOf(t, run)[k].outputs)
  {
    hide SystemOk, Solid, Constant, Trusted;
    assert plan[..|plan|] == plan;
    EveryRunIsTrusted(t, produce, readings, flight, run);
    SolidNodesAreClean(cfg, produce, readings[run], sources, NodesOf(t, run), plan, |plan|, k);
  }

  /** Two runs, of one scope or of two, agree wherever both are solid. */
  lemma RunsAgree(
    t: Tables, readings: Readings, flight: Option<Flight>, run: RunId,
    t': Tables, readings': Readings, flight': Option<Flight>, run': RunId,
    produce: Production, cfg: Config, sources: Json -> Json, plan: seq<NodeId>, k: NodeId
  )
    requires SystemOk(t, produce, readings, flight) && Comparable(t, readings, run, cfg, sources, plan)
    requires SystemOk(t', produce, readings', flight') && Comparable(t', readings', run', cfg, sources, plan)
    requires k in plan && Solid(cfg.nodes, NodesOf(t, run), k) && Solid(cfg.nodes, NodesOf(t', run'), k)
    ensures k in NodesOf(t, run) && k in NodesOf(t', run')
    ensures Proofs(NodesOf(t, run)[k].outputs) == Proofs(NodesOf(t', run')[k].outputs)
  {
    RestartEquivalence(t, produce, readings, flight, run, cfg, sources, plan, k);
    RestartEquivalence(t', produce, readings', flight', run', cfg, sources, plan, k);
  }

  // ----- A resumed run repeats nothing that is still good -----

  /** Sources that never change, artifacts that stay valid, and neither a deadline nor fail-fast. */
  ghost predicate Unchanging(w: World, cfg: Config, end: real, sources: Json -> Json) {
    && !cfg.failFast && (forall n: nat :: w.clock(n) < end)
    && (forall n: nat, resolved: Json :: w.read(n, resolved) == Ok(sources(resolved)))
    && (forall n: nat, outputs: map<string, Reference> :: w.valid(n, outputs) == Ok(true))
  }

  /** The node's policy allows reuse, its trigger fires on reused dependencies, and its checkpoint was written
      for it. */
  predicate Repeatable(job: Job, k: NodeId) {
    && k in job.cfg.nodes && k in job.previous
    && var node, prior := job.cfg.nodes[k], job.previous[k];
    && node.eligible && node.reuseValid && Safe(node.strategy) && ConfigOnly(node.parameters)
    && prior.common.businessKey == job.businessKey
    && prior.inputs.Some? && prior.inputs.value.Inputs?
    && TriggerStatus(node, AllReused(node.dependencies), prior.inputs.value.resolved) == Fires
    && (prior.checkpoint.Some? ==>
          prior.checkpoint.value.name == node.checkpointName && prior.checkpoint.value.inputs == prior.inputs.value)
  }

  /** The nodes that succeeded with all their ancestors, and that no seed invalidates. */
  ghost function SolidOutside(job: Job, invalid: set<NodeId>): set<NodeId> {
    set k | k in job.cfg.nodes && k !in invalid && Solid(job.cfg.nodes, job.previous, k)
  }

  /** The prior result of such a node is still good: its fingerprint is the one that planning computes. */
  lemma SolidIsStillGood(
    t: Tables, parent: RunId, w: World, job: Job, end: real, canRead: Reads, sources: Json -> Json, k: NodeId
  )
    requires StoreOk(t) && parent in t.runs && t.runs[parent].common.config == job.cfg
    requires job.previous == NodesOf(t, parent) && Trusted(job.cfg, job.produce, canRead, job.previous)
    requires Constant(canRead, sources) && Unchanging(w, job.cfg, end, sources)
    requires ValidJob(job) && Repeatable(job, k) && Solid(job.cfg.nodes, job.previous, k)
    ensures exists resolved, contents :: StillGood(w, job, k, resolved, contents)
  {
    hide Solid, Resolve, SignatureOf, Proofs, ConfigOnly, DependencyProofs, TriggerStatus, UpstreamOf, Consistent,
         Provenance;
    SolidSelf(job.cfg.nodes, job.previous, k);
    NodeIdIs(job, k);
    var node, prior := job.cfg.nodes[k], job.previous[k];
    assert Proven(job.cfg, job.produce, job.previous, k, prior);
    assert RecordOk(t, parent, k, prior) by {
      assert RunOk(t, parent);
    }
    ConfigOnlyIgnoresTheRun(node.parameters, job.cfg.data, RuntimeOf(job, k, 1),
                            UpstreamOf(job.previous, node.dependencies), map[], map[]);
    var resolved := prior.inputs.value.resolved;
    assert StillGood(w, job, k, resolved, sources(resolved));
  }

  /** Minimal rebuild of a resumed run: over constant sources and valid artifacts, the nodes that succeeded with
      all their ancestors, and that no seed invalidates, may all be kept; the run then reuses each of them. */
  lemma ResumeKeepsWhatIsSolid(
    t: Tables, produce: Production, readings: Readings, flight: Option<Flight>, parent: RunId, w: World, job: Job,
    end: real, sources: Json -> Json, invalid: set<NodeId>
  )
    requires SystemOk(t, produce, readings, flight) && parent in t.runs && t.runs[parent].common.config == job.cfg
    requires ValidJob(job) && job.produce == produce && job.previous == NodesOf(t, parent)
    requires parent in readings && Constant(readings[parent], sources) && Unchanging(w, job.cfg, end, sources)
    requires Closed(job.cfg.nodes, invalid)
    requires forall k | k in SolidOutside(job, invalid) :: Repeatable(job, k)
    ensures Keepable(w, job, end, SolidOutside(job, invalid))
  {
    hide SystemOk, Trusted, Constant, Solid, StillGood, Repeatable, ValidJob, StoreOk;
    var keep := SolidOutside(job, invalid);
    EveryRunIsTrusted(t, produce, readings, flight, parent);
    SystemIsOk(t, produce, readings, flight);
    forall k | k in keep ensures KeepableAt(w, job, keep, k) {
      SolidIsStillGood(t, parent, w, job, end, readings[parent], sources, k);
      forall d | d in job.cfg.nodes[k].dependencies ensures d in keep {
        SolidParent(job.cfg.nodes, job.previous, k, d);
        PlannedDependency(job, k, d);
        assert d in invalid ==> k in invalid;
      }
    }
  }

  lemma PlannedDependency(job: Job, k: NodeId, d: NodeId)
    requires ValidJob(job) && k in job.cfg.nodes && d in job.cfg.nodes[k].dependencies
    ensures d in job.cfg.nodes
  {
    var i :| 0 <= i < |job.plan| && job.plan[i] == k;
    assert d in job.plan[..i];
  }

  /** What a run reuses succeeded in the parent run with all its ancestors. */
  lemma ReusedAreSolid(job: Job, b: Board, k: NodeId)
    requires Inv(job, b) && k in b.recs && b.recs[k].status == SkippedAlreadySatisfied
    ensures Solid(job.cfg.nodes, job.previous, k)
  {
    hide Inv;
    SameKeys(job, b);
    forall a | a in job.cfg.nodes && Upstream(job.cfg.nodes, a, k)
      ensures a in job.previous && Success(job.previous[a].status)
    {
      ReuseIsAncestorClosed(job, b, a, k);
      RecordIsRuled(job, b, a);
    }
  }

  lemma SameKeys(job: Job, b: Board)
    requires Inv(job, b)
    ensures b.recs.Keys == job.cfg.nodes.Keys
  {
  }

  /** A resumed run over constant sources and valid artifacts reuses exactly the nodes that succeeded in the parent
      run with all their ancestors and lie outside the closure of the seeds, once it has reused all that it may. */
  lemma ResumeReusesExactly(job: Job, b: Board, seeds: set<NodeId>, k: NodeId)
    requires Inv(job, b) && k in b.recs && Closure(job.cfg.nodes, seeds) <= b.invalid
    requires forall j | j in SolidOutside(job, Closure(job.cfg.nodes, seeds)) ::
               j in b.recs && b.recs[j].status == SkippedAlreadySatisfied
    ensures b.recs[k].status == SkippedAlreadySatisfied <==> k in SolidOutside(job, Closure(job.cfg.nodes, seeds))
  {
    hide Solid, Inv;
    SameKeys(job, b);
    if b.recs[k].status == SkippedAlreadySatisfied {
      ReusedAreSolid(job, b, k);
      ReusedIsValid(job, b, k);
    }
  }

  lemma ReusedIsValid(job: Job, b: Board, k: NodeId)
    requires Inv(job, b) && k in b.recs && b.recs[k].status == SkippedAlreadySatisfied
    ensures k !in b.invalid
  {
    hide Ruled, Proven, ContextHolds, Shape;
    assert NodeInv(job, b, k);
  }
}
