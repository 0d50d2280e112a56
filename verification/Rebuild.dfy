/** Minimal rebuild over a whole run: results that are still valid are reused, and nothing else touches them. */
module Rebuild {
  import opened Model
  import opened Parameters
  import opened Descendants
  import opened Board
  import opened RunSteps
  import opened Triggers
  import opened Planning

  /** The outcome of dependencies that are all reused. */
  function AllReused(deps: seq<NodeId>): map<NodeId, Status> {
    map d | d in deps :: SkippedAlreadySatisfied
  }

  /** What the node would be planned with if all its dependencies were reused. */
  function PriorInputs(job: Job, k: NodeId, resolved: Json, contents: Json): Fingerprint
    requires k in job.cfg.nodes
  {
    InputFingerprint(job.cfg, job.cfg.nodes[k], resolved, contents, job.previous)
  }

  /** The node's prior result is as good as new: over the parent's results its trigger fires, its sources read the
      same whenever they are asked, its prior artifacts are valid whenever they are checked, and the reuse rule
      accepts it. */
  ghost predicate StillGood(w: World, job: Job, k: NodeId, resolved: Json, contents: Json)
    requires k in job.cfg.nodes
  {
    var node := job.cfg.nodes[k];
    && ParametersOf(job, k, 1, job.previous) == Some(resolved)
    && TriggerStatus(node, AllReused(node.dependencies), resolved) == Fires
    && k in job.previous
    && CanReuse(Prior(job, k), job.cfg, node, job.businessKey, PriorInputs(job, k, resolved, contents), true, {})
    && (forall n: nat :: w.read(n, resolved) == Ok(contents))
    && (forall n: nat :: w.valid(n, job.previous[k].outputs) == Ok(true))
  }

  /** A set of such nodes that contains their dependencies, in a run that neither its deadline `end` nor
      fail-fast cuts short. */
  ghost predicate Keepable(w: World, job: Job, end: real, keep: set<NodeId>) {
    && (keep != {} ==> !job.cfg.failFast && forall n: nat :: w.clock(n) < end)
    && forall k | k in keep :: KeepableAt(w, job, keep, k)
  }

  ghost predicate KeepableAt(w: World, job: Job, keep: set<NodeId>, k: NodeId) {
    && k in job.cfg.nodes && (forall d | d in job.cfg.nodes[k].dependencies :: d in keep)
    && exists resolved, contents :: StillGood(w, job, k, resolved, contents)
  }

  /** The greatest such set outside `invalid`. */
  ghost function Keep(w: World, job: Job, end: real, invalid: set<NodeId>): set<NodeId> {
    set k | k in job.cfg.nodes && exists keep :: k in keep && keep !! invalid && Keepable(w, job, end, keep)
  }

  lemma KeepIsKeepable(w: World, job: Job, end: real, invalid: set<NodeId>)
    ensures Keepable(w, job, end, Keep(w, job, end, invalid)) && Keep(w, job, end, invalid) !! invalid
    ensures forall keep | Keepable(w, job, end, keep) && keep !! invalid :: keep <= Keep(w, job, end, invalid)
  {
    var all := Keep(w, job, end, invalid);
    forall k | k in all ensures KeepableAt(w, job, all, k) {
      var keep :| k in keep && keep !! invalid && Keepable(w, job, end, keep);
      assert KeepableAt(w, job, keep, k);
      forall d | d in job.cfg.nodes[k].dependencies ensures d in all {
        assert KeepableAt(w, job, keep, d);
      }
    }
    forall keep | Keepable(w, job, end, keep) && keep !! invalid ensures keep <= all {
      forall k | k in keep ensures k in all {
        assert KeepableAt(w, job, keep, k);
      }
    }
  }

  /** Nothing but reuse has touched the node. */
  ghost predicate Untouched(job: Job, b: Board, k: NodeId) {
    && k in b.recs && k !in b.active && k !in b.invalid
    && (b.recs[k].status.Pending?
        || (&& b.recs[k].status.SkippedAlreadySatisfied?
            && k in job.previous && b.recs[k].outputs == job.previous[k].outputs))
  }

  ghost predicate Kept(job: Job, b: Board, keep: set<NodeId>) {
    forall k | k in keep :: Untouched(job, b, k)
  }

  // ----- What a reusable node is planned as -----

  lemma KeptDependency(w: World, job: Job, end: real, b: Board, keep: set<NodeId>, k: NodeId, d: NodeId)
    requires Keepable(w, job, end, keep) && Kept(job, b, keep) && k in keep && k in job.cfg.nodes
    requires d in job.cfg.nodes[k].dependencies && Final(job, b, d)
    ensures d in b.recs && b.recs[d].status.SkippedAlreadySatisfied?
    ensures d in job.previous && Success(job.previous[d].status) && b.recs[d].outputs == job.previous[d].outputs
  {
    hide StillGood;
    assert KeepableAt(w, job, keep, k);
    assert KeepableAt(w, job, keep, d);
    assert Untouched(job, b, d);
    var resolved, contents :| StillGood(w, job, d, resolved, contents);
    PriorSucceeded(w, job, d, resolved, contents);
  }

  lemma PriorSucceeded(w: World, job: Job, k: NodeId, resolved: Json, contents: Json)
    requires k in job.cfg.nodes && StillGood(w, job, k, resolved, contents)
    ensures k in job.previous && Success(job.previous[k].status)
  {
  }

  /** With its dependencies reused, the node sees what its prior attempt saw. */
  lemma PriorViews(w: World, job: Job, end: real, b: Board, keep: set<NodeId>, k: NodeId)
    requires Keepable(w, job, end, keep) && Kept(job, b, keep) && k in keep && k in job.cfg.nodes
    requires forall d | d in job.cfg.nodes[k].dependencies :: Final(job, b, d)
    ensures var deps := job.cfg.nodes[k].dependencies;
            && Statuses(b.recs, deps) == AllReused(deps)
            && UpstreamOf(b.recs, deps) == UpstreamOf(job.previous, deps)
            && DependencyProofs(b.recs, deps) == DependencyProofs(job.previous, deps)
  {
    hide StillGood, Keepable, Kept, Final, Proofs;
    forall d | d in job.cfg.nodes[k].dependencies
      ensures d in b.recs && b.recs[d].status.SkippedAlreadySatisfied?
      ensures d in job.previous && Success(job.previous[d].status) && b.recs[d].outputs == job.previous[d].outputs
    {
      KeptDependency(w, job, end, b, keep, k, d);
    }
  }

  lemma KeptFires(
    w: World, job: Job, end: real, b: Board, keep: set<NodeId>, k: NodeId, resolved: Json, contents: Json
  )
    requires ValidJob(job) && Keepable(w, job, end, keep) && Kept(job, b, keep) && k in keep
    requires k in job.cfg.nodes && Decidable(job, b, k) && StillGood(w, job, k, resolved, contents)
    ensures VerdictOf(job, b.recs, k) == Fires && ParametersOf(job, k, 1, b.recs) == Some(resolved)
    ensures Reusable(job, b, k, InputFingerprint(job.cfg, job.cfg.nodes[k], resolved, contents, b.recs))
  {
    hide Resolve, Statuses, UpstreamOf, DependencyProofs, SignatureOf, ConditionValue, Matches;
    PriorViews(w, job, end, b, keep, k);
    assert Untouched(job, b, k);
    NodeIdIs(job, k);
  }

  /** Planning can only reuse it. */
  lemma KeptIsReused(
    w: World, m: nat, n: nat, job: Job, end: real, b: Board, attempted: set<NodeId>, approved: set<NodeId>,
    keep: set<NodeId>, k: NodeId, plan: Plan
  )
    requires ValidJob(job) && Keepable(w, job, end, keep) && Kept(job, b, keep)
    requires k in job.cfg.nodes && Decidable(job, b, k) && PlanHolds(job, b, k, plan)
    requires Grounded(w, m, n, job, b, attempted, approved, k, plan)
    ensures k in keep ==> plan.Reusing?
  {
    hide Resolve, VerdictOf, ParametersOf, Reusable, InputFingerprint, Allowed, RefusedFor, Kept, OutputsPresent,
         MayReuse, MaySkip, Decidable, ValidJob, CanReuse;
    if k in keep {
      assert KeepableAt(w, job, keep, k);
      var resolved, contents :| StillGood(w, job, k, resolved, contents);
      KeptFires(w, job, end, b, keep, k, resolved, contents);
    }
  }

  // ----- Every move leaves it alone -----

  lemma UndisturbedKept(job: Job, b: Board, b': Board, keep: set<NodeId>)
    requires Kept(job, b, keep) && Undisturbed(b, b')
    ensures Kept(job, b', keep)
  {
    forall k | k in keep ensures Untouched(job, b', k) {
      assert Untouched(job, b, k);
    }
  }

  lemma OtherPutKept(job: Job, b: Board, keep: set<NodeId>, r: NodeRecord)
    requires Kept(job, b, keep) && r.nodeId !in keep
    ensures Kept(job, Put(b, r), keep)
  {
    forall k | k in keep ensures Untouched(job, Put(b, r), k) {
      assert Untouched(job, b, k);
    }
  }

  lemma ReusePutKept(job: Job, b: Board, keep: set<NodeId>, r: NodeRecord)
    requires Kept(job, b, keep) && r.status.SkippedAlreadySatisfied?
    requires r.nodeId in job.previous && r.outputs == job.previous[r.nodeId].outputs
    ensures Kept(job, Put(b, r), keep)
  {
    forall k | k in keep ensures Untouched(job, Put(b, r), k) {
      assert Untouched(job, b, k);
    }
  }

  /** A node that is READY, or may be prepared, is not one of them. */
  lemma PreparedIsOther(job: Job, b: Board, keep: set<NodeId>, k: NodeId, spare: set<NodeId>)
    requires Kept(job, b, keep) && k in b.recs
    requires MayPrepare(job, b, k, spare) || b.recs[k].status.Ready?
    ensures k !in keep
  {
    assert k in keep ==> Untouched(job, b, k);
  }

  lemma FlightKept(job: Job, b: Board, keep: set<NodeId>, active: map<NodeId, Context>)
    requires Kept(job, b, keep) && forall k | k in keep && k in active :: k in b.active
    ensures Kept(job, b.(active := active), keep)
  {
    forall k | k in keep ensures Untouched(job, b.(active := active), k) {
      assert Untouched(job, b, k);
    }
  }

  /** Executing another node invalidates only what depends on it. */
  lemma GrownKept(w: World, job: Job, end: real, b: Board, keep: set<NodeId>, k: NodeId)
    requires Keepable(w, job, end, keep) && Kept(job, b, keep) && k !in keep && k in job.cfg.nodes
    ensures Kept(job, b.(invalid := b.invalid + Closure(job.cfg.nodes, {k})), keep)
  {
    var others := job.cfg.nodes.Keys - keep;
    forall j, d | j in job.cfg.nodes && d in job.cfg.nodes[j].dependencies && d in others ensures j in others {
      assert j in keep ==> KeepableAt(w, job, keep, j);
    }
    ClosureIsLeast(job.cfg.nodes, {k}, others);
    forall j | j in keep ensures Untouched(job, b.(invalid := b.invalid + Closure(job.cfg.nodes, {k})), j) {
      assert Untouched(job, b, j);
    }
  }

  lemma PendingKept(job: Job, b: Board, keep: set<NodeId>)
    requires keep <= b.recs.Keys && keep !! b.invalid && b.active == map[]
    requires forall k | k in b.recs :: b.recs[k].status.Pending?
    ensures Kept(job, b, keep)
  {
  }

  /** Once every node is finished, all of them have been reused. */
  lemma SettledIsReused(job: Job, b: Board, keep: set<NodeId>)
    requires Kept(job, b, keep) && forall k | k in b.recs :: Terminal(b.recs[k].status)
    ensures forall k | k in keep :: k in b.recs && b.recs[k].status.SkippedAlreadySatisfied?
  {
    forall k | k in keep ensures k in b.recs && b.recs[k].status.SkippedAlreadySatisfied? {
      assert Untouched(job, b, k);
    }
  }
}
