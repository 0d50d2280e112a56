/** What one iteration of the scheduler may do to a board, and what it sees of it.

    Everything that the loop cannot control is a `World`: clock readings, source contents, artifact
    validity, lease checks, what other processes try on the store before each access, and which
    dispatched attempts have returned. Each access consumes one tick. */
module Planning {
  import opened Model
  import opened ControlLog
  import opened StoreInvariants
  import opened Parameters
  import opened Board
  import opened RunSteps
  import opened Capacity
  import opened Potential
  import opened Triggers

  /** How the executor found an attempt that ended without a final record. */
  datatype Exit = Exit(error: Failure, uncertain: bool)

  datatype World = World(
    clock: nat -> real,
    read: (nat, Json) -> Outcome<Json>,
    valid: (nat, map<string, Reference>) -> Outcome<bool>,
    calls: nat -> seq<Command>,
    returned: nat -> set<NodeId>,
    exit: (nat, NodeId) -> Exit,
    leaseHeld: nat -> bool)

  ghost predicate Orderly(w: World) {
    forall i: nat, j: nat | i <= j :: w.clock(i) <= w.clock(j)
  }

  /** The sources show only what the run is taken to read. */
  ghost predicate Respects(w: World, canRead: Reads) {
    forall n: nat, resolved: Json | w.read(n, resolved).Ok? :: canRead(resolved, w.read(n, resolved).value)
  }

  /** The executor's own report on it. */
  function ExitReport(exit: Exit): Result {
    Result(if exit.error.category.Timeout? then TimedOut else Failed, map[], None, Some(exit.error), NoCounts,
           exit.uncertain, true)
  }

  /** What the record of a returned attempt shows, given what it was when the executor looked: its own outcome, or
      how the executor found the attempt. */
  ghost predicate Shows(r: NodeRecord, exit: Exit, r': NodeRecord) {
    if r.status in {Ready, Running} then
      && r'.status == (if exit.error.category == Timeout then TimedOut else Failed)
      && r'.error == Some(exit.error) && (r'.retryable <==> exit.error.retryable)
      && r'.uncertain == exit.uncertain && r'.attempt == r.attempt && r'.outputs == map[]
    else r' == r
  }

  /** The nodes of `lost` have an unconfirmed outcome. */
  ghost predicate Uncertain(recs: Records, lost: set<NodeId>) {
    forall k | k in lost :: k in recs && recs[k].uncertain
  }

  lemma UncertainUndisturbed(job: Job, b: Board, b': Board, lost: set<NodeId>)
    requires Inv(job, b) && Undisturbed(b, b') && Uncertain(b.recs, lost)
    ensures Uncertain(b'.recs, lost)
  {
    hide Inv;
    forall k | k in lost ensures k in b'.recs && b'.recs[k].uncertain {
      Basics(job, b, k);
    }
  }

  lemma UncertainPut(b: Board, r: NodeRecord, lost: set<NodeId>)
    requires Uncertain(b.recs, lost) && r.nodeId in b.recs && !b.recs[r.nodeId].uncertain
    ensures Uncertain(Put(b, r).recs, lost)
  {
  }

  lemma ExitIsReport(job: Job, b: Board, k: NodeId, exit: Exit)
    requires Inv(job, b) && k in b.active
    ensures WorkerCall(job, b.recs, b.active, Finish(b.active[k], ExitReport(exit)))
  {
    assert NodeInv(job, b, k);
  }

  /** It is accepted, and then the record is terminal and shows it; no other record has changed. */
  lemma ExitShows(t: Tables, job: Job, b: Board, k: NodeId, exit: Exit, c: Command, now: real)
    requires StoreOk(t) && Inv(job, b) && b.recs == NodesOf(t, job.run) && Runs(t, job.run, None) && k in b.active
    requires c == Finish(b.active[k], ExitReport(exit)) && b.recs[k].status in {Ready, Running}
    ensures var recs := NodesOf(After(t, c, now), job.run);
            && recs.Keys == b.recs.Keys && Shows(b.recs[k], exit, recs[k]) && Terminal(recs[k].status)
            && forall j | j in recs && j != k :: recs[j] == b.recs[j]
  {
    hide StoreOk, Finished, Shows, ExitReport, Inv;
    FlightHeld(job, b, k);
    ReportAllowed(exit);
    assert Decide(t, c, now) == NodeEntry(AttemptFinished, Finished(b.recs[k], c.result, now > c.ctx.deadline, now));
    var _, r := CallMoves(t, c, now);
    ReportShows(b.recs[k], exit, now > c.ctx.deadline, now);
  }

  lemma FlightHeld(job: Job, b: Board, k: NodeId)
    requires Inv(job, b) && k in b.active
    ensures k in b.recs && b.recs[k].nodeId == k && Holds(b.recs[k], b.active[k])
    ensures b.active[k].nodeId == k && b.active[k].runId == job.run
  {
    hide Ruled, Proven, Shape, Final, Statuses, UpstreamOf, ParametersOf;
    assert NodeInv(job, b, k);
  }

  lemma ReportAllowed(exit: Exit)
    ensures ExitReport(exit).allowReady && (ExitReport(exit).status.Failed? || ExitReport(exit).status.TimedOut?)
  {
  }

  lemma ReportShows(r: NodeRecord, exit: Exit, late: bool, now: real)
    requires r.status in {Ready, Running}
    ensures var r' := Finished(r, ExitReport(exit), late, now); Shows(r, exit, r') && Terminal(r'.status)
  {
  }

  /** The local snapshot is exact for every node that is not in flight. */
  ghost predicate Agrees(records: Records, b: Board) {
    && records.Keys == b.recs.Keys
    && forall k | k in b.recs && k !in b.active :: records[k] == b.recs[k]
  }

  /** Only the record of `k` (and records in flight) may have changed. */
  ghost predicate ChangedAt(b: Board, b': Board, k: NodeId, r: NodeRecord) {
    && b'.active == b.active && b'.recs.Keys == b.recs.Keys
    && k in b'.recs && b'.recs[k] == r
    && forall j | j in b.recs && j != k ::
         && b'.recs[j].attempt == b.recs[j].attempt
         && b'.recs[j].nodeId == b.recs[j].nodeId
         && (j !in b.active ==> b'.recs[j] == b.recs[j])
  }

  lemma ChangedRecord(b: Board, b': Board, k: NodeId, r: NodeRecord)
    requires ChangedAt(b, b', k, r)
    ensures k in b.recs && k in b'.recs && b'.recs[k] == r && b'.active == b.active
  {
  }

  lemma UndisturbedKeys(b: Board, b': Board)
    requires Undisturbed(b, b')
    ensures b'.recs.Keys == b.recs.Keys && b'.active == b.active
  {
  }

  lemma ChangedTwice(b0: Board, b1: Board, b: Board, k: NodeId, r1: NodeRecord, r: NodeRecord)
    requires ChangedAt(b0, b1, k, r1) && Undisturbed(b1, b) && r.nodeId == k
    ensures ChangedAt(b0, Put(b, r), k, r)
  {
  }

  lemma ResolvableWider(job: Job, b: Board, spare: set<NodeId>, wide: set<NodeId>)
    requires Resolvable(job, b, spare) && spare <= wide
    ensures Resolvable(job, b, wide)
  {
  }

  lemma UndisturbedThenPut(b: Board, b': Board, r: NodeRecord)
    requires Undisturbed(b, b') && r.nodeId in b.recs
    ensures ChangedAt(b, Put(b', r), r.nodeId, r)
  {
  }

  /** What never changes while a run is in progress: a validated job, a RUNNING run of this owner, the
      sound records of its parent, and everything else that was in the store at the start. */
  ghost predicate Configured(
    t: Tables, job: Job, world: World, owner: nat, parent: Option<RunId>, parentConfig: Config, start: Tables
  ) {
    && StoreOk(t)
    && ValidJob(job) && ParentSound(job, parentConfig) && Orderly(world)
    && Runs(t, job.run, Some(owner))
    && t.runs[job.run].common.config == job.cfg
    && t.runs[job.run].common.parent == parent
    && parent != Some(job.run)
    && job.previous == (if parent.Some? then NodesOf(t, parent.value) else map[])
    && Framed(start, t, job.run) && Respects(world, job.canRead)
  }

  lemma ConfiguredFrame(
    t: Tables, t': Tables, job: Job, world: World, owner: nat, parent: Option<RunId>, parentConfig: Config,
    start: Tables
  )
    requires Configured(t, job, world, owner, parent, parentConfig, start)
    requires StoreOk(t') && Framed(t, t', job.run)
    ensures Configured(t', job, world, owner, parent, parentConfig, start)
  {
  }

  // ----- When the scheduler prepares a node -----

  /** A retry within its budget, or the first attempt of a node that `invalid` already covers; the
      parameters resolve, unless this is the node whose planning failure is being recorded. */
  ghost predicate MayPrepare(job: Job, b: Board, k: NodeId, spare: set<NodeId>) {
    && k in b.recs && k in job.cfg.nodes && k !in b.active
    && (Retryable(job.cfg.nodes[k], b.recs[k])
        || (Decidable(job, b, k) && k in b.invalid && VerdictOf(job, b.recs, k) == Fires))
    && (k in spare
        || OutputsPresent(job.cfg.nodes[k].parameters, UpstreamOf(b.recs, job.cfg.nodes[k].dependencies)))
  }

  lemma MayPrepareStable(job: Job, b: Board, b': Board, k: NodeId, spare: set<NodeId>)
    requires Inv(job, b) && MayPrepare(job, b, k, spare) && Undisturbed(b, b')
    ensures MayPrepare(job, b', k, spare)
    ensures k in b.recs && k in b'.recs && b'.recs[k] == b.recs[k]
    ensures Statuses(b'.recs, job.cfg.nodes[k].dependencies) == Statuses(b.recs, job.cfg.nodes[k].dependencies)
  {
    if Retryable(job.cfg.nodes[k], b.recs[k]) {
      RetryableDecided(job, b, k);
    }
    UndisturbedViews(job, b, b', k);
  }

  /** The record that `prepare` would commit keeps the run's invariant. */
  lemma PrepareOnBoard(
    job: Job, b: Board, k: NodeId, inputs: Fingerprint, deps: map<NodeId, Status>, readyAt: real, claim: nat,
    spare: set<NodeId>, r: NodeRecord
  )
    requires Inv(job, b) && Resolvable(job, b, spare) && MayPrepare(job, b, k, spare)
    requires deps == Statuses(b.recs, job.cfg.nodes[k].dependencies) && WasRead(job.canRead, Some(inputs))
    requires r == Prepared(b.recs[k], inputs, deps, readyAt, claim)
    ensures k in b.recs && k in job.cfg.nodes && !b.recs[k].uncertain
    ensures b.recs[k].status.Pending? || b.recs[k].status.Failed? || b.recs[k].status.TimedOut?
    ensures r.nodeId == k && !r.uncertain
    ensures Inv(job, Put(b, r)) && Resolvable(job, Put(b, r), spare)
  {
    hide Inv, Resolvable, Put, Statuses;
    Basics(job, b, k);
    if Retryable(job.cfg.nodes[k], b.recs[k]) {
      RetryableDecided(job, b, k);
      RetryKeeps(job, b, k, inputs, readyAt, claim);
    } else {
      PrepareKeeps(job, b, k, inputs, readyAt, claim);
    }
    ResolvableKept(job, b, r, spare, spare);
  }

  // ----- When it skips one -----

  ghost predicate MayCancel(job: Job, b: Board, k: NodeId) {
    k in b.recs && k in job.cfg.nodes && k !in b.active && (b.recs[k].status.Pending? || b.recs[k].status.Ready?)
  }

  lemma CancelOnBoard(
    job: Job, b: Board, k: NodeId, deps: map<NodeId, Status>, spare: set<NodeId>, now: real, r: NodeRecord
  )
    requires Inv(job, b) && Resolvable(job, b, spare) && MayCancel(job, b, k)
    requires r == Skipped(b.recs[k], Cancelled, deps, None, None, now)
    ensures r.nodeId == k && !r.uncertain && !b.recs[k].uncertain
    ensures b.recs[k].status.Pending? || b.recs[k].status.Ready?
    ensures Inv(job, Put(b, r)) && Resolvable(job, Put(b, r), spare)
  {
    hide Inv, Resolvable, Put;
    Basics(job, b, k);
    CancelKeeps(job, b, k, deps, now);
    ResolvableKept(job, b, r, spare, spare);
  }

  ghost predicate MaySkip(job: Job, b: Board, k: NodeId, status: Status) {
    && k in b.recs && k in job.cfg.nodes && Decidable(job, b, k)
    && (status.Blocked? || status.SkippedCondition?) && VerdictOf(job, b.recs, k) == Skips(status)
  }

  lemma MaySkipStable(job: Job, b: Board, b': Board, k: NodeId, status: Status)
    requires Undisturbed(b, b') && Inv(job, b) && MaySkip(job, b, k, status)
    ensures k in b.recs && k in b'.recs && k in job.cfg.nodes && b'.recs[k] == b.recs[k]
    ensures b.recs[k].status.Pending? && MaySkip(job, b', k, status)
    ensures Statuses(b'.recs, job.cfg.nodes[k].dependencies) == Statuses(b.recs, job.cfg.nodes[k].dependencies)
  {
    UndisturbedViews(job, b, b', k);
  }

  lemma SkipOnBoard(
    job: Job, b: Board, k: NodeId, status: Status, deps: map<NodeId, Status>, spare: set<NodeId>, now: real,
    r: NodeRecord
  )
    requires Inv(job, b) && Resolvable(job, b, spare) && MaySkip(job, b, k, status)
    requires deps == Statuses(b.recs, job.cfg.nodes[k].dependencies)
    requires r == Skipped(b.recs[k], status, deps, None, None, now)
    ensures r.nodeId == k && !r.uncertain && !b.recs[k].uncertain
    ensures Inv(job, Put(b, r)) && Resolvable(job, Put(b, r), spare)
  {
    hide Inv, Resolvable, Put, Statuses;
    Basics(job, b, k);
    SkipKeeps(job, b, k, status, now);
    ResolvableKept(job, b, r, spare, spare);
  }

  // ----- When it reuses a prior success -----

  ghost predicate MayReuse(job: Job, b: Board, k: NodeId, resolved: Json, contents: Json, inputs: Fingerprint) {
    && k in b.recs && k in job.cfg.nodes && Decidable(job, b, k)
    && ParametersOf(job, k, 1, b.recs) == Some(resolved)
    && inputs == InputFingerprint(job.cfg, job.cfg.nodes[k], resolved, contents, b.recs)
    && WasRead(job.canRead, Some(inputs)) && VerdictOf(job, b.recs, k) == Fires
    && CanReuse(Prior(job, k), job.cfg, job.cfg.nodes[k], job.businessKey, inputs, true, b.invalid)
  }

  lemma MayReuseStable(job: Job, b: Board, b': Board, k: NodeId, resolved: Json, contents: Json, inputs: Fingerprint)
    requires Inv(job, b) && MayReuse(job, b, k, resolved, contents, inputs) && Undisturbed(b, b')
    ensures k in b.recs && k in b'.recs && k in job.cfg.nodes && b'.recs[k] == b.recs[k]
    ensures MayReuse(job, b', k, resolved, contents, inputs)
    ensures Statuses(b'.recs, job.cfg.nodes[k].dependencies) == Statuses(b.recs, job.cfg.nodes[k].dependencies)
    ensures b.recs[k].status.Pending? && k in job.previous && Success(job.previous[k].status)
  {
    hide Inv, CanReuse, Resolve;
    UndisturbedViews(job, b, b', k);
    ReusePriorSucceeded(job, b, k, inputs);
  }

  lemma ReusePriorSucceeded(job: Job, b: Board, k: NodeId, inputs: Fingerprint)
    requires k in job.cfg.nodes
    requires CanReuse(Prior(job, k), job.cfg, job.cfg.nodes[k], job.businessKey, inputs, true, b.invalid)
    ensures k in job.previous && Success(job.previous[k].status)
  {
  }

  lemma ReuseOnBoard(
    job: Job, b: Board, k: NodeId, resolved: Json, contents: Json, inputs: Fingerprint, deps: map<NodeId, Status>,
    parentConfig: Config, spare: set<NodeId>, now: real, r: NodeRecord
  )
    requires ValidJob(job) && ParentSound(job, parentConfig)
    requires MayReuse(job, b, k, resolved, contents, inputs)
    requires Inv(job, b) && Resolvable(job, b, spare) && k in job.previous
    requires deps == Statuses(b.recs, job.cfg.nodes[k].dependencies)
    requires r == Skipped(b.recs[k], SkippedAlreadySatisfied, deps, Some(job.previous[k]), Some(inputs), now)
    ensures r.nodeId == k && !r.uncertain && !b.recs[k].uncertain && r.outputs == job.previous[k].outputs
              && r.checkpoint == job.previous[k].checkpoint
    ensures Inv(job, Put(b, r)) && Resolvable(job, Put(b, r), spare)
  {
    hide Inv, Resolvable, Put, Statuses, UpstreamOf, DependencyProofs, ParentSound, Resolve, CanReuse, ValidJob,
         Final, InputFingerprint, ParametersOf;
    NodeIdIs(job, k);
    Basics(job, b, k);
    NodeHolds(job, b, k);
    ReuseKeeps(job, b, k, resolved, contents, inputs, parentConfig, true, now);
    assert r == ReuseRecord(job, b, k, inputs, now);
    ResolvableKept(job, b, r, spare, spare);
  }

  // ----- When planning fails -----

  /** Views of final dependencies survive a change of the node's own record. */
  lemma ChangedViews(job: Job, b: Board, b': Board, k: NodeId, r: NodeRecord)
    requires Inv(job, b) && k in b.recs && k !in b.active && !Final(job, b, k) && ChangedAt(b, b', k, r)
    requires forall d | d in job.cfg.nodes[k].dependencies :: Final(job, b, d)
    ensures Statuses(b'.recs, job.cfg.nodes[k].dependencies) == Statuses(b.recs, job.cfg.nodes[k].dependencies)
    ensures UpstreamOf(b'.recs, job.cfg.nodes[k].dependencies) == UpstreamOf(b.recs, job.cfg.nodes[k].dependencies)
  {
    forall d | d in job.cfg.nodes[k].dependencies ensures b'.recs[d] == b.recs[d] {
      assert Final(job, b, d);
    }
    SameViews(b.recs, b'.recs, job.cfg.nodes[k].dependencies);
  }

  function PlanningFailed(error: Failure): Result {
    Result(Failed, map[], None, Some(error), NoCounts, false, true)
  }

  lemma FailureOnBoard(
    job: Job, b: Board, k: NodeId, error: Failure, late: bool, now: real, spare: set<NodeId>, r: NodeRecord
  )
    requires Inv(job, b) && Resolvable(job, b, spare + {k}) && k in b.recs && k !in b.active && b.recs[k].status.Ready?
    requires error.retryable ==>
               OutputsPresent(job.cfg.nodes[k].parameters, UpstreamOf(b.recs, job.cfg.nodes[k].dependencies))
    requires r == Finished(b.recs[k], PlanningFailed(error), late, now)
    ensures r.nodeId == k && r.status.Failed? && !r.uncertain && !b.recs[k].uncertain && r.attempt == b.recs[k].attempt
              && r.error == Some(error)
    ensures Inv(job, Put(b, r)) && Resolvable(job, Put(b, r), spare)
  {
    hide Inv, Resolvable, Put;
    Basics(job, b, k);
    ReadyDecided(job, b, k);
    PlanningFailureKeeps(job, b, k, PlanningFailed(error), late, now);
    ResolvableKept(job, b, r, spare + {k}, spare);
  }

  lemma ReadyDecided(job: Job, b: Board, k: NodeId)
    requires Inv(job, b) && k in b.recs && b.recs[k].status.Ready?
    ensures k in job.cfg.nodes && b.recs[k].claim.Some? && b.recs[k].inputs.Some?
    ensures forall d | d in job.cfg.nodes[k].dependencies :: Final(job, b, d)
    ensures b.recs[k].dependencyStatus == Statuses(b.recs, job.cfg.nodes[k].dependencies)
  {
    assert NodeInv(job, b, k);
  }

  // ----- The measure falls -----

  lemma SumDrops(job: Job, b: Board, b': Board, k: NodeId, r: NodeRecord)
    requires Inv(job, b) && ChangedAt(b, b', k, r) && k in job.plan && k in b.recs && k in job.cfg.nodes
    requires b'.recs.Keys == b.recs.Keys && r.nodeId == k
    requires Weight(job.cfg.nodes[k], r, b.active) < Weight(job.cfg.nodes[k], b.recs[k], b.active)
    ensures Sum(job.cfg.nodes, job.plan, b') < Sum(job.cfg.nodes, job.plan, b)
  {
    forall j | j in job.plan ensures WeightOf(job.cfg.nodes, b', j) <= WeightOf(job.cfg.nodes, b, j) {
      if j in b.recs && j in job.cfg.nodes {
        Basics(job, b, j);
      }
    }
    SumMonotone(job.cfg.nodes, job.plan, b, b');
  }

  /** Any record that leaves PENDING, or READY for CANCELLED, weighs less. */
  lemma LeavingWeighsLess(node: NodeDef, r: NodeRecord, r': NodeRecord, active: map<NodeId, Context>)
    requires r.nodeId !in active && r'.nodeId == r.nodeId && Shape(node, r)
    requires r.status.Pending? || (r.status.Ready? && r'.status.Cancelled?)
    requires r'.attempt == r.attempt || r'.attempt == r.attempt + 1
    requires !r'.status.Pending? && (r'.status.Ready? ==> r'.attempt == r.attempt + 1)
    ensures Weight(node, r', active) < Weight(node, r, active)
  {
  }

  // ----- What planning sees -----

  /** Every record that is not in flight has a confirmed outcome. */
  ghost predicate Certain(records: Records, active: map<NodeId, Context>) {
    forall k | k in records && k !in active :: !records[k].uncertain
  }

  /** The guard of the planning loop: no dependency is in flight, unfinished, or about to be retried. */
  predicate DependenciesSettled(cfg: Config, records: Records, active: map<NodeId, Context>, node: NodeDef) {
    forall d | d in node.dependencies ::
      && d !in active && d in records && d in cfg.nodes
      && Terminal(records[d].status)
      && !Retryable(cfg.nodes[d], records[d])
  }

  lemma LocalViews(job: Job, b: Board, records: Records, k: NodeId)
    requires Inv(job, b) && Agrees(records, b) && Certain(records, b.active)
    requires k in job.cfg.nodes && k in records && k !in b.active
    requires DependenciesSettled(job.cfg, records, b.active, job.cfg.nodes[k])
    ensures k in b.recs && b.recs[k] == records[k]
    ensures forall d | d in job.cfg.nodes[k].dependencies :: Final(job, b, d)
    ensures records[k].status.Pending? ==> Decidable(job, b, k)
    ensures Statuses(records, job.cfg.nodes[k].dependencies) == Statuses(b.recs, job.cfg.nodes[k].dependencies)
    ensures UpstreamOf(records, job.cfg.nodes[k].dependencies) == UpstreamOf(b.recs, job.cfg.nodes[k].dependencies)
    ensures DependencyProofs(records, job.cfg.nodes[k].dependencies)
         == DependencyProofs(b.recs, job.cfg.nodes[k].dependencies)
    ensures Covered(job.cfg.nodes[k].dependencies, Statuses(records, job.cfg.nodes[k].dependencies))
  {
    forall d | d in job.cfg.nodes[k].dependencies ensures Final(job, b, d) && records[d] == b.recs[d] {
      assert d in b.recs;
    }
    SameViews(b.recs, records, job.cfg.nodes[k].dependencies);
  }

  /** Reference soundness on a run: the parameters of an `all_success` node that fires resolve, because
      its dependencies' success-class records hold exactly their expected outputs. */
  lemma AllSuccessResolves(job: Job, b: Board, k: NodeId, attempt: nat)
    requires ValidJob(job) && Inv(job, b) && k in job.cfg.nodes && job.cfg.nodes[k].trigger.AllSuccess?
    requires forall d | d in job.cfg.nodes[k].dependencies :: Final(job, b, d)
    requires var deps := job.cfg.nodes[k].dependencies; Matches(AllSuccess, deps, Statuses(b.recs, deps))
    ensures ParametersOf(job, k, attempt, b.recs).Some?
  {
    hide Inv, Resolve, Accepts, OutputsPresent;
    var node := job.cfg.nodes[k];
    assert ValidNode(job.cfg, k);
    var upstream := UpstreamOf(b.recs, node.dependencies);
    forall d | d in node.dependencies && d in job.cfg.nodes
      ensures d in upstream && job.cfg.nodes[d].expectedOutputs <= upstream[d].Keys
    {
      assert Final(job, b, d);
      assert d in Statuses(b.recs, node.dependencies);
      NodeHolds(job, b, d);
    }
    AcceptedResolves(node.parameters, job.cfg, node, RuntimeOf(job, k, attempt), upstream);
  }

  lemma SameParameters(job: Job, k: NodeId, attempt: nat, recs: Records, recs': Records)
    requires k in job.cfg.nodes
    requires UpstreamOf(recs, job.cfg.nodes[k].dependencies) == UpstreamOf(recs', job.cfg.nodes[k].dependencies)
    ensures ParametersOf(job, k, attempt, recs) == ParametersOf(job, k, attempt, recs')
  {
  }

  /** Why planning fails: the parameters do not resolve; their sources cannot be read; or, with the contents
      that were read, a reusable output cannot be checked, or repeating the node is refused. */
  datatype Cause = Unresolved | Unreadable | Unchecked(contents: Json) | Forbidden(contents: Json)

  /** What the guarded part of planning decides for a node that fits. */
  datatype Plan =
    | Skipping(status: Status)
    | Reusing(resolved: Json, contents: Json, inputs: Fingerprint)
    | Failing(error: Failure, cause: Cause)
    | Executing(inputs: Fingerprint)
    | Crashing

  /** The guard of the planning loop, but for the budget. */
  predicate Plannable(job: Job, records: Records, active: map<NodeId, Context>, k: NodeId)
    requires k in job.cfg.nodes && k in records
  {
    && k !in active && records[k].status.Pending?
    && DependenciesSettled(job.cfg, records, active, job.cfg.nodes[k])
  }

  ghost predicate PlanHolds(job: Job, b: Board, k: NodeId, plan: Plan)
    requires k in job.cfg.nodes
  {
    var node := job.cfg.nodes[k];
    match plan
    case Skipping(status) => MaySkip(job, b, k, status) && VerdictOf(job, b.recs, k) == Skips(status)
    case Reusing(resolved, contents, inputs) =>
      MayReuse(job, b, k, resolved, contents, inputs) && VerdictOf(job, b.recs, k) == Fires
    case Failing(error, _) =>
      && VerdictOf(job, b.recs, k) == Fires
      && (error.retryable ==> OutputsPresent(node.parameters, UpstreamOf(b.recs, node.dependencies)))
    case Executing(inputs) =>
      && VerdictOf(job, b.recs, k) == Fires
      && OutputsPresent(node.parameters, UpstreamOf(b.recs, node.dependencies))
      && inputs.Inputs? && ParametersOf(job, k, 1, b.recs) == Some(inputs.resolved)
      && inputs == InputFingerprint(job.cfg, node, inputs.resolved, inputs.contents, b.recs)
      && WasRead(job.canRead, Some(inputs))
    case Crashing => VerdictOf(job, b.recs, k) == Raises && RaisesOn(job.cfg, node)
  }

  /** The record that carrying out a decision leaves. */
  predicate Carried(plan: Plan, r: NodeRecord) {
    match plan
    case Skipping(status) => r.status == status
    case Reusing(_, _, inputs) => r.status.SkippedAlreadySatisfied? && r.inputs == Some(inputs)
    case Failing(error, _) => r.status.Failed? && r.error == Some(error)
    case Executing(inputs) => r.status.Ready? && r.inputs == Some(inputs)
    case Crashing => false
  }

  /** A planned record follows the verdict of its trigger and condition. */
  ghost predicate Follows(job: Job, recs: Records, k: NodeId, r: NodeRecord)
    requires k in job.cfg.nodes
  {
    match VerdictOf(job, recs, k)
    case Skips(status) => r.status == status
    case Fires => r.status.Ready? || r.status.Failed? || r.status.SkippedAlreadySatisfied?
    case Raises => false
  }

  lemma CarriedFollows(job: Job, b: Board, records: Records, k: NodeId, plan: Plan, r: NodeRecord)
    requires Inv(job, b) && Agrees(records, b) && Certain(records, b.active)
    requires k in job.cfg.nodes && k in records && Plannable(job, records, b.active, k)
    requires PlanHolds(job, b, k, plan) && Carried(plan, r)
    ensures Follows(job, records, k, r)
  {
    hide Inv, Agrees, Certain, Statuses, UpstreamOf, DependencyProofs, MaySkip, MayReuse, OutputsPresent, Resolve,
         TriggerStatus, Prerequisite;
    LocalViews(job, b, records, k);
  }

  /** Repeating a node in a recovery run: it must be eligible, and approved when repeating it is unsafe. */
  predicate Permitted(job: Job, attempted: set<NodeId>, approved: set<NodeId>, k: NodeId)
    requires k in job.cfg.nodes
  {
    var node := job.cfg.nodes[k];
    job.mode.Normal? || k !in attempted || (node.eligible && (Safe(node.strategy) || k in approved))
  }

  /** The companion of a compensated node has its outputs in the parent run. */
  predicate Compensated(job: Job, node: NodeDef) {
    && node.compensationNode in job.previous && node.compensationNode in job.cfg.nodes
    && Success(job.previous[node.compensationNode].status)
    && job.previous[node.compensationNode].outputs.Keys == job.cfg.nodes[node.compensationNode].expectedOutputs
  }

  // ----- The grounds of a decision, in what the world answered from tick `m` to tick `n` -----

  ghost predicate ReadAs(w: World, m: nat, n: nat, resolved: Json, answer: Outcome<Json>) {
    exists i: nat | m <= i < n :: w.read(i, resolved) == answer
  }

  ghost predicate Checked(w: World, m: nat, n: nat, outputs: map<string, Reference>, answer: Outcome<bool>) {
    exists i: nat | m <= i < n :: w.valid(i, outputs) == answer
  }

  /** The node may be repeated; a compensated one also needs its companion's success in the parent run, found valid. */
  ghost predicate Allowed(
    w: World, m: nat, n: nat, job: Job, attempted: set<NodeId>, approved: set<NodeId>, k: NodeId
  )
    requires k in job.cfg.nodes
  {
    var node := job.cfg.nodes[k];
    && Permitted(job, attempted, approved, k)
    && (!job.mode.Normal? && k in attempted && node.strategy.Compensation? ==>
          Compensated(job, node) && Checked(w, m, n, job.previous[node.compensationNode].outputs, Ok(true)))
  }

  /** Why repeating it was refused. */
  ghost predicate RefusedFor(
    w: World, m: nat, n: nat, job: Job, attempted: set<NodeId>, approved: set<NodeId>, k: NodeId, error: Failure
  )
    requires k in job.cfg.nodes
  {
    var node := job.cfg.nodes[k];
    && !job.mode.Normal? && k in attempted
    && if !node.eligible then error == Workflow("RESTART_NOT_ELIGIBLE")
       else
         && !Safe(node.strategy)
         && if k !in approved then error == Workflow("APPROVAL_REQUIRED")
            else
              && node.strategy.Compensation?
              && if !Compensated(job, node) then error == Workflow("COMPENSATION_REQUIRED")
                 else
                   var outputs := job.previous[node.compensationNode].outputs;
                   || (error == Workflow("COMPENSATION_REQUIRED") && Checked(w, m, n, outputs, Ok(false)))
                   || Checked(w, m, n, outputs, Err(error))
  }

  /** The prior result meets the reuse rule for these inputs. */
  predicate Reusable(job: Job, b: Board, k: NodeId, inputs: Fingerprint)
    requires k in job.cfg.nodes
  {
    CanReuse(Prior(job, k), job.cfg, job.cfg.nodes[k], job.businessKey, inputs, true, b.invalid)
  }

  /** It does not, or its artifacts were found invalid. */
  ghost predicate NotReused(w: World, m: nat, n: nat, job: Job, b: Board, k: NodeId, inputs: Fingerprint)
    requires k in job.cfg.nodes
  {
    Reusable(job, b, k, inputs) ==> k in job.previous && Checked(w, m, n, job.previous[k].outputs, Ok(false))
  }

  /** Every decision is due to what the world answered: execution means that the node may run and has no
      reusable result; reuse, that its artifacts were found valid; failure, one of four causes. */
  ghost predicate Grounded(
    w: World, m: nat, n: nat, job: Job, b: Board, attempted: set<NodeId>, approved: set<NodeId>, k: NodeId, plan: Plan
  )
    requires k in job.cfg.nodes
  {
    match plan
    case Executing(inputs) =>
      && inputs.Inputs? && ReadAs(w, m, n, inputs.resolved, Ok(inputs.contents))
      && NotReused(w, m, n, job, b, k, inputs) && Allowed(w, m, n, job, attempted, approved, k)
    case Reusing(resolved, contents, _) =>
      && ReadAs(w, m, n, resolved, Ok(contents))
      && k in job.previous && Checked(w, m, n, job.previous[k].outputs, Ok(true))
    case Failing(error, cause) =>
      FailsFor(w, m, n, job, b, attempted, approved, k, error, cause, ParametersOf(job, k, 1, b.recs))
    case _ => true
  }

  ghost predicate FailsFor(
    w: World, m: nat, n: nat, job: Job, b: Board, attempted: set<NodeId>, approved: set<NodeId>, k: NodeId,
    error: Failure, cause: Cause, resolved: Option<Json>
  )
    requires k in job.cfg.nodes
  {
    var node := job.cfg.nodes[k];
    match cause
    case Unresolved => resolved.None? && !node.trigger.AllSuccess? && error == Workflow("INVALID_REFERENCE")
    case Unreadable => resolved.Some? && ReadAs(w, m, n, resolved.value, Err(error))
    case Unchecked(contents) =>
      && resolved.Some? && ReadAs(w, m, n, resolved.value, Ok(contents))
      && Reusable(job, b, k, InputFingerprint(job.cfg, node, resolved.value, contents, b.recs))
      && k in job.previous && Checked(w, m, n, job.previous[k].outputs, Err(error))
    case Forbidden(contents) =>
      && resolved.Some? && ReadAs(w, m, n, resolved.value, Ok(contents))
      && NotReused(w, m, n, job, b, k, InputFingerprint(job.cfg, node, resolved.value, contents, b.recs))
      && RefusedFor(w, m, n, job, attempted, approved, k, error)
  }

  /** A planned record and the decision that it carries out. */
  ghost predicate Explained(
    w: World, m: nat, n: nat, job: Job, b: Board, attempted: set<NodeId>, approved: set<NodeId>, k: NodeId,
    r: NodeRecord
  )
    requires k in job.cfg.nodes
  {
    exists plan ::
      Carried(plan, r) && PlanHolds(job, b, k, plan) && Grounded(w, m, n, job, b, attempted, approved, k, plan)
  }

  /** Minimal rebuild: when a node that fires is planned, its sources read the same and its prior artifacts
      valid throughout, and its prior result meets the reuse rule, then the node is reused. */
  lemma MinimalRebuild(
    w: World, m: nat, n: nat, job: Job, b: Board, attempted: set<NodeId>, approved: set<NodeId>, k: NodeId,
    r: NodeRecord, resolved: Json, contents: Json
  )
    requires k in job.cfg.nodes && Explained(w, m, n, job, b, attempted, approved, k, r)
    requires VerdictOf(job, b.recs, k) == Fires && ParametersOf(job, k, 1, b.recs) == Some(resolved)
    requires Reusable(job, b, k, InputFingerprint(job.cfg, job.cfg.nodes[k], resolved, contents, b.recs))
    requires forall i | m <= i < n :: w.read(i, resolved) == Ok(contents)
    requires k in job.previous && forall i | m <= i < n :: w.valid(i, job.previous[k].outputs) == Ok(true)
    ensures r.status.SkippedAlreadySatisfied?
  {
    hide CanReuse, Resolve, TriggerStatus, Prerequisite, OutputsPresent, MayReuse, MaySkip, VerdictOf, ParametersOf,
         Allowed, RefusedFor;
    var plan :| Carried(plan, r) && PlanHolds(job, b, k, plan)
                && Grounded(w, m, n, job, b, attempted, approved, k, plan);
  }

  /** More answers are still answers. */
  lemma WiderGrounds(
    w: World, m: nat, n: nat, m': nat, n': nat, job: Job, attempted: set<NodeId>, approved: set<NodeId>, k: NodeId
  )
    requires m' <= m && n <= n' && k in job.cfg.nodes
    ensures Allowed(w, m, n, job, attempted, approved, k) ==> Allowed(w, m', n', job, attempted, approved, k)
    ensures forall error :: RefusedFor(w, m, n, job, attempted, approved, k, error) ==>
                              RefusedFor(w, m', n', job, attempted, approved, k, error)
  {
  }

  /** The condition of an accepted node that raises whenever its trigger fires. */
  predicate RaisesOn(cfg: Config, node: NodeDef) {
    node.condition.Some? && IsReference(node.parameters) && !SelfNamed(node.parameters, cfg.data)
  }

  /** Once the parameters resolve, `trigger_status` raises exactly on such a node. */
  lemma ConditionRaises(job: Job, k: NodeId, resolved: Json, records: Records, states: map<NodeId, Status>)
    requires ValidJob(job) && k in job.cfg.nodes && ParametersOf(job, k, 1, records) == Some(resolved)
    requires Covered(job.cfg.nodes[k].dependencies, states)
    ensures TriggerStatus(job.cfg.nodes[k], states, resolved).Raises? <==>
            Prerequisite(job.cfg.nodes[k], states) == Fires && RaisesOn(job.cfg, job.cfg.nodes[k])
  {
    hide Resolve, Accepts, SelfNamed, Matches;
    var node := job.cfg.nodes[k];
    assert ValidNode(job.cfg, k);
    if node.condition.Some? {
      ConditionRaisesExactly(node.parameters, job.cfg, node, RuntimeOf(job, k, 1),
          UpstreamOf(records, node.dependencies),
                             node.condition.value.parameter);
    }
  }

  // ----- One iteration's local state -----

  datatype Advance = Stayed | Moved | Crashed

  /** Every reservation is a node in flight, or a READY node about to be dispatched. */
  ghost predicate Booked(records: Records, active: map<NodeId, Context>, reserved: set<NodeId>) {
    && active.Keys <= reserved
    && forall j | j in reserved && j !in active :: j in records && records[j].status.Ready?
  }

  /** The only fault of a validated configuration that can abort a run: a condition on parameters that
      are one reference object. */
  ghost predicate CrashProne(cfg: Config) {
    exists k | k in cfg.nodes :: RaisesOn(cfg, cfg.nodes[k])
  }

  lemma RecordChange(b: Board, b': Board, records: Records, k: NodeId, r: NodeRecord)
    requires Agrees(records, b) && Certain(records, b.active) && ChangedAt(b, b', k, r) && k in b.recs && !r.uncertain
    ensures Agrees(records[k := r], b') && Certain(records[k := r], b'.active)
  {
  }

  /** Planning moves a PENDING node; the measure falls. */
  lemma PlannedDrops(job: Job, b: Board, b': Board, k: NodeId, r: NodeRecord)
    requires Inv(job, b) && ChangedAt(b, b', k, r) && k in job.plan && k in job.cfg.nodes && k !in b.active
    requires k in b.recs && b.recs[k].status.Pending? && r.nodeId == k && !r.status.Pending?
    requires r.attempt == b.recs[k].attempt || r.attempt == b.recs[k].attempt + 1
    requires r.status.Ready? ==> r.attempt == b.recs[k].attempt + 1
    ensures Sum(job.cfg.nodes, job.plan, b') < Sum(job.cfg.nodes, job.plan, b)
  {
    Basics(job, b, k);
    LeavingWeighsLess(job.cfg.nodes[k], b.recs[k], r, b.active);
    SumDrops(job, b, b', k, r);
  }

  /** Nothing that planning looks at depends on `invalid`, but reuse. */
  lemma SameButInvalid(job: Job, b: Board, invalid: set<NodeId>, records: Records)
    ensures var b' := b.(invalid := invalid);
            && Sum(job.cfg.nodes, job.plan, b') == Sum(job.cfg.nodes, job.plan, b)
            && (Agrees(records, b) ==> Agrees(records, b'))
            && (Resolvable(job, b, {}) ==> Resolvable(job, b', {}))
  {
    var b' := b.(invalid := invalid);
    if Resolvable(job, b, {}) {
      forall j | j in b'.recs && j in job.cfg.nodes ensures ResolvableAt(job, b', j) {
        assert ResolvableAt(job, b, j);
      }
    }
    SumMonotone(job.cfg.nodes, job.plan, b, b.(invalid := invalid));
    SumMonotone(job.cfg.nodes, job.plan, b.(invalid := invalid), b);
  }

  lemma MayPrepareFirst(job: Job, b: Board, k: NodeId, spare: set<NodeId>)
    requires k in job.cfg.nodes && Decidable(job, b, k) && k in b.invalid && VerdictOf(job, b.recs, k) == Fires
    requires OutputsPresent(job.cfg.nodes[k].parameters, UpstreamOf(b.recs, job.cfg.nodes[k].dependencies))
    ensures MayPrepare(job, b, k, spare)
  {
  }

  // ----- Planning a node -----

  lemma PrerequisiteSkips(job: Job, b: Board, records: Records, k: NodeId, states: map<NodeId, Status>)
    requires Inv(job, b) && Agrees(records, b) && Certain(records, b.active)
    requires k in job.cfg.nodes && k in records && Plannable(job, records, b.active, k)
    requires states == Statuses(records, job.cfg.nodes[k].dependencies)
    ensures Covered(job.cfg.nodes[k].dependencies, states)
    ensures var verdict := Prerequisite(job.cfg.nodes[k], states);
            verdict.Skips? ==> MaySkip(job, b, k, verdict.status) && VerdictOf(job, b.recs, k) == verdict
  {
    LocalViews(job, b, records, k);
  }

  // ----- Retrying -----

  function Power(base: real, n: nat): real {
    if n == 0 then 1.0 else base * Power(base, n - 1)
  }

  /** The delay before the attempt after `attempt`, with exponential backoff up to a ceiling. */
  function Backoff(retry: Retry, attempt: nat): real
    requires attempt >= 1
  {
    var wait := retry.delay * Power(retry.backoff, attempt - 1);
    if wait < retry.maxDelay then wait else retry.maxDelay
  }

  predicate Retried(job: Job, active: map<NodeId, Context>, k: NodeId, r: NodeRecord, r': NodeRecord)
    requires k in job.cfg.nodes
  {
    && k !in active && Retryable(job.cfg.nodes[k], r)
    && r'.status.Ready? && r'.attempt == r.attempt + 1
  }

  /** A retryable record of the snapshot: its parameters still resolve, and it may be prepared. */
  lemma RetryViews(job: Job, b: Board, records: Records, k: NodeId)
    requires ValidJob(job) && Inv(job, b) && Resolvable(job, b, {}) && Agrees(records, b)
    requires k in job.cfg.nodes && k in records && k !in b.active && Retryable(job.cfg.nodes[k], records[k])
    ensures k in b.recs && b.recs[k] == records[k] && records[k].attempt >= 1
    ensures records[k].inputs.Some? && WasRead(job.canRead, records[k].inputs)
    ensures MayPrepare(job, b, k, {})
    ensures Statuses(records, job.cfg.nodes[k].dependencies) == Statuses(b.recs, job.cfg.nodes[k].dependencies)
    ensures ParametersOf(job, k, records[k].attempt + 1, records).Some?
  {
    hide Inv, ValidJob, Statuses, UpstreamOf, OutputsPresent, ParametersOf;
    Basics(job, b, k);
    NodeHolds(job, b, k);
    RetryableDecided(job, b, k);
    FinalViews(job, b, records, k);
    assert ResolvableAt(job, b, k);
    ParametersResolve(job, k, records[k].attempt + 1, records);
  }

  lemma FinalViews(job: Job, b: Board, records: Records, k: NodeId)
    requires Agrees(records, b) && k in job.cfg.nodes
    requires forall d | d in job.cfg.nodes[k].dependencies :: Final(job, b, d)
    ensures Statuses(records, job.cfg.nodes[k].dependencies) == Statuses(b.recs, job.cfg.nodes[k].dependencies)
    ensures UpstreamOf(records, job.cfg.nodes[k].dependencies) == UpstreamOf(b.recs, job.cfg.nodes[k].dependencies)
  {
    forall d | d in job.cfg.nodes[k].dependencies ensures d in records && d in b.recs && records[d] == b.recs[d] {
      assert Final(job, b, d);
    }
    SameViews(b.recs, records, job.cfg.nodes[k].dependencies);
  }

  lemma RetryDrops(job: Job, b: Board, b': Board, k: NodeId, r: NodeRecord)
    requires Inv(job, b) && ChangedAt(b, b', k, r) && k in job.plan && k in job.cfg.nodes && k !in b.active
    requires k in b.recs && Retryable(job.cfg.nodes[k], b.recs[k]) && r.nodeId == k && r.status.Ready?
    requires r.attempt == b.recs[k].attempt + 1
    ensures Sum(job.cfg.nodes, job.plan, b') < Sum(job.cfg.nodes, job.plan, b)
  {
    Basics(job, b, k);
    SumDrops(job, b, b', k, r);
  }

  // ----- Cancelling -----

  predicate Undispatched(records: Records, active: map<NodeId, Context>, k: NodeId)
    requires k in records
  {
    k !in active && (records[k].status.Pending? || records[k].status.Ready?)
  }

  /** The nodes that a fail-fast failure cancels. */
  predicate SuccessPath(node: NodeDef) {
    node.trigger.AllSuccess? || node.trigger.AnySuccess?
  }

  lemma CancelViews(job: Job, b: Board, records: Records, k: NodeId)
    requires Inv(job, b) && Agrees(records, b) && k in records && Undispatched(records, b.active, k)
    ensures k in b.recs && b.recs[k] == records[k] && MayCancel(job, b, k)
  {
    Basics(job, b, k);
  }

  lemma CancelDrops(job: Job, b: Board, b': Board, k: NodeId, r: NodeRecord)
    requires Inv(job, b) && ChangedAt(b, b', k, r) && k in job.plan && MayCancel(job, b, k)
    requires r.nodeId == k && r.status.Cancelled? && r.attempt == b.recs[k].attempt
    ensures Sum(job.cfg.nodes, job.plan, b') < Sum(job.cfg.nodes, job.plan, b)
  {
    Basics(job, b, k);
    LeavingWeighsLess(job.cfg.nodes[k], b.recs[k], r, b.active);
    SumDrops(job, b, b', k, r);
  }

  /** `fail_fast` has been triggered by a critical node that went bad for good. */
  predicate FailingFast(job: Job, records: Records, active: map<NodeId, Context>) {
    && job.cfg.failFast
    && exists k | k in records && k in job.cfg.nodes && k !in active ::
         records[k].critical && Bad(records[k].status) && !Retryable(job.cfg.nodes[k], records[k])
  }

  // ----- Nothing left to do is not a stall -----

  /** What an iteration that changed nothing has seen. */
  ghost predicate Idle(job: Job, records: Records, active: map<NodeId, Context>, budget: Budget)
    reads budget
  {
    && (NoRetries(job, records, active) || NoneUndispatched(records, active))
    && (forall k | k in job.plan && k in records && k in job.cfg.nodes ::
          !(Plannable(job, records, active, k) && budget.Fits(job.cfg.nodes[k])))
    && (active == map[] && (forall k | k in records :: !records[k].status.Ready?) ==> budget.reserved == {})
  }

  ghost predicate NoRetries(job: Job, records: Records, active: map<NodeId, Context>) {
    forall k | k in records && k in job.cfg.nodes :: k in active || !Retryable(job.cfg.nodes[k], records[k])
  }

  ghost predicate NoneUndispatched(records: Records, active: map<NodeId, Context>) {
    forall k | k in records :: !Undispatched(records, active, k)
  }

  /** The first node of the plan that is not finished could have been planned. */
  lemma {:induction false} FirstUnfinished(records: Records, plan: seq<NodeId>) returns (i: nat)
    requires forall k | k in plan :: k in records
    requires exists k | k in plan :: !Terminal(records[k].status)
    ensures i < |plan| && !Terminal(records[plan[i]].status)
    ensures forall j | 0 <= j < i :: Terminal(records[plan[j]].status)
  {
    if Terminal(records[plan[0]].status) {
      assert forall k | k in plan :: k == plan[0] || k in plan[1..];
      var rest := FirstUnfinished(records, plan[1..]);
      i := rest + 1;
      forall j | 0 <= j < i ensures Terminal(records[plan[j]].status) {
        if j > 0 {
          assert plan[j] == plan[1..][j - 1];
        }
      }
    } else {
      i := 0;
    }
  }

  /** The SCHEDULER_STALLED branch is dead: unless every node is finished, an iteration that has nothing
      in flight and nothing READY has moved some node. */
  lemma NeverStalls(job: Job, b: Board, records: Records, budget: Budget)
    requires ValidJob(job) && Inv(job, b) && Agrees(records, b) && b.active == map[]
    requires budget.cfg == job.cfg && budget.plan == job.plan && budget.Valid()
    requires Idle(job, records, map[], budget)
    requires forall k | k in records :: !records[k].status.Ready?
    ensures forall k | k in records :: Terminal(records[k].status)
  {
    if exists k | k in records :: !Terminal(records[k].status) {
      var i := FirstUnfinished(records, job.plan);
      var k := job.plan[i];
      var node := job.cfg.nodes[k];
      Basics(job, b, k);
      assert records[k].status.Pending?;
      assert Undispatched(records, map[], k);
      assert Plannable(job, records, map[], k) by {
        forall d | d in node.dependencies
          ensures d in records && d in job.cfg.nodes && Terminal(records[d].status)
                    && !Retryable(job.cfg.nodes[d], records[d])
        {
          assert d in job.plan[..i];
        }
      }
      assert ValidNode(job.cfg, k);
      budget.EmptyFits(node);
    }
  }

  // ----- Dispatching -----

  ghost predicate Dispatchable(job: Job, b: Board, ctx: Context) {
    && ctx.nodeId in b.recs && ctx.nodeId in job.cfg.nodes && ctx.nodeId !in b.active
    && b.recs[ctx.nodeId].status.Ready?
    && ContextHolds(job, b.recs, ctx.nodeId, b.recs[ctx.nodeId], ctx)
  }

  /** The parameters of a READY node resolve for its dispatch, and its context is exact. */
  lemma ContextViews(job: Job, b: Board, records: Records, k: NodeId)
    requires ValidJob(job) && Inv(job, b) && Resolvable(job, b, {}) && Agrees(records, b)
    requires k in job.cfg.nodes && k in records && k !in b.active && records[k].status.Ready?
    ensures k in b.recs && b.recs[k] == records[k] && records[k].claim.Some? && records[k].inputs.Some?
    ensures ParametersOf(job, k, records[k].attempt, records).Some?
    ensures forall ctx: Context |
              && ctx.runId == job.run && ctx.nodeId == k && ctx.config == job.cfg && ctx.attempt == records[k].attempt
              && ctx.claim == records[k].claim.value && ctx.inputs == records[k].inputs.value
              && ctx.upstream == UpstreamOf(records, job.cfg.nodes[k].dependencies)
              && ctx.dependencyStatus == Statuses(records, job.cfg.nodes[k].dependencies)
              && ctx.parameters == ParametersOf(job, k, records[k].attempt, records).value ::
              Dispatchable(job, b, ctx)
  {
    hide Inv, ValidJob, Statuses, UpstreamOf, OutputsPresent, Resolve;
    ReadyDecided(job, b, k);
    FinalViews(job, b, records, k);
    assert ResolvableAt(job, b, k);
    ParametersResolve(job, k, records[k].attempt, records);
  }

  function Earlier(a: real, b: real): (r: real)
    ensures r <= a && r <= b && (r == a || r == b)
  {
    if a < b then a else b
  }

  function Ids(batch: seq<Context>): set<NodeId> {
    set ctx | ctx in batch :: ctx.nodeId
  }

  lemma IdsGrow(batch: seq<Context>, i: nat)
    requires i <= |batch|
    ensures Ids(batch[..0]) == {} && Ids(batch[..|batch|]) == Ids(batch)
    ensures i < |batch| ==> Ids(batch[..i + 1]) == Ids(batch[..i]) + {batch[i].nodeId}
  {
    assert batch[..|batch|] == batch;
    if i < |batch| {
      assert batch[..i + 1] == batch[..i] + [batch[i]];
    }
  }

  ghost predicate OneEach(batch: seq<Context>) {
    forall i, j | 0 <= i < j < |batch| :: batch[i].nodeId != batch[j].nodeId
  }

  lemma {:induction false} OneEachCounts(batch: seq<Context>)
    requires OneEach(batch)
    ensures |Ids(batch)| == |batch|
  {
    if batch != [] {
      var init, last := batch[..|batch| - 1], batch[|batch| - 1];
      OneEachCounts(init);
      assert Ids(batch) == Ids(init) + {last.nodeId};
      assert last.nodeId !in Ids(init);
    }
  }

  /** Dispatching a READY node, or reaping a finished one, lowers the measure. */
  lemma FlightDrops(job: Job, b: Board, b': Board, k: NodeId)
    requires b'.recs == b.recs && k in b.recs && k in job.plan && k in job.cfg.nodes && b.recs[k].nodeId == k
    requires forall j | j != k :: j in b'.active <==> j in b.active
    requires Inv(job, b)
    requires (k !in b.active && k in b'.active && b.recs[k].status.Ready?)
          || (k in b.active && k !in b'.active && Terminal(b.recs[k].status))
    ensures Sum(job.cfg.nodes, job.plan, b') < Sum(job.cfg.nodes, job.plan, b)
  {
    hide Inv;
    forall j | j in job.plan ensures WeightOf(job.cfg.nodes, b', j) <= WeightOf(job.cfg.nodes, b, j) {
      if j in b.recs && j in job.cfg.nodes {
        Basics(job, b, j);
      }
    }
    SumMonotone(job.cfg.nodes, job.plan, b, b');
  }

  lemma UndisturbedSum(job: Job, b: Board, b': Board)
    requires Inv(job, b) && Undisturbed(b, b')
    ensures Sum(job.cfg.nodes, job.plan, b') == Sum(job.cfg.nodes, job.plan, b)
  {
    forall j | j in job.plan ensures WeightOf(job.cfg.nodes, b', j) == WeightOf(job.cfg.nodes, b, j) {
      if j in b.recs && j in job.cfg.nodes {
        Basics(job, b, j);
      }
    }
    SumMonotone(job.cfg.nodes, job.plan, b, b');
    SumMonotone(job.cfg.nodes, job.plan, b', b);
  }

  lemma SameRecordsResolve(job: Job, b: Board, b': Board)
    requires Resolvable(job, b, {}) && b'.recs == b.recs
    ensures Resolvable(job, b', {})
  {
    forall j | j in b'.recs && j in job.cfg.nodes ensures ResolvableAt(job, b', j) {
      assert ResolvableAt(job, b, j);
    }
  }

  /** How one iteration of the loop ends. */
  datatype Turn = Complete | Unconfirmed | Progress | Waited | Aborted(error: Failure)

  const KEY_ERROR := Failure("KeyError", NonRetryableApplication, false)

  lemma ReapedBoard(job: Job, b: Board, k: NodeId)
    requires Planned(job.cfg.nodes, job.plan) && Inv(job, b) && Resolvable(job, b, {})
    requires k in b.active && k in b.recs && Terminal(b.recs[k].status)
    ensures var b' := b.(active := b.active - {k});
            && Inv(job, b') && Resolvable(job, b', {})
            && Sum(job.cfg.nodes, job.plan, b') < Sum(job.cfg.nodes, job.plan, b)
  {
    hide Inv, Resolvable, Sum;
    Basics(job, b, k);
    ReapKeeps(job, b, k);
    FlightDrops(job, b, b.(active := b.active - {k}), k);
    SameRecordsResolve(job, b, b.(active := b.active - {k}));
  }

  function Submitted(refusal: Option<Failure>): Turn {
    match refusal
    case None => Progress
    case Some(error) => Aborted(error)
  }
}
