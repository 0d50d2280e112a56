/** The scheduling protocol of one run, seen on its durable node records.

    A `Board` is what `_execute_graph` works on: the run's records, the contexts in flight, and the
    set of nodes that may not be reused. Each lemma below is one atomic move of the scheduler or of
    a worker, and says that the move keeps `Inv`. */
module Board {
  import opened Model
  import opened ControlLog
  import opened Parameters
  import opened Descendants
  import opened Triggers

  type Records = map<NodeId, NodeRecord>

  /** What a component commits, as a function of the fingerprinted content of the attempt. */
  type Production = Fingerprint -> map<string, OutputProof>

  /** What contents a run may read from the sources that a resolved parameter tree names. */
  type Reads = (Json, Json) -> bool

  /** A run: its validated configuration and plan, and the records of its parent run. */
  datatype Job = Job(
    cfg: Config,
    plan: seq<NodeId>,
    run: RunId,
    businessKey: string,
    mode: Mode,
    previous: Records,
    produce: Production,
    canRead: Reads)

  datatype Board = Board(recs: Records, active: map<NodeId, Context>, invalid: set<NodeId>)

  // ----- Definitions shared by the scheduler and the workers -----

  function Statuses(recs: Records, deps: seq<NodeId>): map<NodeId, Status> {
    map d | d in deps && d in recs :: recs[d].status
  }

  function UpstreamOf(recs: Records, deps: seq<NodeId>): Upstream {
    map d | d in deps && d in recs :: recs[d].outputs
  }

  /** A reused success counts as a success in a fingerprint. */
  function Normalised(s: Status): Status {
    if Success(s) then Succeeded else s
  }

  function DependencyProofs(recs: Records, deps: seq<NodeId>): map<NodeId, DependencyProof> {
    map d | d in deps && d in recs :: DependencyProof(Normalised(recs[d].status), Proofs(recs[d].outputs))
  }

  function SignatureOf(cfg: Config, node: NodeDef): Signature {
    Signature(cfg.applicationId, cfg.dagId, cfg.environment, cfg.codeFingerprint, cfg.codeVersion, cfg.settings,
              if node.notebook in cfg.definitions then Some(cfg.definitions[node.notebook]) else None,
              node.id, node.notebook, node.parameters, node.expectedOutputs, node.strategy, node.compensationNode,
              node.checkpointName, node.trigger, node.condition)
  }

  /** `input_fingerprint`, given the resolved parameters and the contents of the sources they name. */
  function InputFingerprint(cfg: Config, node: NodeDef, resolved: Json, contents: Json, recs: Records): Fingerprint {
    Inputs(SignatureOf(cfg, node), resolved, contents, DependencyProofs(recs, node.dependencies))
  }

  function RuntimeOf(job: Job, k: NodeId, attempt: nat): map<string, Json> {
    map["business_run_key" := Text(job.businessKey), "run_id" := Number(job.run as real), "node_id" := Text(k),
        "attempt" := Number(attempt as real),
        "restart_mode" := Text(match job.mode case Normal => "normal" case Resume => "resume"
                                              case ForceRestart => "force_restart" case ForceRerun => "force_rerun")]
  }

  function ParametersOf(job: Job, k: NodeId, attempt: nat, recs: Records): Option<Json>
    requires k in job.cfg.nodes
  {
    var node := job.cfg.nodes[k];
    Resolve(node.parameters, job.cfg.data, RuntimeOf(job, k, attempt), UpstreamOf(recs, node.dependencies))
  }

  predicate Retryable(node: NodeDef, r: NodeRecord) {
    && (r.status.Failed? || r.status.TimedOut?)
    && !r.uncertain
    && r.retryable
    && r.error.Some?
    && r.error.value.category in node.retry.categories
    && r.attempt <= node.retry.maxRetries
    && Safe(node.strategy)
    && node.eligible
  }

  predicate CanReuse(
    prior: Option<NodeRecord>, cfg: Config, node: NodeDef, businessKey: string, inputs: Fingerprint,
    outputsValid: bool, invalid: set<NodeId>
  ) {
    && node.id !in invalid
    && prior.Some?
    && var p := prior.value;
    && Success(p.status)
    && p.common.businessKey == businessKey
    && p.common.config.dagId == cfg.dagId
    && p.common.config.dagVersion in cfg.compatibleVersions + {cfg.dagVersion}
    && p.common.config.codeVersion == cfg.codeVersion
    && p.common.config.codeFingerprint == cfg.codeFingerprint
    && p.inputs == Some(inputs)
    && node.eligible && node.reuseValid
    && !p.uncertain
    && Safe(node.strategy)
    && p.checkpoint.Some?
    && p.checkpoint.value.name == node.checkpointName
    && p.checkpoint.value.inputs == inputs
    && p.checkpoint.value.outputs == Outputs(p.outputs)
    && p.outputs.Keys == node.expectedOutputs
    && outputsValid
  }

  // ----- Validated jobs -----

  ghost predicate Planned(nodes: Nodes, plan: seq<NodeId>) {
    && nodes.Keys == (set k | k in plan)
    && (forall i, j | 0 <= i < j < |plan| :: plan[i] != plan[j])
    && (forall i, d | 0 <= i < |plan| && d in nodes[plan[i]].dependencies :: d in plan[..i])
  }

  /** What `validate_dag` and the sidecar schema establish about one node. */
  predicate ValidNode(cfg: Config, k: NodeId)
    requires k in cfg.nodes
  {
    var node := cfg.nodes[k];
    && node.id == k
    && node.group in cfg.groups && cfg.groups[node.group] >= 1
    && (forall name | name in node.resources :: name in cfg.resources && node.resources[name] <= cfg.resources[name])
    && (Safe(node.strategy) || node.retry.maxRetries == 0)
    && node.parameters.Object?
    && (node.condition.Some? ==> node.condition.value.parameter in node.parameters.fields)
    && Accepts(node.parameters, cfg, node)
  }

  ghost predicate ValidConfig(cfg: Config, plan: seq<NodeId>) {
    && Planned(cfg.nodes, plan)
    && cfg.maxParallel >= 1
    && forall k | k in cfg.nodes :: ValidNode(cfg, k)
  }

  ghost predicate ValidJob(job: Job) {
    ValidConfig(job.cfg, job.plan)
  }

  lemma NodeIdIs(job: Job, k: NodeId)
    requires ValidJob(job) && k in job.cfg.nodes
    ensures job.cfg.nodes[k].id == k
  {
    assert ValidNode(job.cfg, k);
  }

  // ----- What a success proves -----

  /** The record's fingerprint commits to the configuration and to the final proofs of its
      dependencies, and its outputs are what the component produces from that content. */
  ghost predicate Proven(cfg: Config, produce: Production, recs: Records, k: NodeId, r: NodeRecord) {
    && k in cfg.nodes
    && var node := cfg.nodes[k];
    && r.inputs.Some? && r.inputs.value.Inputs?
    && var fp := r.inputs.value;
    && fp == InputFingerprint(cfg, node, fp.resolved, fp.contents, recs)
    && (forall d | d in node.dependencies :: d in recs && Terminal(recs[d].status) && !recs[d].uncertain)
    && Proofs(r.outputs) == produce(fp)
    && r.outputs.Keys == node.expectedOutputs
    && (ConfigOnly(node.parameters) ==> Resolve(node.parameters, cfg.data, map[], map[]) == Some(fp.resolved))
  }

  ghost predicate RunSound(cfg: Config, produce: Production, recs: Records) {
    forall k | k in recs && Success(recs[k].status) :: Proven(cfg, produce, recs, k, recs[k])
  }

  /** The parent run of a job left sound records, possibly under another configuration. */
  ghost predicate ParentSound(job: Job, parent: Config) {
    RunSound(parent, job.produce, job.previous)
  }

  // ----- The invariant of a run in progress -----

  /** The record will not change again in this run. */
  predicate Final(job: Job, b: Board, d: NodeId) {
    && d in b.recs && d in job.cfg.nodes
    && d !in b.active
    && Terminal(b.recs[d].status)
    && !b.recs[d].uncertain
    && !Retryable(job.cfg.nodes[d], b.recs[d])
  }

  predicate Decided(r: NodeRecord) {
    !r.status.Pending? && !r.status.Cancelled?
  }

  predicate Attempted(s: Status) {
    s.Ready? || s.Running? || s.Succeeded? || s.Failed? || s.TimedOut?
  }

  predicate Shape(node: NodeDef, r: NodeRecord) {
    && (r.status.Pending? ==> r.attempt == 0)
    && (Attempted(r.status) ==> r.attempt >= 1 && r.inputs.Some? && r.claim.Some?)
    && (r.status.SkippedAlreadySatisfied? || r.status.SkippedCondition? || r.status.Blocked? ==> r.attempt == 0)
    && (r.uncertain ==> r.status.Failed? || r.status.TimedOut?)
    && r.attempt <= node.retry.maxRetries + 1
  }

  /** The context names the attempt, and its inputs are the committed dependency records. */
  predicate ContextHolds(job: Job, recs: Records, k: NodeId, r: NodeRecord, ctx: Context)
    requires k in job.cfg.nodes
  {
    var node := job.cfg.nodes[k];
    && ctx.runId == job.run && ctx.nodeId == k && ctx.config == job.cfg
    && ctx.attempt == r.attempt && r.claim == Some(ctx.claim) && r.inputs == Some(ctx.inputs)
    && ctx.upstream == UpstreamOf(recs, node.dependencies)
    && ctx.dependencyStatus == Statuses(recs, node.dependencies)
    && ParametersOf(job, k, ctx.attempt, recs) == Some(ctx.parameters)
  }

  /** A fingerprint commits to contents that the run has read. */
  predicate WasRead(canRead: Reads, inputs: Option<Fingerprint>) {
    inputs.Some? && inputs.value.Inputs? ==> canRead(inputs.value.resolved, inputs.value.contents)
  }

  /** What the node's trigger and condition say on these records; without parameters, its trigger alone. */
  function VerdictOf(job: Job, recs: Records, k: NodeId): Verdict
    requires k in job.cfg.nodes
  {
    var node := job.cfg.nodes[k];
    var states := Statuses(recs, node.dependencies);
    if !Covered(node.dependencies, states) then Raises
    else
      match ParametersOf(job, k, 1, recs)
      case None => Prerequisite(node, states)
      case Some(resolved) => TriggerStatus(node, states, resolved)
  }

  /** Why a prior result may stand in for an execution of node `k`: the node allows it, and the parent run's record
      of it is a success of the same business key, DAG, compatible version and code, computed from the very same
      inputs, with a checkpoint of this name over the outputs that the node declares. */
  predicate Earned(cfg: Config, businessKey: string, previous: Records, k: NodeId, r: NodeRecord) {
    && k in cfg.nodes && k in previous
    && var node, prior := cfg.nodes[k], previous[k];
    && node.eligible && node.reuseValid && node.strategy in {Natural, Overwrite, Merge, Deduplicate, CheckpointReuse}
    && prior.status in {Succeeded, SkippedAlreadySatisfied} && !prior.uncertain
    && prior.common.businessKey == businessKey && prior.common.config.dagId == cfg.dagId
    && (prior.common.config.dagVersion == cfg.dagVersion || prior.common.config.dagVersion in cfg.compatibleVersions)
    && prior.common.config.codeVersion == cfg.codeVersion
    && prior.common.config.codeFingerprint == cfg.codeFingerprint
    && r.inputs.Some? && prior.inputs == r.inputs
    && prior.checkpoint == Some(Checkpoint(node.checkpointName, r.inputs.value, Outputs(prior.outputs)))
    && prior.outputs.Keys == node.expectedOutputs
    && r.outputs == prior.outputs && r.checkpoint == prior.checkpoint && r.counts == prior.counts
  }

  /** The record's status is what the trigger, the condition and the reuse rule asked for. */
  predicate Ruled(job: Job, recs: Records, k: NodeId, r: NodeRecord)
    requires k in job.cfg.nodes
  {
    && (Attempted(r.status) || r.status.SkippedAlreadySatisfied? ==> VerdictOf(job, recs, k) == Fires)
    && (r.status.Blocked? || r.status.SkippedCondition? ==> VerdictOf(job, recs, k) == Skips(r.status))
    && (r.status.SkippedAlreadySatisfied? ==> Earned(job.cfg, job.businessKey, job.previous, k, r))
  }

  /** That depends on the records of the dependencies alone. */
  lemma SameRule(job: Job, recs: Records, recs': Records, k: NodeId, r: NodeRecord)
    requires k in job.cfg.nodes && Ruled(job, recs, k, r)
    requires Statuses(recs', job.cfg.nodes[k].dependencies) == Statuses(recs, job.cfg.nodes[k].dependencies)
    requires UpstreamOf(recs', job.cfg.nodes[k].dependencies) == UpstreamOf(recs, job.cfg.nodes[k].dependencies)
    ensures VerdictOf(job, recs', k) == VerdictOf(job, recs, k) && Ruled(job, recs', k, r)
  {
    hide Statuses, UpstreamOf, Resolve, TriggerStatus, Earned;
  }

  /** A worker, or a retry, leaves an attempt an attempt, and a reused record as it was but for the remote id. */
  lemma AttemptStaysRuled(job: Job, recs: Records, k: NodeId, r: NodeRecord, r': NodeRecord)
    requires k in job.cfg.nodes && Ruled(job, recs, k, r)
    requires Attempted(r.status) && (Attempted(r'.status) || r'.status.Cancelled?)
    ensures Ruled(job, recs, k, r')
  {
    hide VerdictOf, Earned;
  }

  /** What holds of record `r` of node `k`, given the records of its dependencies. */
  ghost predicate RecordInv(job: Job, b: Board, k: NodeId, r: NodeRecord)
    requires k in job.cfg.nodes
  {
    var node := job.cfg.nodes[k];
    && Shape(node, r) && WasRead(job.canRead, r.inputs)
    && (r.status.Running? ==> k in b.active)
    && (k in b.active ==> Attempted(r.status) && ContextHolds(job, b.recs, k, r, b.active[k]))
    && (Decided(r) ==>
          && (forall d | d in node.dependencies :: Final(job, b, d))
          && r.dependencyStatus == Statuses(b.recs, node.dependencies))
    && (r.attempt > 0 ==> k in b.invalid)
    && (r.status.SkippedAlreadySatisfied? ==>
          && k !in b.invalid
          && forall d | d in node.dependencies :: d in b.recs && b.recs[d].status.SkippedAlreadySatisfied?)
    && (Success(r.status) ==> Proven(job.cfg, job.produce, b.recs, k, r))
    && Ruled(job, b.recs, k, r)
  }

  ghost predicate NodeInv(job: Job, b: Board, k: NodeId)
    requires k in b.recs && k in job.cfg.nodes
  {
    && b.recs[k].nodeId == k
    && RecordInv(job, b, k, b.recs[k])
    && (k !in b.invalid && k in job.previous ==> Success(job.previous[k].status))
  }

  ghost predicate Inv(job: Job, b: Board) {
    && b.recs.Keys == job.cfg.nodes.Keys
    && b.active.Keys <= b.recs.Keys
    && Closed(job.cfg.nodes, b.invalid)
    && forall k | k in b.recs :: NodeInv(job, b, k)
  }

  ghost predicate ResolvableAt(job: Job, b: Board, k: NodeId)
    requires k in b.recs && k in job.cfg.nodes
  {
    var node := job.cfg.nodes[k];
    b.recs[k].status.Ready? || b.recs[k].status.Running? || Retryable(node, b.recs[k]) ==>
      OutputsPresent(node.parameters, UpstreamOf(b.recs, node.dependencies))
  }

  /** Every attempt that is waiting, running, or may be repeated had its parameters resolved once.
      `spare` is the node whose planning failed and whose record is being closed. */
  ghost predicate Resolvable(job: Job, b: Board, spare: set<NodeId>) {
    forall k | k in b.recs && k in job.cfg.nodes && k !in spare :: ResolvableAt(job, b, k)
  }

  lemma Basics(job: Job, b: Board, k: NodeId)
    requires Inv(job, b) && k in b.recs
    ensures k in job.cfg.nodes && b.recs[k].nodeId == k
    ensures Shape(job.cfg.nodes[k], b.recs[k])
    ensures b.recs[k].status.Running? ==> k in b.active
  {
    assert NodeInv(job, b, k);
  }

  // ----- A move on one node leaves the others alone -----

  /** `b'` differs from `b` in the record or the flight of `x` alone, and in a grown `invalid`. */
  ghost predicate Moves(job: Job, b: Board, b': Board, x: NodeId) {
    && x in b.recs && !Final(job, b, x)
    && b'.recs.Keys == b.recs.Keys
    && (forall j | j in b.recs && j != x :: b'.recs[j] == b.recs[j])
    && (forall j | j != x :: j in b'.active <==> j in b.active)
    && (forall j | j != x && j in b.active :: b'.active[j] == b.active[j])
    && b.invalid <= b'.invalid
    && (forall j | j in b.recs && j in b'.invalid && j !in b.invalid :: !b.recs[j].status.SkippedAlreadySatisfied?)
  }

  lemma FinalElsewhere(job: Job, b: Board, b': Board, x: NodeId, d: NodeId)
    requires Moves(job, b, b', x) && Final(job, b, d)
    ensures d != x && Final(job, b', d) && b'.recs[d] == b.recs[d]
  {
  }

  /** Views of unchanged dependencies are unchanged. */
  lemma SameViews(recs: Records, recs': Records, deps: seq<NodeId>)
    requires forall d | d in deps :: d in recs && d in recs' && recs'[d] == recs[d]
    ensures Statuses(recs', deps) == Statuses(recs, deps)
    ensures UpstreamOf(recs', deps) == UpstreamOf(recs, deps)
    ensures DependencyProofs(recs', deps) == DependencyProofs(recs, deps)
  {
  }

  lemma OthersKeep(job: Job, b: Board, b': Board, x: NodeId, j: NodeId)
    requires Inv(job, b) && Moves(job, b, b', x)
    requires j in b.recs && j != x
    ensures NodeInv(job, b', j)
  {
    hide Ruled, Proven, Shape, WasRead, Statuses, UpstreamOf, DependencyProofs, Resolve;
    assert NodeInv(job, b, j);
    var node := job.cfg.nodes[j];
    if Decided(b.recs[j]) {
      forall d | d in node.dependencies
        ensures Final(job, b', d) && b'.recs[d] == b.recs[d]
      {
        FinalElsewhere(job, b, b', x, d);
      }
      SameViews(b.recs, b'.recs, node.dependencies);
      SameProven(job, b.recs, b'.recs, j, b.recs[j]);
      SameRule(job, b.recs, b'.recs, j, b.recs[j]);
    } else {
      UndecidedIsRuled(job, b'.recs, j, b.recs[j]);
    }
  }

  lemma UndecidedIsRuled(job: Job, recs: Records, k: NodeId, r: NodeRecord)
    requires k in job.cfg.nodes && !Decided(r)
    ensures Ruled(job, recs, k, r)
  {
    hide VerdictOf, Earned;
  }

  lemma MoveKeeps(job: Job, b: Board, b': Board, x: NodeId)
    requires Inv(job, b) && Moves(job, b, b', x)
    requires b'.active.Keys <= b'.recs.Keys && Closed(job.cfg.nodes, b'.invalid)
    requires x in job.cfg.nodes && NodeInv(job, b', x)
    ensures Inv(job, b')
  {
    forall j | j in b'.recs && j != x ensures NodeInv(job, b', j) {
      OthersKeep(job, b, b', x, j);
    }
  }

  // ----- The moves -----

  predicate Decidable(job: Job, b: Board, k: NodeId)
    requires k in job.cfg.nodes
  {
    && k in b.recs
    && k !in b.active
    && b.recs[k].status.Pending?
    && forall d | d in job.cfg.nodes[k].dependencies :: Final(job, b, d)
  }

  function Put(b: Board, r: NodeRecord): Board {
    b.(recs := b.recs[r.nodeId := r])
  }

  lemma NodeHolds(job: Job, b: Board, k: NodeId)
    requires Inv(job, b) && k in b.recs
    ensures k in job.cfg.nodes && b.recs[k].nodeId == k && RecordInv(job, b, k, b.recs[k])
    ensures !Terminal(b.recs[k].status) ==> !Final(job, b, k)
    ensures k !in b.invalid && k in job.previous ==> Success(job.previous[k].status)
  {
    assert NodeInv(job, b, k);
  }

  /** A proof depends on the records of the dependencies alone. */
  lemma SameProven(job: Job, recs: Records, recs': Records, k: NodeId, r: NodeRecord)
    requires k in job.cfg.nodes
    requires forall d | d in job.cfg.nodes[k].dependencies :: d in recs && d in recs' && recs'[d] == recs[d]
    ensures Proven(job.cfg, job.produce, recs, k, r) <==> Proven(job.cfg, job.produce, recs', k, r)
  {
    hide Resolve, SignatureOf;
    SameViews(recs, recs', job.cfg.nodes[k].dependencies);
  }

  lemma PutMoves(job: Job, b: Board, r: NodeRecord)
    requires Inv(job, b) && r.nodeId in b.recs && !Final(job, b, r.nodeId)
    ensures r.nodeId in job.cfg.nodes && Moves(job, b, Put(b, r), r.nodeId)
    ensures Put(b, r).active.Keys <= Put(b, r).recs.Keys && Closed(job.cfg.nodes, Put(b, r).invalid)
  {
    hide NodeInv, Final;
    assert Put(b, r).recs.Keys == b.recs.Keys;
  }

  /** What the record says of its dependencies does not depend on the record itself. */
  lemma PutNode(job: Job, b: Board, r: NodeRecord)
    requires Inv(job, b) && r.nodeId in b.recs && !Final(job, b, r.nodeId)
    requires r.nodeId in job.cfg.nodes && RecordInv(job, b, r.nodeId, r)
    requires Moves(job, b, Put(b, r), r.nodeId)
    ensures NodeInv(job, Put(b, r), r.nodeId)
  {
    hide Final, Proven, Moves, Statuses, UpstreamOf, DependencyProofs, Shape, Inv, Ruled;
    var b', k, node := Put(b, r), r.nodeId, job.cfg.nodes[r.nodeId];
    NodeHolds(job, b, k);
    if Decided(r) {
      forall d | d in node.dependencies
        ensures d in b.recs && d in b'.recs && Final(job, b', d) && b'.recs[d] == b.recs[d]
      {
        FinalElsewhere(job, b, b', k, d);
      }
      SameViews(b.recs, b'.recs, node.dependencies);
      SameProven(job, b.recs, b'.recs, k, r);
      SameRule(job, b.recs, b'.recs, k, r);
    } else {
      UndecidedIsRuled(job, b'.recs, k, r);
    }
  }

  /** Putting a record that fits the present records of its dependencies. */
  lemma PutKeeps(job: Job, b: Board, r: NodeRecord)
    requires Inv(job, b) && r.nodeId in b.recs && !Final(job, b, r.nodeId)
    requires RecordInv(job, b, r.nodeId, r)
    ensures Inv(job, Put(b, r))
  {
    hide Inv, Final, RecordInv, Moves, NodeInv, Put;
    PutMoves(job, b, r);
    PutNode(job, b, r);
    MoveKeeps(job, b, Put(b, r), r.nodeId);
  }

  /** A retry: the failed record becomes a READY one for the next attempt. */
  lemma RetryKeeps(job: Job, b: Board, k: NodeId, inputs: Fingerprint, readyAt: real, claim: nat)
    requires Inv(job, b) && k in b.recs
    requires k !in b.active && Retryable(job.cfg.nodes[k], b.recs[k])
    requires WasRead(job.canRead, Some(inputs))
    ensures var deps := Statuses(b.recs, job.cfg.nodes[k].dependencies);
            Inv(job, Put(b, Prepared(b.recs[k], inputs, deps, readyAt, claim)))
  {
    hide Ruled;
    assert NodeInv(job, b, k);
    var r := Prepared(b.recs[k], inputs, Statuses(b.recs, job.cfg.nodes[k].dependencies), readyAt, claim);
    AttemptStaysRuled(job, b.recs, k, b.recs[k], r);
    PutKeeps(job, b, r);
  }

  /** Cancelling a node that has not been dispatched. */
  lemma CancelKeeps(job: Job, b: Board, k: NodeId, deps: map<NodeId, Status>, now: real)
    requires Inv(job, b) && k in b.recs
    requires k !in b.active && (b.recs[k].status.Pending? || b.recs[k].status.Ready?)
    ensures Inv(job, Put(b, Skipped(b.recs[k], Cancelled, deps, None, None, now)))
  {
    hide Inv, Final, Proven, ContextHolds, Put, Statuses, Ruled;
    NodeHolds(job, b, k);
    UndecidedIsRuled(job, b.recs, k, Skipped(b.recs[k], Cancelled, deps, None, None, now));
    PutKeeps(job, b, Skipped(b.recs[k], Cancelled, deps, None, None, now));
  }

  /** Skipping by trigger or by condition. */
  lemma SkipKeeps(job: Job, b: Board, k: NodeId, status: Status, now: real)
    requires Inv(job, b) && k in b.recs && Decidable(job, b, k)
    requires (status.Blocked? || status.SkippedCondition?) && VerdictOf(job, b.recs, k) == Skips(status)
    ensures var deps := Statuses(b.recs, job.cfg.nodes[k].dependencies);
            Inv(job, Put(b, Skipped(b.recs[k], status, deps, None, None, now)))
  {
    hide Proven, ContextHolds, CanReuse, VerdictOf, Earned;
    assert NodeInv(job, b, k);
    PutKeeps(job, b, Skipped(b.recs[k], status, Statuses(b.recs, job.cfg.nodes[k].dependencies), None, None, now));
  }

  /** Growing `invalid` by the descendants of an undecided node touches no reused node. */
  lemma GrowKeeps(job: Job, b: Board, k: NodeId)
    requires Inv(job, b) && k in b.recs && !b.recs[k].status.SkippedAlreadySatisfied?
    ensures Inv(job, b.(invalid := b.invalid + Closure(job.cfg.nodes, {k})))
  {
    hide NodeInv, Closure;
    var grown := Closure(job.cfg.nodes, {k});
    var b' := b.(invalid := b.invalid + grown);
    GrownIsNotReused(job, b, k);
    forall j | j in b'.recs ensures NodeInv(job, b', j) {
      assert NodeInv(job, b, j);
      GrownNode(job, b, b', j);
    }
  }

  lemma GrownIsNotReused(job: Job, b: Board, k: NodeId)
    requires Inv(job, b) && k in b.recs && !b.recs[k].status.SkippedAlreadySatisfied?
    ensures forall j | j in b.recs && j in Closure(job.cfg.nodes, {k}) :: !b.recs[j].status.SkippedAlreadySatisfied?
  {
    hide Proven, ContextHolds, Final, Statuses;
    var rest := set j | j in b.recs && !b.recs[j].status.SkippedAlreadySatisfied?;
    forall c, d | c in job.cfg.nodes && d in job.cfg.nodes[c].dependencies && d in rest ensures c in rest {
      assert NodeInv(job, b, c);
    }
    ClosureIsLeast(job.cfg.nodes, {k}, rest);
  }

  lemma GrownNode(job: Job, b: Board, b': Board, j: NodeId)
    requires j in b.recs && j in job.cfg.nodes && NodeInv(job, b, j)
    requires b'.recs == b.recs && b'.active == b.active && b.invalid <= b'.invalid
    requires b.recs[j].status.SkippedAlreadySatisfied? && j in b'.invalid ==> j in b.invalid
    ensures NodeInv(job, b', j)
  {
    hide Proven, ContextHolds, Shape, Statuses, Ruled;
    forall d | d in job.cfg.nodes[j].dependencies && Final(job, b, d) ensures Final(job, b', d) {
    }
  }

  /** Preparing the first attempt, after `invalid` has been grown by the node. */
  lemma PrepareKeeps(job: Job, b: Board, k: NodeId, inputs: Fingerprint, readyAt: real, claim: nat)
    requires Inv(job, b) && k in b.recs && Decidable(job, b, k) && k in b.invalid && VerdictOf(job, b.recs, k) == Fires
    requires WasRead(job.canRead, Some(inputs))
    ensures var deps := Statuses(b.recs, job.cfg.nodes[k].dependencies);
            Inv(job, Put(b, Prepared(b.recs[k], inputs, deps, readyAt, claim)))
  {
    hide Inv, Final, Proven, ContextHolds, Put, Statuses, VerdictOf, Earned;
    NodeHolds(job, b, k);
    PutKeeps(job, b, Prepared(b.recs[k], inputs, Statuses(b.recs, job.cfg.nodes[k].dependencies), readyAt, claim));
  }

  /** The orchestrator itself finishes an attempt whose planning failed. */
  lemma PlanningFailureKeeps(job: Job, b: Board, k: NodeId, res: Result, late: bool, now: real)
    requires Inv(job, b) && k in b.recs
    requires k !in b.active && b.recs[k].status.Ready? && res.status.Failed?
    ensures Inv(job, Put(b, Finished(b.recs[k], res, late, now)))
  {
    hide Inv, Final, Proven, ContextHolds, Put, Statuses, Ruled;
    NodeHolds(job, b, k);
    AttemptStaysRuled(job, b.recs, k, b.recs[k], Finished(b.recs[k], res, late, now));
    PutKeeps(job, b, Finished(b.recs[k], res, late, now));
  }

  /** Dispatching or reaping changes only who may write the record. */
  lemma FlightKeeps(job: Job, b: Board, b': Board, k: NodeId)
    requires Inv(job, b) && k in b.recs && !Final(job, b, k) && Decided(b.recs[k])
    requires b'.recs == b.recs && b'.invalid == b.invalid && b'.active.Keys <= b.recs.Keys
    requires forall j | j != k :: (j in b'.active <==> j in b.active)
    requires forall j | j != k && j in b.active :: b'.active[j] == b.active[j]
    requires b.recs[k].status.Running? ==> k in b'.active
    requires k in b'.active ==> Attempted(b.recs[k].status) && ContextHolds(job, b.recs, k, b.recs[k], b'.active[k])
    ensures Inv(job, b')
  {
    hide Ruled, Proven, Shape, ContextHolds, WasRead;
    assert NodeInv(job, b, k);
    assert Moves(job, b, b', k);
    forall d | d in job.cfg.nodes[k].dependencies ensures Final(job, b', d) {
      FinalElsewhere(job, b, b', k, d);
    }
    MoveKeeps(job, b, b', k);
  }

  lemma DispatchKeeps(job: Job, b: Board, k: NodeId, ctx: Context)
    requires Inv(job, b) && k in b.recs
    requires k !in b.active && b.recs[k].status.Ready? && ContextHolds(job, b.recs, k, b.recs[k], ctx)
    ensures Inv(job, b.(active := b.active[k := ctx]))
  {
    hide NodeInv, ContextHolds;
    FlightKeeps(job, b, b.(active := b.active[k := ctx]), k);
  }

  lemma ReapKeeps(job: Job, b: Board, k: NodeId)
    requires Inv(job, b) && k in b.active && Terminal(b.recs[k].status)
    ensures Inv(job, b.(active := b.active - {k}))
  {
    hide Proven, ContextHolds;
    assert NodeInv(job, b, k);
    FlightKeeps(job, b, b.(active := b.active - {k}), k);
  }

  // ----- Reuse -----

  function Prior(job: Job, k: NodeId): Option<NodeRecord> {
    if k in job.previous then Some(job.previous[k]) else None
  }

  /** A reused node's dependencies are all reused: its fingerprint says that they were successes in the
      parent run and are successes now, and none of them was executed in this run. */
  lemma ReusedDependencies(job: Job, b: Board, k: NodeId, resolved: Json, contents: Json, parent: Config, d: NodeId)
    requires Inv(job, b) && k in b.recs && Decidable(job, b, k) && k !in b.invalid
    requires k in job.previous && Success(job.previous[k].status) && ParentSound(job, parent)
    requires job.previous[k].inputs == Some(InputFingerprint(job.cfg, job.cfg.nodes[k], resolved, contents, b.recs))
    requires d in job.cfg.nodes[k].dependencies
    ensures b.recs[d].status.SkippedAlreadySatisfied?
  {
    var deps := job.cfg.nodes[k].dependencies;
    var now, before := DependencyProofs(b.recs, deps), DependencyProofs(job.previous, parent.nodes[k].dependencies);
    assert Final(job, b, d);
    assert now == before;
    assert d in now && now[d].status == Normalised(b.recs[d].status);
    assert d in before && before[d].status == Normalised(job.previous[d].status);
    assert d !in b.invalid;
    assert NodeInv(job, b, d);
  }

  function ReuseRecord(job: Job, b: Board, k: NodeId, inputs: Fingerprint, now: real): NodeRecord
    requires k in b.recs && k in job.cfg.nodes
  {
    Skipped(b.recs[k], SkippedAlreadySatisfied, Statuses(b.recs, job.cfg.nodes[k].dependencies),
            Prior(job, k), Some(inputs), now)
  }

  lemma ReuseKeeps(
    job: Job, b: Board, k: NodeId, resolved: Json, contents: Json, inputs: Fingerprint, parent: Config,
    outputsValid: bool, now: real
  )
    requires Inv(job, b) && k in b.recs && Decidable(job, b, k) && ParentSound(job, parent)
    requires ParametersOf(job, k, 1, b.recs) == Some(resolved) && job.cfg.nodes[k].id == k
    requires inputs == InputFingerprint(job.cfg, job.cfg.nodes[k], resolved, contents, b.recs)
    requires WasRead(job.canRead, Some(inputs))
    requires CanReuse(Prior(job, k), job.cfg, job.cfg.nodes[k], job.businessKey, inputs, outputsValid, b.invalid)
    requires VerdictOf(job, b.recs, k) == Fires
    ensures Inv(job, Put(b, ReuseRecord(job, b, k, inputs, now)))
  {
    hide Ruled, VerdictOf, TriggerStatus, Resolve;
    assert NodeInv(job, b, k);
    var r := ReuseRecord(job, b, k, inputs, now);
    ReuseIsProven(job, b, k, resolved, contents, parent, r);
    forall d | d in job.cfg.nodes[k].dependencies ensures b.recs[d].status.SkippedAlreadySatisfied? {
      ReusedDependencies(job, b, k, resolved, contents, parent, d);
    }
    ReuseIsEarned(job, b, k, inputs, outputsValid, now);
    PutReused(job, b, k, r);
  }

  /** The reuse rule asks for all of this. */
  lemma ReuseIsEarned(job: Job, b: Board, k: NodeId, inputs: Fingerprint, outputsValid: bool, now: real)
    requires k in b.recs && k in job.cfg.nodes && VerdictOf(job, b.recs, k) == Fires
    requires CanReuse(Prior(job, k), job.cfg, job.cfg.nodes[k], job.businessKey, inputs, outputsValid, b.invalid)
    ensures Earned(job.cfg, job.businessKey, job.previous, k, ReuseRecord(job, b, k, inputs, now))
    ensures Ruled(job, b.recs, k, ReuseRecord(job, b, k, inputs, now))
  {
    hide VerdictOf, Statuses;
  }

  lemma PutReused(job: Job, b: Board, k: NodeId, r: NodeRecord)
    requires Inv(job, b) && k in b.recs && Decidable(job, b, k) && k !in b.invalid && r.nodeId == k
    requires forall d | d in job.cfg.nodes[k].dependencies :: b.recs[d].status.SkippedAlreadySatisfied?
    requires r.status.SkippedAlreadySatisfied? && r.attempt == 0 && !r.uncertain
    requires r.dependencyStatus == Statuses(b.recs, job.cfg.nodes[k].dependencies)
    requires WasRead(job.canRead, r.inputs)
    requires Proven(job.cfg, job.produce, b.recs, k, r) && Ruled(job, b.recs, k, r)
    ensures Inv(job, Put(b, r))
  {
    hide Ruled;
    PutKeeps(job, b, r);
  }

  lemma ReuseIsProven(
    job: Job, b: Board, k: NodeId, resolved: Json, contents: Json, parent: Config, r: NodeRecord
  )
    requires Inv(job, b) && k in b.recs && Decidable(job, b, k) && ParentSound(job, parent)
    requires ParametersOf(job, k, 1, b.recs) == Some(resolved)
    requires var inputs := InputFingerprint(job.cfg, job.cfg.nodes[k], resolved, contents, b.recs);
             && k in job.previous && Success(job.previous[k].status) && job.previous[k].inputs == Some(inputs)
             && job.previous[k].outputs.Keys == job.cfg.nodes[k].expectedOutputs
             && r.inputs == Some(inputs) && r.outputs == job.previous[k].outputs
    ensures Proven(job.cfg, job.produce, b.recs, k, r)
  {
    var node := job.cfg.nodes[k];
    forall d | d in node.dependencies ensures Final(job, b, d) {
    }
    if ConfigOnly(node.parameters) {
      ConfigOnlyIgnoresTheRun(node.parameters, job.cfg.data, RuntimeOf(job, k, 1),
                              UpstreamOf(b.recs, node.dependencies), map[], map[]);
    }
  }

  // ----- Workers -----

  /** What a worker holding `ctx` may report: any failure, or the success that `run_child` commits after
      rechecking the fingerprint against the committed dependency records and validating its outputs. */
  predicate MayReport(job: Job, recs: Records, ctx: Context, res: Result)
    requires ctx.nodeId in job.cfg.nodes
  {
    var node := job.cfg.nodes[ctx.nodeId];
    || ((res.status.Failed? || res.status.TimedOut?) && res.error.Some?)
    || (&& res.status.Succeeded? && !res.uncertain && res.error.None?
        && res.outputs.Keys == node.expectedOutputs
        && Proofs(res.outputs) == job.produce(ctx.inputs)
        && ctx.inputs.Inputs?
        && ctx.inputs == InputFingerprint(job.cfg, node, ctx.parameters, ctx.inputs.contents, recs))
  }

  lemma ClaimKeeps(job: Job, b: Board, k: NodeId, now: real)
    requires Inv(job, b) && k in b.active && b.recs[k].status.Ready?
    ensures Inv(job, Put(b, Claimed(b.recs[k], now)))
  {
    hide Ruled;
    assert NodeInv(job, b, k);
    AttemptStaysRuled(job, b.recs, k, b.recs[k], Claimed(b.recs[k], now));
    PutKeeps(job, b, Claimed(b.recs[k], now));
  }

  lemma RemoteKeeps(job: Job, b: Board, k: NodeId, remote: int)
    requires Inv(job, b) && k in b.active
    ensures Inv(job, Put(b, b.recs[k].(remote := Some(remote))))
  {
    hide Ruled;
    assert NodeInv(job, b, k);
    AttemptStaysRuled(job, b.recs, k, b.recs[k], b.recs[k].(remote := Some(remote)));
    PutKeeps(job, b, b.recs[k].(remote := Some(remote)));
  }

  lemma ReportKeeps(job: Job, b: Board, k: NodeId, res: Result, late: bool, now: real)
    requires Inv(job, b) && k in b.active && (b.recs[k].status.Ready? || b.recs[k].status.Running?)
    requires b.active[k].nodeId == k && MayReport(job, b.recs, b.active[k], res)
    ensures Inv(job, Put(b, Finished(b.recs[k], res, late, now)))
  {
    assert k in b.recs;
    hide Inv, Final, Proven, ContextHolds, Put, Statuses, Finished, MayReport, RecordInv;
    NodeHolds(job, b, k);
    ReportShape(job, b.recs, b.active[k], res);
    var r' := Finished(b.recs[k], res, late, now);
    FinishedShape(b.recs[k], res, late, now);
    if r'.status.Succeeded? {
      SuccessIsProven(job, b, k, r', res);
    }
    AttemptMoves(job, b, k, b.recs[k], r');
    PutKeeps(job, b, r');
  }

  /** Within an attempt in flight, only a success needs a new proof. */
  lemma AttemptMoves(job: Job, b: Board, k: NodeId, r: NodeRecord, r': NodeRecord)
    requires k in job.cfg.nodes && k in b.active && RecordInv(job, b, k, r) && (r.status.Ready? || r.status.Running?)
    requires r'.attempt == r.attempt && r'.claim == r.claim && r'.inputs == r.inputs
               && r'.dependencyStatus == r.dependencyStatus
    requires r'.status.Running? || r'.status.Succeeded? || r'.status.Failed? || r'.status.TimedOut?
    requires r'.uncertain ==> r'.status.Failed? || r'.status.TimedOut?
    requires r'.status.Succeeded? ==> Proven(job.cfg, job.produce, b.recs, k, r')
    ensures RecordInv(job, b, k, r')
  {
    hide Final, Proven, ContextHolds, Statuses;
    SameContext(job, b.recs, k, r, r', b.active[k]);
  }

  lemma ReportShape(job: Job, recs: Records, ctx: Context, res: Result)
    requires ctx.nodeId in job.cfg.nodes && MayReport(job, recs, ctx, res)
    ensures res.status.Failed? || res.status.TimedOut? || (res.status.Succeeded? && !res.uncertain)
  {
  }

  lemma FinishedShape(r: NodeRecord, res: Result, late: bool, now: real)
    ensures var r' := Finished(r, res, late, now);
            && r'.nodeId == r.nodeId && r'.attempt == r.attempt && r'.claim == r.claim && r'.inputs == r.inputs
            && r'.dependencyStatus == r.dependencyStatus && r'.uncertain == res.uncertain
            && r'.status == (if res.status.Succeeded? && late then TimedOut else res.status)
            && (r'.status.Succeeded? ==> r'.outputs == res.outputs)
  {
  }

  /** A context is about the attempt, its claim and its inputs. */
  lemma SameContext(job: Job, recs: Records, k: NodeId, r: NodeRecord, r': NodeRecord, ctx: Context)
    requires k in job.cfg.nodes && r'.attempt == r.attempt && r'.claim == r.claim && r'.inputs == r.inputs
    ensures ContextHolds(job, recs, k, r, ctx) <==> ContextHolds(job, recs, k, r', ctx)
  {
  }

  lemma SuccessIsProven(job: Job, b: Board, k: NodeId, r': NodeRecord, res: Result)
    requires Inv(job, b) && k in b.active && Decided(b.recs[k])
    requires b.active[k].nodeId == k && MayReport(job, b.recs, b.active[k], res) && res.status.Succeeded?
    requires r'.inputs == b.recs[k].inputs && r'.outputs == res.outputs
    ensures Proven(job.cfg, job.produce, b.recs, k, r')
  {
    assert NodeInv(job, b, k);
    var node, ctx := job.cfg.nodes[k], b.active[k];
    if ConfigOnly(node.parameters) {
      ConfigOnlyIgnoresTheRun(node.parameters, job.cfg.data, RuntimeOf(job, k, ctx.attempt),
                              UpstreamOf(b.recs, node.dependencies), map[], map[]);
    }
  }

  // ----- Resolvability is kept -----

  /** What the outputs of final dependencies offer does not change while the node's own record moves. */
  lemma ResolvableKept(job: Job, b: Board, r: NodeRecord, wide: set<NodeId>, spare: set<NodeId>)
    requires Inv(job, b) && r.nodeId in b.recs && !Final(job, b, r.nodeId)
    requires Resolvable(job, b, wide) && wide <= spare + {r.nodeId}
    requires r.nodeId !in spare && (r.status.Ready? || r.status.Running? || Retryable(job.cfg.nodes[r.nodeId], r)) ==>
               && (forall d | d in job.cfg.nodes[r.nodeId].dependencies :: Final(job, b, d))
               && OutputsPresent(job.cfg.nodes[r.nodeId].parameters,
                                 UpstreamOf(b.recs, job.cfg.nodes[r.nodeId].dependencies))
    ensures Resolvable(job, Put(b, r), spare)
  {
    hide Inv, Final, OutputsPresent, UpstreamOf;
    var b' := Put(b, r);
    forall j | j in b'.recs && j in job.cfg.nodes && j !in spare ensures ResolvableAt(job, b', j) {
      if j != r.nodeId {
        assert ResolvableAt(job, b, j);
      }
      if b'.recs[j].status.Ready? || b'.recs[j].status.Running? || Retryable(job.cfg.nodes[j], b'.recs[j]) {
        DependenciesStay(job, b, r, j);
      }
    }
  }

  /** The dependencies of an attempted node are final, so another node's move does not change them. */
  lemma DependenciesStay(job: Job, b: Board, r: NodeRecord, j: NodeId)
    requires Inv(job, b) && r.nodeId in b.recs && !Final(job, b, r.nodeId) && j in b.recs && j in job.cfg.nodes
    requires j != r.nodeId ==> Decided(b.recs[j])
    requires j == r.nodeId ==> forall d | d in job.cfg.nodes[j].dependencies :: Final(job, b, d)
    ensures UpstreamOf(Put(b, r).recs, job.cfg.nodes[j].dependencies) ==
              UpstreamOf(b.recs, job.cfg.nodes[j].dependencies)
  {
    hide Inv, UpstreamOf, Statuses, DependencyProofs, Proven, ContextHolds;
    NodeHolds(job, b, j);
    var deps := job.cfg.nodes[j].dependencies;
    forall d | d in deps ensures d in b.recs && d in Put(b, r).recs && Put(b, r).recs[d] == b.recs[d] {
      assert Final(job, b, d);
    }
    SameViews(b.recs, Put(b, r).recs, deps);
  }

  /** The parameters of a node resolve exactly when its dependencies offer the outputs they name. */
  lemma ParametersResolve(job: Job, k: NodeId, attempt: nat, recs: Records)
    requires ValidJob(job) && k in job.cfg.nodes
    ensures var node := job.cfg.nodes[k];
            ParametersOf(job, k, attempt, recs).Some? <==>
            OutputsPresent(node.parameters, UpstreamOf(recs, node.dependencies))
  {
    assert ValidNode(job.cfg, k);
    ResolvesIff(job.cfg.nodes[k].parameters, job.cfg, job.cfg.nodes[k], RuntimeOf(job, k, attempt),
                UpstreamOf(recs, job.cfg.nodes[k].dependencies));
  }
}
