/** The entities of the restartable DAG runtime: status classes, configuration, control records
    and attempt contexts.

    SHA-256 over canonical JSON is modelled as an injective function, by keeping the fingerprinted
    content itself (`Fingerprint`, and `Config` standing for its own fingerprint). Clock readings
    and durations are `real`. */
module Model {

  datatype Option<+T> = None | Some(value: T)

  /** A transaction either returns a value or raises; a raising transaction leaves the log as it was. */
  datatype Outcome<+T> = Ok(value: T) | Err(error: Failure)

  type NodeId = string
  type RunId = nat

  // ----- Status classes -----

  datatype Status =
    | Pending | Ready | Running
    | Succeeded | Failed | TimedOut
    | SkippedAlreadySatisfied | SkippedCondition | Blocked | Cancelled

  predicate Success(s: Status) {
    s.Succeeded? || s.SkippedAlreadySatisfied?
  }

  predicate Bad(s: Status) {
    s.Failed? || s.TimedOut? || s.Blocked? || s.Cancelled?
  }

  predicate Terminal(s: Status) {
    Success(s) || Bad(s) || s.SkippedCondition?
  }

  datatype Mode = Normal | Resume | ForceRestart | ForceRerun

  datatype RunStatus = RunRunning | RunRecoveryRequired | RunFailed | RunSucceeded

  predicate Open(s: RunStatus) {
    s.RunRunning? || s.RunRecoveryRequired?
  }

  // ----- Errors -----

  datatype Category =
    | Business | Infrastructure | Timeout | Configuration | DataQuality | Dependency
    | RetryableApplication | NonRetryableApplication

  datatype Failure = Failure(code: string, category: Category, retryable: bool)

  const CLAIM_COLLISION := Failure("CLAIM_COLLISION", Configuration, false)
  const LEASE_LOST := Failure("LEASE_LOST", Infrastructure, false)

  /** `WorkflowError` with its default category. */
  function Workflow(code: string): Failure {
    Failure(code, Configuration, false)
  }

  // ----- JSON values, output references -----

  datatype Json =
    | Null
    | Bool(truth: bool)
    | Number(number: real)
    | Text(text: string)
    | List(items: seq<Json>)
    | Object(fields: map<string, Json>)

  datatype EffectId = EffectId(node: NodeId, operation: string)

  /** A committed output: an immutable artifact, or the receipt of an outbox intent. */
  datatype Reference =
    | Artifact(path: string, digest: string, rows: nat, schema: string)
    | Receipt(effect: EffectId, digest: string)

  datatype OutputProof = OutputProof(digest: string, rows: nat)

  function Proof(r: Reference): OutputProof {
    OutputProof(r.digest, if r.Artifact? then r.rows else 1)
  }

  function Proofs(outputs: map<string, Reference>): map<string, OutputProof> {
    map name | name in outputs :: Proof(outputs[name])
  }

  // ----- Configuration -----

  datatype TriggerKind = AllSuccess | AnySuccess | AllDone | AnyFailed | AnyTimedOut

  datatype Condition = Condition(parameter: string, equals: Json)

  datatype Strategy = Natural | Overwrite | Merge | Deduplicate | CheckpointReuse | Compensation | Manual

  predicate Safe(s: Strategy) {
    !s.Compensation? && !s.Manual?
  }

  datatype Retry = Retry(maxRetries: nat, delay: real, backoff: real, maxDelay: real, categories: set<Category>)

  datatype NodeDef = NodeDef(
    id: NodeId,
    notebook: string,
    dependencies: seq<NodeId>,
    trigger: TriggerKind,
    condition: Option<Condition>,
    parameters: Json,
    expectedOutputs: set<string>,
    timeout: real,
    retry: Retry,
    eligible: bool,
    reuseValid: bool,
    strategy: Strategy,
    compensationNode: NodeId,
    checkpointName: string,
    failureClass: Category,
    critical: bool,
    group: string,
    resources: map<string, nat>)

  /** The effective sidecar with its code fingerprint. `data` is what `$config` references look up;
      `settings` stands for the storage, reject-data and Spark settings that enter a fingerprint. */
  datatype Config = Config(
    applicationId: string,
    dagId: string,
    dagVersion: string,
    compatibleVersions: set<string>,
    environment: string,
    codeVersion: string,
    codeFingerprint: string,
    data: Json,
    settings: Json,
    definitions: map<string, Json>,
    entries: set<NodeId>,
    nodes: map<NodeId, NodeDef>,
    maxParallel: nat,
    groups: map<string, nat>,
    resources: map<string, nat>,
    eager: bool,
    failFast: bool,
    runTimeout: real)

  // ----- Fingerprints -----

  /** What `input_fingerprint` takes from the configuration and the node definition. */
  datatype Signature = Signature(
    applicationId: string,
    dagId: string,
    environment: string,
    codeFingerprint: string,
    codeVersion: string,
    settings: Json,
    definition: Option<Json>,
    id: NodeId,
    notebook: string,
    parameters: Json,
    expectedOutputs: set<string>,
    strategy: Strategy,
    compensationNode: NodeId,
    checkpointName: string,
    trigger: TriggerKind,
    condition: Option<Condition>)

  datatype DependencyProof = DependencyProof(status: Status, outputs: map<string, OutputProof>)

  datatype Fingerprint =
    | Inputs(signature: Signature, resolved: Json, contents: Json, dependencies: map<NodeId, DependencyProof>)
    | Outputs(outputs: map<string, Reference>)
    | PlanningError(code: string)

  datatype Checkpoint = Checkpoint(name: string, inputs: Fingerprint, outputs: Fingerprint)

  // ----- Control records -----

  /** The fields that a run and each of its node records share. */
  datatype Common = Common(
    runId: RunId,
    businessKey: string,
    parent: Option<RunId>,
    config: Config,
    mode: Mode,
    origin: Option<NodeId>)

  datatype RunRecord = RunRecord(
    common: Common,
    status: RunStatus,
    owner: nat,
    attempt: nat,
    startedAt: real,
    endedAt: Option<real>,
    plan: seq<NodeId>)

  datatype Counts = Counts(metrics: map<string, int>, rows: map<string, int>, warnings: nat, rejects: nat)

  const NoCounts := Counts(map[], map[], 0, 0)

  datatype NodeRecord = NodeRecord(
    common: Common,
    nodeId: NodeId,
    status: Status,
    previous: Option<Status>,
    attempt: nat,
    claim: Option<nat>,
    dependencyStatus: map<NodeId, Status>,
    startedAt: Option<real>,
    endedAt: Option<real>,
    duration: real,
    inputs: Option<Fingerprint>,
    outputs: map<string, Reference>,
    checkpoint: Option<Checkpoint>,
    counts: Counts,
    retryable: bool,
    error: Option<Failure>,
    uncertain: bool,
    critical: bool,
    readyAt: real,
    remote: Option<int>,
    reusedFrom: Option<RunId>)

  datatype OutboxRecord = OutboxRecord(
    effect: EffectId,
    runId: RunId,
    payloadDigest: string,
    reference: Reference,
    pendingDispatch: bool)

  datatype RunRequest = RunRequest(
    businessKey: string,
    mode: Mode,
    parent: Option<RunId>,
    origin: Option<NodeId>,
    approved: set<NodeId>)

  /** What the orchestrator hands to a child attempt. */
  datatype Context = Context(
    runId: RunId,
    nodeId: NodeId,
    attempt: nat,
    claim: nat,
    inputs: Fingerprint,
    config: Config,
    deadline: real,
    upstream: map<NodeId, map<string, Reference>>,
    dependencyStatus: map<NodeId, Status>,
    parameters: Json)
}
