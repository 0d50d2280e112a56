/** The event-sourced control store of one scope, as pure functions.

    The log is the only state. `Fold` gives the latest record per entity, each `Decide...` function
    is one guarded transaction body (the entries it appends, or the error it raises), and `Commit`
    numbers and appends what a transaction put.

    A UUID is modelled as the sequence number of the event that first carries it: a value that is
    fresh in its scope. */
module ControlLog {
  import opened Model

  datatype EventType =
    | RunStarted | RunFinished | RunReconciled
    | NodeCreated | NodeReady | RetryScheduled | AttemptClaimed | AttemptFinished
    | NodeSkipped | NodeBlocked | RemoteRunSubmitted | AttemptReconciled
    | OutboxCommitted | OutboxReferenceRefreshed

  datatype Payload =
    | RunPayload(run: RunRecord)
    | NodePayload(node: NodeRecord)
    | OutboxPayload(outbox: OutboxRecord)

  datatype Entry = Entry(kind: EventType, payload: Payload)

  datatype Event = Event(sequence: nat, entry: Entry)

  /** The projection of a log. `runOrder` is the order in which runs first appeared. */
  datatype Tables = Tables(
    sequence: nat,
    runOrder: seq<RunId>,
    runs: map<RunId, RunRecord>,
    nodes: map<RunId, map<NodeId, NodeRecord>>,
    outbox: map<EffectId, OutboxRecord>)

  const EmptyTables := Tables(0, [], map[], map[], map[])

  function NodesOf(t: Tables, run: RunId): map<NodeId, NodeRecord> {
    if run in t.nodes then t.nodes[run] else map[]
  }

  function Evolve(t: Tables, e: Entry): Tables {
    match e.payload
    case RunPayload(run) =>
      var id := run.common.runId;
      t.(sequence := t.sequence + 1,
         runOrder := if id in t.runs then t.runOrder else t.runOrder + [id],
         runs := t.runs[id := run],
         nodes := t.nodes[id := NodesOf(t, id)])
    case NodePayload(node) =>
      var id := node.common.runId;
      t.(sequence := t.sequence + 1,
         nodes := t.nodes[id := NodesOf(t, id)[node.nodeId := node]])
    case OutboxPayload(effect) =>
      t.(sequence := t.sequence + 1,
         outbox := t.outbox[effect.effect := effect])
  }

  function EvolveAll(t: Tables, es: seq<Entry>): Tables {
    if es == [] then t else Evolve(EvolveAll(t, es[..|es| - 1]), es[|es| - 1])
  }

  function Fold(log: seq<Event>): Tables {
    if log == [] then EmptyTables else Evolve(Fold(log[..|log| - 1]), log[|log| - 1].entry)
  }

  function Stamp(from: nat, es: seq<Entry>): seq<Event> {
    seq(|es|, i requires 0 <= i < |es| => Event(from + i + 1, es[i]))
  }

  function Commit(log: seq<Event>, es: seq<Entry>): seq<Event> {
    log + Stamp(|log|, es)
  }

  /** The sequence check of `Transaction`: numbered 1..n, no gap, no duplicate. */
  ghost predicate Numbered(log: seq<Event>) {
    forall i | 0 <= i < |log| :: log[i].sequence == i + 1
  }

  lemma {:induction false} FoldCommit(log: seq<Event>, es: seq<Entry>)
    ensures Fold(Commit(log, es)) == EvolveAll(Fold(log), es)
  {
    if es == [] {
      assert Commit(log, es) == log;
    } else {
      var init := es[..|es| - 1];
      FoldCommit(log, init);
      var whole := Commit(log, es);
      assert whole[..|whole| - 1] == Commit(log, init);
    }
  }

  lemma {:induction false} FoldSequence(log: seq<Event>)
    ensures Fold(log).sequence == |log|
  {
    if log != [] {
      FoldSequence(log[..|log| - 1]);
    }
  }

  lemma EvolveOne(t: Tables, e: Entry)
    ensures EvolveAll(t, [e]) == Evolve(t, e)
  {
    assert [e][..0] == [];
  }

  // ----- Record transitions -----

  function NewNode(common: Common, id: NodeId): NodeRecord
  {
    NodeRecord(common, id, Pending, None, 0, None, map[], None, None, 0.0, None, map[], None, NoCounts,
               false, None, false,
               if id in common.config.nodes then common.config.nodes[id].critical else false,
               0.0, None, None)
  }

  function Prepared(
    r: NodeRecord, inputs: Fingerprint, deps: map<NodeId, Status>, readyAt: real, claim: nat
  ): NodeRecord
  {
    r.(previous := Some(r.status), status := Ready, attempt := r.attempt + 1, claim := Some(claim),
       inputs := Some(inputs), dependencyStatus := deps, readyAt := readyAt,
       startedAt := None, endedAt := None, duration := 0.0, outputs := map[], checkpoint := None,
       retryable := false, error := None, remote := None)
  }

  function Claimed(r: NodeRecord, now: real): NodeRecord {
    r.(previous := Some(Ready), status := Running, startedAt := Some(now))
  }

  /** The arguments of `finish_attempt`. */
  datatype Result = Result(
    status: Status,
    outputs: map<string, Reference>,
    checkpoint: Option<Checkpoint>,
    error: Option<Failure>,
    counts: Counts,
    uncertain: bool,
    allowReady: bool)

  const DEADLINE_EXCEEDED := Failure("DEADLINE_EXCEEDED", Timeout, true)

  function Elapsed(start: Option<real>, end: real): real {
    if start.Some? && end > start.value then end - start.value else 0.0
  }

  function Finished(r: NodeRecord, res: Result, late: bool, now: real): NodeRecord {
    var status := if res.status.Succeeded? && late then TimedOut else res.status;
    var error := if res.status.Succeeded? && late then Some(DEADLINE_EXCEEDED) else res.error;
    r.(previous := Some(r.status), status := status, endedAt := Some(now),
       duration := Elapsed(r.startedAt, now),
       outputs := if status.Succeeded? then res.outputs else map[],
       checkpoint := if status.Succeeded? then res.checkpoint else None,
       error := error, retryable := error.Some? && error.value.retryable,
       counts := res.counts, uncertain := res.uncertain)
  }

  function Skipped(
    r: NodeRecord, status: Status, deps: map<NodeId, Status>, prior: Option<NodeRecord>,
    inputs: Option<Fingerprint>, now: real
  ): NodeRecord
  {
    var s := r.(previous := Some(r.status), status := status, endedAt := Some(now),
                dependencyStatus := deps, inputs := inputs);
    if status.SkippedAlreadySatisfied? && prior.Some? then
      var p := prior.value;
      s.(outputs := p.outputs, checkpoint := p.checkpoint, counts := p.counts,
         reusedFrom := Some(if p.reusedFrom.Some? then p.reusedFrom.value else p.common.runId))
    else s
  }

  function Reconciled(r: NodeRecord, now: real): NodeRecord {
    if !Terminal(r.status) || r.uncertain then
      r.(previous := Some(r.status), status := Cancelled, uncertain := false, endedAt := Some(now),
         retryable := false)
    else r
  }

  // ----- Guarded transactions -----

  /** `_running`: the run exists, is RUNNING, and belongs to `owner` when one is given. */
  predicate Runs(t: Tables, run: RunId, owner: Option<nat>) {
    && run in t.runs
    && t.runs[run].status.RunRunning?
    && (owner.Some? ==> t.runs[run].owner == owner.value)
  }

  function NodeEntry(kind: EventType, r: NodeRecord): Outcome<seq<Entry>> {
    Ok([Entry(kind, NodePayload(r))])
  }

  function BeginCommon(t: Tables, request: RunRequest, cfg: Config): Common {
    var parent :=
      if request.mode.ForceRerun? && t.runOrder != [] then Some(t.runOrder[|t.runOrder| - 1])
      else if request.parent.Some? && request.parent.value in t.runs then request.parent
      else None;
    Common(t.sequence + 1, request.businessKey, parent, cfg, request.mode, request.origin)
  }

  function CreateEntries(common: Common, plan: seq<NodeId>): seq<Entry> {
    seq(|plan|, i requires 0 <= i < |plan| => Entry(NodeCreated, NodePayload(NewNode(common, plan[i]))))
  }

  /** The checks of `begin_run`, in their order. */
  function BeginRefusal(t: Tables, request: RunRequest): Option<Failure> {
    if exists id | id in t.runs :: Open(t.runs[id].status) then Some(CLAIM_COLLISION)
    else if request.mode.Normal? && t.runOrder != [] then Some(Workflow("RUN_EXISTS"))
    else if request.mode.Resume? || request.mode.ForceRestart? then
      if || request.parent.None? || request.parent.value !in t.runs || t.runOrder == []
         || request.parent.value != t.runOrder[|t.runOrder| - 1]
      then Some(Workflow("INVALID_PARENT"))
      else if request.mode.Resume? && !t.runs[request.parent.value].status.RunFailed? then
        Some(Workflow("INVALID_PARENT"))
      else None
    else None
  }

  function NewRun(t: Tables, request: RunRequest, cfg: Config, plan: seq<NodeId>, now: real): RunRecord {
    RunRecord(BeginCommon(t, request, cfg), RunRunning, t.sequence + 1, |t.runOrder| + 1, now, None, plan)
  }

  function DecideBegin(t: Tables, request: RunRequest, cfg: Config, plan: seq<NodeId>, now: real)
    : Outcome<seq<Entry>>
  {
    if BeginRefusal(t, request).Some? then Err(BeginRefusal(t, request).value)
    else
      var run := NewRun(t, request, cfg, plan, now);
      Ok([Entry(RunStarted, RunPayload(run))] + CreateEntries(run.common, plan))
  }

  function DecidePrepare(
    t: Tables, run: RunId, node: NodeId, owner: nat, inputs: Fingerprint,
    deps: map<NodeId, Status>, readyAt: real
  ): Outcome<seq<Entry>>
  {
    var recs := NodesOf(t, run);
    if !Runs(t, run, Some(owner)) || node !in recs then Err(CLAIM_COLLISION)
    else
      var r := recs[node];
      if !r.status.Pending? && !r.status.Failed? && !r.status.TimedOut? then Err(CLAIM_COLLISION)
      else if r.uncertain then Err(Workflow("RECONCILIATION_REQUIRED"))
      else NodeEntry(if r.attempt > 0 then RetryScheduled else NodeReady,
                     Prepared(r, inputs, deps, readyAt, t.sequence + 1))
  }

  function DecideClaim(t: Tables, ctx: Context, now: real): Outcome<seq<Entry>> {
    var recs := NodesOf(t, ctx.runId);
    if !Runs(t, ctx.runId, None) || ctx.nodeId !in recs then Err(CLAIM_COLLISION)
    else
      var r := recs[ctx.nodeId];
      if && r.status.Ready? && r.claim == Some(ctx.claim) && r.attempt == ctx.attempt
         && r.inputs == Some(ctx.inputs) && r.common.config == ctx.config
      then NodeEntry(AttemptClaimed, Claimed(r, now))
      else Err(CLAIM_COLLISION)
  }

  predicate Holds(r: NodeRecord, ctx: Context) {
    r.claim == Some(ctx.claim) && r.attempt == ctx.attempt
  }

  predicate CheckpointCommits(res: Result) {
    && res.outputs != map[]
    && res.checkpoint.Some?
    && res.checkpoint.value.outputs == Outputs(res.outputs)
  }

  function DecideFinish(t: Tables, ctx: Context, res: Result, now: real): Outcome<seq<Entry>> {
    var recs := NodesOf(t, ctx.runId);
    if !Runs(t, ctx.runId, None) || ctx.nodeId !in recs then Err(CLAIM_COLLISION)
    else
      var r := recs[ctx.nodeId];
      if !Holds(r, ctx) then Err(CLAIM_COLLISION)
      else if Terminal(r.status) then Ok([])
      else if !r.status.Running? && !(r.status.Ready? && res.allowReady) then Err(CLAIM_COLLISION)
      else if res.status.Succeeded? && !CheckpointCommits(res) then Err(Workflow("MISSING_CHECKPOINT"))
      else NodeEntry(AttemptFinished, Finished(r, res, now > ctx.deadline, now))
  }

  function DecideSkip(
    t: Tables, run: RunId, node: NodeId, owner: nat, status: Status, deps: map<NodeId, Status>,
    prior: Option<NodeRecord>, inputs: Option<Fingerprint>, now: real
  ): Outcome<seq<Entry>>
  {
    var recs := NodesOf(t, run);
    if !Runs(t, run, Some(owner)) || node !in recs then Err(CLAIM_COLLISION)
    else
      var r := recs[node];
      if !r.status.Pending? && !(status.Cancelled? && r.status.Ready?) then Err(CLAIM_COLLISION)
      else if status.SkippedAlreadySatisfied? && (prior.None? || !Success(prior.value.status)) then
        Err(Workflow("UNPROVEN_SKIP"))
      else NodeEntry(if status.Blocked? || status.Cancelled? then NodeBlocked else NodeSkipped,
                     Skipped(r, status, deps, prior, inputs, now))
  }

  function DecideRemote(t: Tables, ctx: Context, remote: int): Outcome<seq<Entry>> {
    var recs := NodesOf(t, ctx.runId);
    if !Runs(t, ctx.runId, None) || ctx.nodeId !in recs then Err(CLAIM_COLLISION)
    else
      var r := recs[ctx.nodeId];
      if r.claim != Some(ctx.claim) then Err(CLAIM_COLLISION)
      else NodeEntry(RemoteRunSubmitted, r.(remote := Some(remote)))
  }

  const INVALID_OPERATION := Workflow("INVALID_OPERATION")

  /** An operation name: a lower-case letter, then at most 63 lower-case letters, digits or underscores. */
  predicate ValidOperation(operation: string) {
    && 1 <= |operation| <= 64
    && 'a' <= operation[0] <= 'z'
    && forall i | 0 < i < |operation| ::
         'a' <= operation[i] <= 'z' || '0' <= operation[i] <= '9' || operation[i] == '_'
  }

  function DecideOutbox(t: Tables, ctx: Context, digest: string, reference: Reference, operation: string)
    : Outcome<seq<Entry>>
  {
    var recs := NodesOf(t, ctx.runId);
    var effect := EffectId(ctx.nodeId, operation);
    if !ValidOperation(operation) then Err(INVALID_OPERATION)
    else if !Runs(t, ctx.runId, None) || ctx.nodeId !in recs then Err(CLAIM_COLLISION)
    else if !recs[ctx.nodeId].status.Running? || recs[ctx.nodeId].claim != Some(ctx.claim) then
      Err(CLAIM_COLLISION)
    else if effect !in t.outbox then
      Ok([Entry(OutboxCommitted, OutboxPayload(OutboxRecord(effect, ctx.runId, digest, reference, true)))])
    else
      var existing := t.outbox[effect];
      if existing.payloadDigest != digest then Err(Failure("SIDE_EFFECT_CONFLICT", Business, false))
      else if existing.pendingDispatch && existing.reference != reference then
        Ok([Entry(OutboxReferenceRefreshed, OutboxPayload(existing.(reference := reference)))])
      else Ok([])
  }

  function DecideFinishRun(t: Tables, run: RunId, owner: nat, status: RunStatus, now: real)
    : Outcome<seq<Entry>>
  {
    if !Runs(t, run, Some(owner)) then Err(CLAIM_COLLISION)
    else if && !status.RunRecoveryRequired?
            && exists k | k in NodesOf(t, run) :: !Terminal(NodesOf(t, run)[k].status)
    then Err(Workflow("UNFINISHED_RUN"))
    else Ok([Entry(RunFinished, RunPayload(t.runs[run].(status := status, endedAt := Some(now))))])
  }

  /** One ATTEMPT_RECONCILED entry per node that is nonterminal or uncertain, in creation order. */
  function ReconcileEntries(recs: map<NodeId, NodeRecord>, keys: seq<NodeId>, now: real): seq<Entry> {
    if keys == [] then []
    else
      var k := keys[|keys| - 1];
      ReconcileEntries(recs, keys[..|keys| - 1], now) +
      if k in recs && (!Terminal(recs[k].status) || recs[k].uncertain)
      then [Entry(AttemptReconciled, NodePayload(Reconciled(recs[k], now)))]
      else []
  }

  function ClosedByReconcile(run: RunRecord, now: real): Entry {
    Entry(RunReconciled, RunPayload(run.(status := RunFailed, endedAt := Some(now))))
  }

  function DecideReconcile(t: Tables, run: RunId, workersStopped: bool, reasoned: bool, now: real)
    : Outcome<seq<Entry>>
  {
    if !workersStopped || !reasoned then Err(Workflow("RECONCILIATION_REQUIRED"))
    else if run !in t.runs || !Open(t.runs[run].status) then Err(Workflow("INVALID_RECONCILIATION"))
    else
      Ok(ReconcileEntries(NodesOf(t, run), t.runs[run].plan, now) + [ClosedByReconcile(t.runs[run], now)])
  }

  /** Every call that the orchestrator, a worker or an operator can make on the store. */
  datatype Command =
    | Begin(request: RunRequest, cfg: Config, plan: seq<NodeId>)
    | Prepare(run: RunId, node: NodeId, owner: nat, inputs: Fingerprint, deps: map<NodeId, Status>, delay: real)
    | Claim(ctx: Context)
    | Finish(ctx: Context, result: Result)
    | Skip(run: RunId, node: NodeId, owner: nat, status: Status, deps: map<NodeId, Status>,
           prior: Option<NodeRecord>, skipInputs: Option<Fingerprint>)
    | Remote(ctx: Context, remote: int)
    | PutOutbox(ctx: Context, digest: string, reference: Reference, operation: string)
    | FinishRun(run: RunId, owner: nat, runStatus: RunStatus)
    | Reconcile(run: RunId, workersStopped: bool, reasoned: bool)

  function Decide(t: Tables, c: Command, now: real): Outcome<seq<Entry>> {
    match c
    case Begin(request, cfg, plan) => DecideBegin(t, request, cfg, plan, now)
    case Prepare(run, node, owner, inputs, deps, delay) => DecidePrepare(t, run, node, owner, inputs, deps, now + delay)
    case Claim(ctx) => DecideClaim(t, ctx, now)
    case Finish(ctx, result) => DecideFinish(t, ctx, result, now)
    case Skip(run, node, owner, status, deps, prior, inputs) =>
      DecideSkip(t, run, node, owner, status, deps, prior, inputs, now)
    case Remote(ctx, remote) => DecideRemote(t, ctx, remote)
    case PutOutbox(ctx, digest, reference, operation) => DecideOutbox(t, ctx, digest, reference, operation)
    case FinishRun(run, owner, status) => DecideFinishRun(t, run, owner, status, now)
    case Reconcile(run, stopped, reasoned) => DecideReconcile(t, run, stopped, reasoned, now)
  }

  /** The projection after a call; a raising call leaves it as it was. */
  function After(t: Tables, c: Command, now: real): Tables {
    match Decide(t, c, now)
    case Ok(es) => EvolveAll(t, es)
    case Err(_) => t
  }

  // ----- What the two batch commands do to the projection -----

  /** `t` after `count` events that leave the nodes of `run` as `recs`. */
  function WithNodes(t: Tables, run: RunId, recs: map<NodeId, NodeRecord>, count: nat): Tables {
    t.(sequence := t.sequence + count, nodes := t.nodes[run := recs])
  }

  lemma EvolveNode(t: Tables, run: RunId, recs: map<NodeId, NodeRecord>, count: nat, e: Entry)
    requires e.payload.NodePayload? && e.payload.node.common.runId == run
    ensures Evolve(WithNodes(t, run, recs, count), e)
         == WithNodes(t, run, recs[e.payload.node.nodeId := e.payload.node], count + 1)
  {
    var updated := recs[e.payload.node.nodeId := e.payload.node];
    assert t.nodes[run := recs][run := updated] == t.nodes[run := updated];
  }

  lemma {:induction false} EvolveConcat(t: Tables, a: seq<Entry>, b: seq<Entry>)
    ensures EvolveAll(t, a + b) == EvolveAll(EvolveAll(t, a), b)
  {
    if b == [] {
      assert a + b == a;
    } else {
      EvolveConcat(t, a, b[..|b| - 1]);
      assert (a + b)[..|a + b| - 1] == a + b[..|b| - 1];
    }
  }

  function CreateAll(common: Common, plan: seq<NodeId>): map<NodeId, NodeRecord> {
    map k | k in plan :: NewNode(common, k)
  }

  lemma {:induction false} EvolveCreate(t: Tables, common: Common, plan: seq<NodeId>)
    requires common.runId in t.nodes && t.nodes[common.runId] == map[]
    ensures EvolveAll(t, CreateEntries(common, plan)) == WithNodes(t, common.runId, CreateAll(common, plan), |plan|)
  {
    var es := CreateEntries(common, plan);
    if plan == [] {
      assert t.nodes[common.runId := CreateAll(common, plan)] == t.nodes;
    } else {
      var init, k := plan[..|plan| - 1], plan[|plan| - 1];
      EvolveCreate(t, common, init);
      assert es[..|es| - 1] == CreateEntries(common, init);
      EvolveNode(t, common.runId, CreateAll(common, init), |init|, es[|es| - 1]);
      assert CreateAll(common, init)[k := NewNode(common, k)] == CreateAll(common, plan);
    }
  }

  function ReconcileAll(recs: map<NodeId, NodeRecord>, keys: seq<NodeId>, now: real): map<NodeId, NodeRecord> {
    map k | k in recs :: if k in keys then Reconciled(recs[k], now) else recs[k]
  }

  ghost predicate Keyed(recs: map<NodeId, NodeRecord>, run: RunId) {
    forall k | k in recs :: recs[k].nodeId == k && recs[k].common.runId == run
  }

  lemma {:induction false} EvolveReconcile(t: Tables, run: RunId, keys: seq<NodeId>, now: real)
    requires run in t.nodes && Keyed(t.nodes[run], run)
    ensures var es := ReconcileEntries(t.nodes[run], keys, now);
            EvolveAll(t, es) == WithNodes(t, run, ReconcileAll(t.nodes[run], keys, now), |es|)
  {
    var recs := t.nodes[run];
    if keys == [] {
      assert ReconcileAll(recs, keys, now) == recs;
      assert t.nodes[run := recs] == t.nodes;
    } else {
      var init, k := keys[..|keys| - 1], keys[|keys| - 1];
      EvolveReconcile(t, run, init, now);
      var head, mid := ReconcileEntries(recs, init, now), ReconcileAll(recs, init, now);
      assert keys == init + [k];
      if k in recs && (!Terminal(recs[k].status) || recs[k].uncertain) {
        var e := Entry(AttemptReconciled, NodePayload(Reconciled(recs[k], now)));
        EvolveConcat(t, head, [e]);
        EvolveOne(EvolveAll(t, head), e);
        EvolveNode(t, run, mid, |head|, e);
        MergeLast(recs, init, k, now);
      } else {
        assert ReconcileAll(recs, keys, now) == mid;
        assert head + [] == head;
      }
    }
  }

  lemma MergeLast(recs: map<NodeId, NodeRecord>, init: seq<NodeId>, k: NodeId, now: real)
    requires k in recs
    ensures ReconcileAll(recs, init, now)[k := Reconciled(recs[k], now)] == ReconcileAll(recs, init + [k], now)
  {
  }
}
