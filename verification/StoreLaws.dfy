/** What each call on the control store promises, in the terms of runs, records and statuses alone. */
module StoreLaws {
  import opened Model
  import opened ControlLog
  import opened StoreInvariants
  import opened StoreHistory

  // ----- Beginning a run -----

  /** The latest run of the scope. */
  function Latest(t: Tables): Option<RunId> {
    if t.runOrder == [] then None else Some(t.runOrder[|t.runOrder| - 1])
  }

  /** When a run may begin: all runs are over, and the mode fits the history. A normal run is the first one; a
      resume names the latest run, which failed; a forced restart names the latest run, however it ended; a forced
      rerun needs nothing. */
  ghost predicate Admits(t: Tables, request: RunRequest) {
    && (forall run | run in t.runs :: t.runs[run].status in {RunFailed, RunSucceeded})
    && match request.mode
       case Normal => t.runOrder == []
       case Resume =>
         && request.parent.Some? && request.parent == Latest(t) && request.parent.value in t.runs
         && t.runs[request.parent.value].status == RunFailed
       case ForceRestart => request.parent.Some? && request.parent == Latest(t) && request.parent.value in t.runs
       case ForceRerun => true
  }

  /** What is raised otherwise. */
  ghost function Objection(t: Tables, request: RunRequest): Failure {
    if exists run | run in t.runs :: t.runs[run].status in {RunRunning, RunRecoveryRequired} then CLAIM_COLLISION
    else if request.mode == Normal then Workflow("RUN_EXISTS")
    else Workflow("INVALID_PARENT")
  }

  lemma BeginsExactly(t: Tables, request: RunRequest, cfg: Config, plan: seq<NodeId>, now: real)
    ensures BeginRefusal(t, request) == if Admits(t, request) then None else Some(Objection(t, request))
    ensures var begun := Decide(t, Begin(request, cfg, plan), now);
            if Admits(t, request) then begun.Ok? else begun == Err(Objection(t, request))
  {
    forall run | run in t.runs
      ensures Open(t.runs[run].status) <==> t.runs[run].status in {RunRunning, RunRecoveryRequired}
      ensures !Open(t.runs[run].status) <==> t.runs[run].status in {RunFailed, RunSucceeded}
    {
    }
  }

  /** The parent of a new run: the run that a resume or a restart names, the latest run for a rerun, and none for
      the first run. */
  lemma NewParent(t: Tables, request: RunRequest, cfg: Config, plan: seq<NodeId>, now: real)
    requires StoreOk(t) && Admits(t, request)
    ensures NewRun(t, request, cfg, plan, now).common.parent == Latest(t)
  {
    BeginsExactly(t, request, cfg, plan, now);
    BeginParent(t, request, cfg, plan, now);
  }

  /** A run is added to the tables: of the requested configuration, RUNNING from now, numbered after the runs before
      it and with the latest of them as parent. */
  ghost predicate Added(
    t: Tables, t': Tables, id: RunId, request: RunRequest, cfg: Config, plan: seq<NodeId>, now: real
  ) {
    && id !in t.runs && id in t'.runs && t'.runOrder == t.runOrder + [id]
    && t'.runs[id].status == RunRunning && t'.runs[id].attempt == |t.runs| + 1 && t'.runs[id].plan == plan
    && t'.runs[id].owner == id && t'.runs[id].startedAt == now && t'.runs[id].endedAt.None?
    && t'.runs[id].common == Common(id, request.businessKey, Latest(t), cfg, request.mode, request.origin)
  }

  /** Nothing else changes. */
  ghost predicate OthersSame(t: Tables, t': Tables, id: RunId) {
    && t'.outbox == t.outbox && t'.runs.Keys == t.runs.Keys + {id}
    && forall o | o in t.runs :: t'.runs[o] == t.runs[o] && NodesOf(t', o) == NodesOf(t, o)
  }

  /** The run has one PENDING record per planned node, without an attempt. */
  ghost predicate AllNew(recs: map<NodeId, NodeRecord>, plan: seq<NodeId>, common: Common) {
    && recs.Keys == (set k | k in plan)
    && forall k | k in recs ::
         recs[k].status == Pending && recs[k].attempt == 0 && recs[k].nodeId == k && recs[k].common == common
  }

  ghost predicate Begun(t: Tables, t': Tables, request: RunRequest, cfg: Config, plan: seq<NodeId>, now: real) {
    var id := t.sequence + 1;
    && Added(t, t', id, request, cfg, plan, now) && OthersSame(t, t', id)
    && AllNew(NodesOf(t', id), plan, t'.runs[id].common)
  }

  lemma BegunRecords(t: Tables, request: RunRequest, cfg: Config, plan: seq<NodeId>, now: real)
    requires StoreOk(t) && Admits(t, request)
    ensures Begun(t, After(t, Begin(request, cfg, plan), now), request, cfg, plan, now)
  {
    BeginsExactly(t, request, cfg, plan, now);
    NewParent(t, request, cfg, plan, now);
    FreshRun(t);
    OrderCounts(t);
    hide RunOk, Link, Begun, Admits, BeginRefusal;
    var t', run := BeginTables(t, request, cfg, plan, now);
    TablesBegun(t, run, request, cfg, plan, now);
  }

  lemma TablesBegun(
    t: Tables, run: RunRecord, request: RunRequest, cfg: Config, plan: seq<NodeId>, now: real
  )
    requires t.sequence + 1 !in t.runs && t.runs.Keys == t.nodes.Keys && run.attempt == |t.runs| + 1
    requires run.common == Common(t.sequence + 1, request.businessKey, Latest(t), cfg, request.mode, request.origin)
    requires run.status == RunRunning && run.plan == plan
    requires run.owner == t.sequence + 1 && run.startedAt == now && run.endedAt.None?
    ensures Begun(t, WithNodes(Evolve(t, Entry(RunStarted, RunPayload(run))), run.common.runId,
                               CreateAll(run.common, plan), |plan|), request, cfg, plan, now)
  {
    hide CreateAll, NewNode, Evolve, WithNodes, OthersSame, AllNew;
    NewTables(t, run, CreateAll(run.common, plan), |plan|);
    CreatedRecords(run.common, plan);
    SameOthers(t, run, CreateAll(run.common, plan), |plan|);
  }

  lemma SameOthers(t: Tables, run: RunRecord, recs: map<NodeId, NodeRecord>, count: nat)
    requires run.common.runId !in t.runs && run.common.runId !in t.nodes
    ensures var id := run.common.runId;
            OthersSame(t, Tables(t.sequence + 1 + count, t.runOrder + [id], t.runs[id := run], t.nodes[id := recs],
                                 t.outbox), id)
  {
  }

  lemma NewTables(t: Tables, run: RunRecord, recs: map<NodeId, NodeRecord>, count: nat)
    requires run.common.runId !in t.runs && run.common.runId !in t.nodes
    ensures var id := run.common.runId;
            WithNodes(Evolve(t, Entry(RunStarted, RunPayload(run))), id, recs, count) ==
            Tables(t.sequence + 1 + count, t.runOrder + [id], t.runs[id := run], t.nodes[id := recs], t.outbox)
  {
  }

  lemma CreatedRecords(common: Common, plan: seq<NodeId>)
    ensures AllNew(CreateAll(common, plan), plan, common)
  {
  }

  /** Each run is in the order once. */
  lemma OrderCounts(t: Tables)
    requires Chained(t)
    ensures |t.runs| == |t.runOrder|
  {
    hide Link;
    DistinctCounts(t.runOrder, t.runs.Keys);
    assert |t.runs| == |t.runs.Keys|;
  }

  lemma {:induction false} DistinctCounts<T>(list: seq<T>, members: set<T>)
    requires members == (set x | x in list) && forall i, j | 0 <= i < j < |list| :: list[i] != list[j]
    ensures |members| == |list|
  {
    if list != [] {
      var init, last := list[..|list| - 1], list[|list| - 1];
      assert list == init + [last];
      assert members == (set x | x in init) + {last} && last !in init;
      DistinctCounts(init, set x | x in init);
    }
  }

  /** The status of the latest run decides on what may follow. */
  lemma WhatFollows(t: Tables, run: RunId, request: RunRequest, cfg: Config, plan: seq<NodeId>, now: real)
    requires StoreOk(t) && Latest(t) == Some(run) && run in t.runs && request.parent == Some(run)
    ensures var begun := Decide(t, Begin(request, cfg, plan), now);
            match t.runs[run].status
            case RunFailed => begun.Ok? <==> request.mode != Normal
            case RunSucceeded =>
              && (begun.Ok? <==> request.mode == ForceRestart || request.mode == ForceRerun)
              && (request.mode == Resume ==> begun == Err(Workflow("INVALID_PARENT")))
            case _ => begun == Err(CLAIM_COLLISION)
  {
    hide RunOk, RecordOk;
    BeginsExactly(t, request, cfg, plan, now);
    if !Open(t.runs[run].status) {
      forall o | o in t.runs ensures t.runs[o].status in {RunFailed, RunSucceeded} {
        if Open(t.runs[o].status) {
          OpenIsLast(t, o);
        }
      }
    }
  }

  /** A run that failed, or was reconciled, can be resumed; one that succeeded cannot. */
  lemma FinishedRunsFollow(
    t: Tables, c: Command, run: RunId, request: RunRequest, cfg: Config, plan: seq<NodeId>, now: real, later: real
  )
    requires StoreOk(t) && Conventional(t, c) && Decide(t, c, now).Ok?
    requires (c.FinishRun? || c.Reconcile?) && run == c.run && request.mode == Resume && request.parent == Some(run)
    ensures var begun := Decide(After(t, c, now), Begin(request, cfg, plan), later);
            && (c.Reconcile? || c.runStatus == RunFailed ==> begun.Ok?)
            && (c.FinishRun? && c.runStatus == RunSucceeded ==> begun == Err(Workflow("INVALID_PARENT")))
            && (c.FinishRun? && c.runStatus == RunRecoveryRequired ==> begun == Err(CLAIM_COLLISION))
  {
    hide RunOk, RecordOk;
    CallKeeps(t, c, now);
    OverRun(t, c, now);
    WhatFollows(After(t, c, now), run, request, cfg, plan, later);
  }

  /** The run that such a call ends is the latest one, and has the status of the call. */
  lemma OverRun(t: Tables, c: Command, now: real)
    requires StoreOk(t) && (c.FinishRun? || c.Reconcile?) && Decide(t, c, now).Ok?
    ensures var t' := After(t, c, now);
            && Latest(t') == Some(c.run) && c.run in t'.runs
            && t'.runs[c.run].status == if c.FinishRun? then c.runStatus else RunFailed
  {
    hide RecordOk;
    OpenIsLast(t, c.run);
    assert RunOk(t, c.run);
    if c.FinishRun? {
      var es := Decide(t, c, now).value;
      assert es == [es[0]];
      EvolveOne(t, es[0]);
    } else {
      ReconciledRun(t, c, now);
    }
  }

  // ----- Attempts -----

  /** The record of node `k` in a RUNNING run. */
  ghost predicate InRun(t: Tables, run: RunId, k: NodeId) {
    run in t.runs && t.runs[run].status == RunRunning && k in NodesOf(t, run)
  }

  /** The call replaces the record of one node, with one event of this kind; nothing else changes. */
  ghost predicate Replaces(t: Tables, c: Command, now: real, run: RunId, k: NodeId, kind: EventType) {
    && k in NodesOf(t, run) && k in NodesOf(After(t, c, now), run)
    && var r := NodesOf(After(t, c, now), run)[k];
    && Decide(t, c, now) == Ok([Entry(kind, NodePayload(r))])
    && After(t, c, now) == WithNodes(t, run, NodesOf(t, run)[k := r], 1)
  }

  lemma ReplacedBy(t: Tables, c: Command, now: real) returns (kind: EventType, r: NodeRecord)
    requires StoreOk(t) && OnNode(c) && Decide(t, c, now).Ok? && Decide(t, c, now).value != []
    ensures Replaces(t, c, now, TargetRun(c), TargetNode(c), kind)
    ensures NodesOf(After(t, c, now), TargetRun(c))[TargetNode(c)] == r
    ensures Decide(t, c, now) == Ok([Entry(kind, NodePayload(r))])
  {
    hide Decide, RecordOk, RunOk, Evolve;
    kind, r := NodeStep(t, c, now);
  }

  /** It is the same node's record. */
  ghost predicate SameNode(r: NodeRecord, r': NodeRecord) {
    r'.common == r.common && r'.nodeId == r.nodeId && r'.critical == r.critical
  }

  /** A new attempt keeps nothing of the attempt before it. */
  ghost predicate Afresh(r: NodeRecord, r': NodeRecord) {
    && SameNode(r, r') && r'.attempt == r.attempt + 1 && r'.previous == Some(r.status)
    && r'.outputs == map[] && r'.checkpoint.None? && r'.error.None? && !r'.retryable && !r'.uncertain
    && r'.startedAt.None? && r'.endedAt.None? && r'.duration == 0.0 && r'.remote.None?
  }

  lemma PreparesExactly(
    t: Tables, run: RunId, k: NodeId, owner: nat, inputs: Fingerprint, deps: map<NodeId, Status>, delay: real,
    now: real, c: Command
  )
    requires StoreOk(t) && c == Prepare(run, k, owner, inputs, deps, delay)
    ensures if && InRun(t, run, k) && t.runs[run].owner == owner
               && NodesOf(t, run)[k].status in {Pending, Failed, TimedOut}
            then if NodesOf(t, run)[k].uncertain then Decide(t, c, now) == Err(Workflow("RECONCILIATION_REQUIRED"))
                 else
                   && Replaces(t, c, now, run, k,
                               if NodesOf(t, run)[k].attempt == 0 then NodeReady else RetryScheduled)
                   && var r := NodesOf(After(t, c, now), run)[k];
                   && Afresh(NodesOf(t, run)[k], r) && r.status == Ready && r.claim == Some(t.sequence + 1)
                   && r.inputs == Some(inputs) && r.dependencyStatus == deps && r.readyAt == now + delay
            else Decide(t, c, now) == Err(CLAIM_COLLISION)
  {
    hide StoreOk, Evolve, After;
    if Decide(t, c, now).Ok? {
      var kind, r := ReplacedBy(t, c, now);
    }
  }

  /** A claim needs the very attempt, claim, fingerprint and configuration of its context. */
  lemma ClaimsExactly(t: Tables, ctx: Context, now: real, c: Command)
    requires StoreOk(t) && c == Claim(ctx)
    ensures if && InRun(t, ctx.runId, ctx.nodeId)
               && var r := NodesOf(t, ctx.runId)[ctx.nodeId];
               && r.status == Ready && r.attempt == ctx.attempt && r.claim == Some(ctx.claim)
               && r.inputs == Some(ctx.inputs) && r.common.config == ctx.config
            then
              && Replaces(t, c, now, ctx.runId, ctx.nodeId, AttemptClaimed)
              && var r, r' := NodesOf(t, ctx.runId)[ctx.nodeId], NodesOf(After(t, c, now), ctx.runId)[ctx.nodeId];
              && r'.status == Running && r'.startedAt == Some(now) && r'.previous == Some(Ready)
              && r' == r.(status := r'.status, startedAt := r'.startedAt, previous := r'.previous)
            else Decide(t, c, now) == Err(CLAIM_COLLISION)
  {
    hide StoreOk, Evolve, After;
    if Decide(t, c, now).Ok? {
      var kind, r := ReplacedBy(t, c, now);
    }
  }

  /** The record holds the claim of the context. */
  ghost predicate Owned(t: Tables, ctx: Context) {
    && InRun(t, ctx.runId, ctx.nodeId)
    && NodesOf(t, ctx.runId)[ctx.nodeId].claim == Some(ctx.claim)
    && NodesOf(t, ctx.runId)[ctx.nodeId].attempt == ctx.attempt
  }

  /** The outcome that a report leaves: a success is kept only in time, with its outputs and checkpoint; whatever
      else is reported carries its error. */
  ghost predicate Outcome(r: NodeRecord, r': NodeRecord, res: Result, late: bool, now: real) {
    && SameNode(r, r') && r'.attempt == r.attempt && r'.claim == r.claim && r'.inputs == r.inputs
    && r'.startedAt == r.startedAt && r'.endedAt == Some(now) && r'.previous == Some(r.status)
    && r'.remote == r.remote && r'.dependencyStatus == r.dependencyStatus && r'.counts == res.counts
    && r'.uncertain == res.uncertain
    && r'.duration == (if r.startedAt.None? || now <= r.startedAt.value then 0.0 else now - r.startedAt.value)
    && (res.status == Succeeded && !late ==>
          r'.status == Succeeded && r'.outputs == res.outputs && r'.checkpoint == res.checkpoint)
    && (res.status == Succeeded && late ==>
          r'.status == TimedOut && r'.error == Some(DEADLINE_EXCEEDED) && r'.retryable)
    && (!(res.status == Succeeded && late) ==>
          && r'.status == res.status && r'.error == res.error
          && (r'.retryable <==> res.error.Some? && res.error.value.retryable))
    && (r'.status != Succeeded ==> r'.outputs == map[] && r'.checkpoint.None?)
  }

  lemma FinishesExactly(t: Tables, ctx: Context, res: Result, now: real, c: Command)
    requires StoreOk(t) && c == Command.Finish(ctx, res)
    ensures if !Owned(t, ctx) then Decide(t, c, now) == Err(CLAIM_COLLISION)
            else
              match NodesOf(t, ctx.runId)[ctx.nodeId].status
              case Pending => Decide(t, c, now) == Err(CLAIM_COLLISION)
              case Ready =>
                if res.allowReady then Lands(t, ctx, res, now, c) else Decide(t, c, now) == Err(CLAIM_COLLISION)
              case Running => Lands(t, ctx, res, now, c)
              case _ => Decide(t, c, now) == Ok([])
  {
    hide StoreOk, Evolve, After, Finished, Outcome;
    if Decide(t, c, now).Ok? && Decide(t, c, now).value != [] {
      var kind, r := ReplacedBy(t, c, now);
      FinishedIsOutcome(NodesOf(t, ctx.runId)[ctx.nodeId], res, now > ctx.deadline, now);
    }
  }

  /** A report on a claimed attempt is recorded, but for a success without outputs and their checkpoint. */
  ghost predicate Lands(t: Tables, ctx: Context, res: Result, now: real, c: Command) {
    if && res.status == Succeeded
       && (res.outputs == map[] || res.checkpoint.None? || res.checkpoint.value.outputs != Outputs(res.outputs))
    then Decide(t, c, now) == Err(Workflow("MISSING_CHECKPOINT"))
    else
      && Replaces(t, c, now, ctx.runId, ctx.nodeId, AttemptFinished)
      && Outcome(NodesOf(t, ctx.runId)[ctx.nodeId], NodesOf(After(t, c, now), ctx.runId)[ctx.nodeId], res,
                 now > ctx.deadline, now)
  }

  lemma FinishedIsOutcome(r: NodeRecord, res: Result, late: bool, now: real)
    ensures Outcome(r, Finished(r, res, late, now), res, late, now)
  {
  }

  /** A node that has not been dispatched can be skipped, and a READY one only cancelled; a reuse needs a prior
      success, and carries its outputs, checkpoint and counts. */
  lemma SkipsExactly(
    t: Tables, run: RunId, k: NodeId, owner: nat, status: Status, deps: map<NodeId, Status>,
    prior: Option<NodeRecord>, inputs: Option<Fingerprint>, now: real, c: Command
  )
    requires StoreOk(t) && c == Skip(run, k, owner, status, deps, prior, inputs)
    ensures if && InRun(t, run, k) && t.runs[run].owner == owner
               && (NodesOf(t, run)[k].status == Pending || (NodesOf(t, run)[k].status == Ready && status == Cancelled))
            then if && status == SkippedAlreadySatisfied
                    && (prior.None? || prior.value.status !in {Succeeded, SkippedAlreadySatisfied})
                 then Decide(t, c, now) == Err(Workflow("UNPROVEN_SKIP"))
                 else
                   && Replaces(t, c, now, run, k, if status in {Blocked, Cancelled} then NodeBlocked else NodeSkipped)
                   && Passed(NodesOf(t, run)[k], NodesOf(After(t, c, now), run)[k], status, deps, prior, inputs, now)
            else Decide(t, c, now) == Err(CLAIM_COLLISION)
  {
    hide StoreOk, Evolve, After, Skipped, Passed;
    if Decide(t, c, now).Ok? {
      var kind, r := ReplacedBy(t, c, now);
      SkippedIsPassed(NodesOf(t, run)[k], status, deps, prior, inputs, now);
    }
  }

  ghost predicate Passed(
    r: NodeRecord, r': NodeRecord, status: Status, deps: map<NodeId, Status>, prior: Option<NodeRecord>,
    inputs: Option<Fingerprint>, now: real
  ) {
    && SameNode(r, r') && r'.attempt == r.attempt && r'.claim == r.claim && r'.status == status
    && r'.previous == Some(r.status) && r'.endedAt == Some(now) && r'.dependencyStatus == deps && r'.inputs == inputs
    && r'.error == r.error && r'.uncertain == r.uncertain && r'.duration == r.duration
    && if status == SkippedAlreadySatisfied && prior.Some? then
         && r'.outputs == prior.value.outputs && r'.checkpoint == prior.value.checkpoint
         && r'.counts == prior.value.counts
         && r'.reusedFrom == if prior.value.reusedFrom.Some? then prior.value.reusedFrom
                             else Some(prior.value.common.runId)
       else
         && r'.outputs == r.outputs && r'.checkpoint == r.checkpoint && r'.counts == r.counts
         && r'.reusedFrom == r.reusedFrom
  }

  lemma SkippedIsPassed(
    r: NodeRecord, status: Status, deps: map<NodeId, Status>, prior: Option<NodeRecord>,
    inputs: Option<Fingerprint>, now: real
  )
    ensures Passed(r, Skipped(r, status, deps, prior, inputs, now), status, deps, prior, inputs, now)
  {
  }

  /** The id of a remote run is recorded for whoever holds the claim, whatever became of the attempt. */
  lemma RemotesExactly(t: Tables, ctx: Context, remote: int, now: real, c: Command)
    requires StoreOk(t) && c == Remote(ctx, remote)
    ensures if InRun(t, ctx.runId, ctx.nodeId) && NodesOf(t, ctx.runId)[ctx.nodeId].claim == Some(ctx.claim)
            then
              && Replaces(t, c, now, ctx.runId, ctx.nodeId, RemoteRunSubmitted)
              && NodesOf(After(t, c, now), ctx.runId)[ctx.nodeId]
              == NodesOf(t, ctx.runId)[ctx.nodeId].(remote := Some(remote))
            else Decide(t, c, now) == Err(CLAIM_COLLISION)
  {
    hide StoreOk, Evolve, After;
    if Decide(t, c, now).Ok? {
      var kind, r := ReplacedBy(t, c, now);
    }
  }

  // ----- Ending a run -----

  /** A run is closed by its owner once no node is unfinished, or marked for recovery at any time. */
  lemma RunsEndExactly(t: Tables, run: RunId, owner: nat, status: RunStatus, now: real, c: Command)
    requires StoreOk(t) && c == FinishRun(run, owner, status)
    ensures if run in t.runs && t.runs[run].status == RunRunning && t.runs[run].owner == owner
            then if && status != RunRecoveryRequired
                    && exists k | k in NodesOf(t, run) :: NodesOf(t, run)[k].status in {Pending, Ready, Running}
                 then Decide(t, c, now) == Err(Workflow("UNFINISHED_RUN"))
                 else Decide(t, c, now).Ok? && Ended(t, After(t, c, now), run, status, now)
            else Decide(t, c, now) == Err(CLAIM_COLLISION)
  {
    hide StoreOk, After, Ended, Terminal;
    UnfinishedStatuses(NodesOf(t, run));
    if Decide(t, c, now).Ok? {
      EndsRun(t, c, now);
    }
  }

  lemma UnfinishedStatuses(recs: map<NodeId, NodeRecord>)
    ensures forall k | k in recs :: !Terminal(recs[k].status) <==> recs[k].status in {Pending, Ready, Running}
  {
  }

  lemma EndsRun(t: Tables, c: Command, now: real)
    requires StoreOk(t) && c.FinishRun? && Decide(t, c, now).Ok?
    ensures Ended(t, After(t, c, now), c.run, c.runStatus, now)
  {
    hide RecordOk;
    assert RunOk(t, c.run);
    var es := Decide(t, c, now).value;
    assert es == [es[0]];
    EvolveOne(t, es[0]);
  }

  /** The run has this status and end; everything else is as it was. */
  ghost predicate Ended(t: Tables, t': Tables, run: RunId, status: RunStatus, now: real) {
    && run in t.runs && t'.runs == t.runs[run := t.runs[run].(status := status, endedAt := Some(now))]
    && t'.nodes == t.nodes && t'.runOrder == t.runOrder && t'.outbox == t.outbox
  }

  /** Reconciliation, by an operator who confirms that the workers have stopped and gives a reason, fails an open
      run: what was finished and certain stays, and everything else is CANCELLED, certain, and never retried. */
  lemma ReconcilesExactly(t: Tables, run: RunId, stopped: bool, reasoned: bool, now: real, c: Command)
    requires StoreOk(t) && c == Command.Reconcile(run, stopped, reasoned)
    ensures if !stopped || !reasoned then Decide(t, c, now) == Err(Workflow("RECONCILIATION_REQUIRED"))
            else if run !in t.runs || t.runs[run].status in {RunFailed, RunSucceeded} then
              Decide(t, c, now) == Err(Workflow("INVALID_RECONCILIATION"))
            else Decide(t, c, now).Ok? && SweptRun(t, After(t, c, now), run, now)
  {
    hide StoreOk, After, SweptRun;
    if Decide(t, c, now).Ok? {
      SweepsRun(t, c, now);
    }
  }

  ghost predicate SweptRun(t: Tables, t': Tables, run: RunId, now: real) {
    && run in t.runs && t'.runs == t.runs[run := t.runs[run].(status := RunFailed, endedAt := Some(now))]
    && t'.runOrder == t.runOrder && t'.outbox == t.outbox
    && (forall o | o != run :: NodesOf(t', o) == NodesOf(t, o))
    && NodesOf(t', run).Keys == NodesOf(t, run).Keys
    && forall k | k in NodesOf(t, run) :: Swept(NodesOf(t, run)[k], NodesOf(t', run)[k], now)
  }

  lemma SweepsRun(t: Tables, c: Command, now: real)
    requires StoreOk(t) && c.Reconcile? && Decide(t, c, now).Ok?
    ensures SweptRun(t, After(t, c, now), c.run, now)
  {
    hide RecordOk, Reconciled, Swept, After;
    ReconciledRun(t, c, now);
    assert RunOk(t, c.run);
    forall k | k in NodesOf(t, c.run) ensures Swept(NodesOf(t, c.run)[k], Reconciled(NodesOf(t, c.run)[k], now), now) {
      ReconciledIsSwept(NodesOf(t, c.run)[k], now);
    }
  }

  ghost predicate Swept(r: NodeRecord, r': NodeRecord, now: real) {
    if r.uncertain || r.status in {Pending, Ready, Running} then
      && SameNode(r, r') && r'.status == Cancelled && !r'.uncertain && !r'.retryable && r'.endedAt == Some(now)
      && r'.previous == Some(r.status) && r'.attempt == r.attempt && r'.claim == r.claim && r'.error == r.error
    else r' == r
  }

  lemma ReconciledIsSwept(r: NodeRecord, now: real)
    ensures Swept(r, Reconciled(r, now), now)
  {
  }

  // ----- The outbox -----

  const LETTERS := "abcdefghijklmnopqrstuvwxyz"
  const NAMES := LETTERS + "0123456789_"

  /** The names that the pattern `[a-z][a-z0-9_]{0,63}` matches as a whole. */
  ghost predicate MatchesPattern(operation: string) {
    && operation != "" && operation[0] in LETTERS
    && |operation[1..]| <= 63 && forall c | c in operation[1..] :: c in NAMES
  }

  lemma OperationNames(t: Tables, ctx: Context, digest: string, reference: Reference, operation: string, now: real)
    ensures ValidOperation(operation) <==> MatchesPattern(operation)
    ensures !MatchesPattern(operation) ==>
              Decide(t, Command.PutOutbox(ctx, digest, reference, operation), now) == Err(INVALID_OPERATION)
  {
    if operation != "" {
      Letter(operation[0]);
      forall i | 0 < i < |operation| ensures operation[i] == operation[1..][i - 1] {
        Named(operation[i]);
      }
      forall i | 0 < i < |operation|
        ensures operation[i] in NAMES <==>
                'a' <= operation[i] <= 'z' || '0' <= operation[i] <= '9' || operation[i] == '_'
      {
        Named(operation[i]);
      }
      forall c | c in operation[1..] ensures exists i :: 0 < i < |operation| && operation[i] == c {
        var i :| 0 <= i < |operation[1..]| && operation[1..][i] == c;
        assert operation[i + 1] == c;
      }
    }
  }

  lemma Named(c: char)
    ensures c in NAMES <==> 'a' <= c <= 'z' || '0' <= c <= '9' || c == '_'
  {
    Letter(c);
    Digit(c);
  }

  lemma Letter(c: char)
    ensures c in LETTERS <==> 'a' <= c <= 'z'
  {
    if 'a' <= c <= 'z' {
      assert LETTERS[c as int - 'a' as int] == c;
    }
  }

  lemma Digit(c: char)
    ensures c in "0123456789_" <==> '0' <= c <= '9' || c == '_'
  {
    var names := "0123456789_";
    if '0' <= c <= '9' {
      assert names[c as int - '0' as int] == c;
    } else if c == '_' {
      assert names[10] == c;
    }
  }

  /** An intent is stored once, pending; a repeat with the same content may refresh the reference while it is
      pending; other content is a conflict. */
  lemma OutboxExactly(
    t: Tables, ctx: Context, digest: string, reference: Reference, operation: string, now: real, c: Command
  )
    requires StoreOk(t) && c == Command.PutOutbox(ctx, digest, reference, operation) && ValidOperation(operation)
    ensures var effect := EffectId(ctx.nodeId, operation);
            if && InRun(t, ctx.runId, ctx.nodeId)
               && NodesOf(t, ctx.runId)[ctx.nodeId].status == Running
               && NodesOf(t, ctx.runId)[ctx.nodeId].claim == Some(ctx.claim)
            then if effect !in t.outbox then
                   Files(t, c, now, OutboxCommitted, OutboxRecord(effect, ctx.runId, digest, reference, true))
                 else if t.outbox[effect].payloadDigest != digest then
                   Decide(t, c, now) == Err(Failure("SIDE_EFFECT_CONFLICT", Business, false))
                 else if t.outbox[effect].pendingDispatch && t.outbox[effect].reference != reference then
                   Files(t, c, now, OutboxReferenceRefreshed, t.outbox[effect].(reference := reference))
                 else Decide(t, c, now) == Ok([])
            else Decide(t, c, now) == Err(CLAIM_COLLISION)
  {
    hide RunOk;
    if Decide(t, c, now).Ok? && Decide(t, c, now).value != [] {
      var es := Decide(t, c, now).value;
      assert es == [es[0]];
      EvolveOne(t, es[0]);
    }
  }

  ghost predicate Files(t: Tables, c: Command, now: real, kind: EventType, r: OutboxRecord) {
    && Decide(t, c, now) == Ok([Entry(kind, OutboxPayload(r))])
    && After(t, c, now).outbox == t.outbox[r.effect := r] && After(t, c, now).nodes == t.nodes
    && After(t, c, now).runs == t.runs && After(t, c, now).runOrder == t.runOrder
  }
}
