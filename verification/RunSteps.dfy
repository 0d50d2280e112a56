/** How calls on the control store move the board of one run: the link between the log and `Board`. */
module RunSteps {
  import opened Model
  import opened ControlLog
  import opened StoreInvariants
  import opened StoreHistory
  import opened Parameters
  import opened Board

  function BoardOf(t: Tables, job: Job, active: map<NodeId, Context>, invalid: set<NodeId>): Board {
    Board(NodesOf(t, job.run), active, invalid)
  }

  /** Nothing but the nodes of `run` changed. */
  ghost predicate Framed(t: Tables, t': Tables, run: RunId) {
    && t'.runs == t.runs
    && t'.runOrder == t.runOrder
    && forall q | q != run :: NodesOf(t', q) == NodesOf(t, q)
  }

  /** Nothing changed but, at most, the records of nodes in flight; these keep their attempt, and their
      outcome once they have one. */
  ghost predicate Undisturbed(b: Board, b': Board) {
    && b'.active == b.active && b'.invalid == b.invalid
    && b'.recs.Keys == b.recs.Keys
    && forall k | k in b.recs ::
         && b'.recs[k].attempt == b.recs[k].attempt
         && b'.recs[k].nodeId == b.recs[k].nodeId
         && (k !in b.active ==> b'.recs[k] == b.recs[k])
         && (Terminal(b.recs[k].status) ==> b'.recs[k] == b.recs[k].(remote := b'.recs[k].remote))
  }

  lemma UndisturbedSelf(b: Board)
    ensures Undisturbed(b, b)
  {
  }

  lemma UndisturbedTwice(b: Board, b': Board, b'': Board)
    requires Undisturbed(b, b') && Undisturbed(b', b'')
    ensures Undisturbed(b, b'')
  {
  }

  /** What the scheduler sees of an undispatched node with final dependencies survives the workers. */
  lemma UndisturbedViews(job: Job, b: Board, b': Board, k: NodeId)
    requires Inv(job, b) && Undisturbed(b, b') && k in b.recs && k !in b.active
    requires forall d | d in job.cfg.nodes[k].dependencies :: Final(job, b, d)
    ensures b'.recs[k] == b.recs[k]
    ensures forall d | d in job.cfg.nodes[k].dependencies :: Final(job, b', d)
    ensures Statuses(b'.recs, job.cfg.nodes[k].dependencies) == Statuses(b.recs, job.cfg.nodes[k].dependencies)
    ensures UpstreamOf(b'.recs, job.cfg.nodes[k].dependencies) == UpstreamOf(b.recs, job.cfg.nodes[k].dependencies)
    ensures DependencyProofs(b'.recs, job.cfg.nodes[k].dependencies)
         == DependencyProofs(b.recs, job.cfg.nodes[k].dependencies)
  {
    forall d | d in job.cfg.nodes[k].dependencies ensures b'.recs[d] == b.recs[d] && Final(job, b', d) {
      assert Final(job, b, d);
    }
    SameViews(b.recs, b'.recs, job.cfg.nodes[k].dependencies);
  }

  lemma WithNodesFramed(t: Tables, run: RunId, recs: map<NodeId, NodeRecord>, count: nat)
    ensures Framed(t, WithNodes(t, run, recs, count), run)
    ensures NodesOf(WithNodes(t, run, recs, count), run) == recs
  {
  }

  /** A record-changing call that commits. */
  lemma CallMoves(t: Tables, c: Command, now: real) returns (kind: EventType, r: NodeRecord)
    requires StoreOk(t) && OnNode(c)
    requires Decide(t, c, now).Ok? && Decide(t, c, now).value != []
    ensures Decide(t, c, now).value == [Entry(kind, NodePayload(r))]
    ensures var t' := After(t, c, now);
            && Framed(t, t', TargetRun(c))
            && r.nodeId == TargetNode(c)
            && TargetNode(c) in NodesOf(t, TargetRun(c))
            && NodesOf(t', TargetRun(c)) == NodesOf(t, TargetRun(c))[TargetNode(c) := r]
  {
    kind, r := NodeStep(t, c, now);
    WithNodesFramed(t, TargetRun(c), t.nodes[TargetRun(c)][TargetNode(c) := r], 1);
  }

  // ----- Workers -----

  /** A call by a process that was handed one of the contexts in flight. */
  predicate WorkerCall(job: Job, recs: Records, active: map<NodeId, Context>, c: Command) {
    && (c.Claim? || c.Finish? || c.Remote? || c.PutOutbox?)
    && c.ctx.nodeId in active && active[c.ctx.nodeId] == c.ctx
    && c.ctx.nodeId in job.cfg.nodes
    && (c.Finish? ==> MayReport(job, recs, c.ctx, c.result))
  }

  /** What a sequence of attempted calls leaves: those that may be made take effect, in their order. */
  ghost function Served(
    t: Tables, job: Job, active: map<NodeId, Context>, calls: seq<Command>, now: real
  ): Tables {
    if calls == [] then t
    else
      var before, c := Served(t, job, active, calls[..|calls| - 1], now), calls[|calls| - 1];
      if WorkerCall(job, NodesOf(before, job.run), active, c) then After(before, c, now) else before
  }

  /** The attempt was claimed by its context, in a RUNNING run. */
  ghost predicate Started(t: Tables, ctx: Context) {
    && Runs(t, ctx.runId, None) && ctx.nodeId in NodesOf(t, ctx.runId)
    && var r := NodesOf(t, ctx.runId)[ctx.nodeId];
    && Holds(r, ctx) && (r.status.Running? || Terminal(r.status))
  }

  /** No worker undoes that; and only a report with the same context ends it. */
  lemma StartedStays(t: Tables, job: Job, active: map<NodeId, Context>, ctx: Context, c: Command, now: real)
    requires StoreOk(t) && WorkerCall(job, NodesOf(t, job.run), active, c) && Started(t, ctx)
    requires ctx.nodeId in active && active[ctx.nodeId] == ctx
    ensures After(t, c, now).runs == t.runs ==> Started(After(t, c, now), ctx)
    ensures NodesOf(t, ctx.runId)[ctx.nodeId].status.Running? && !(c.Finish? && c.ctx == ctx) ==>
              && ctx.nodeId in NodesOf(After(t, c, now), ctx.runId)
              && NodesOf(After(t, c, now), ctx.runId)[ctx.nodeId].status.Running?
  {
    hide Decide, StoreOk, MayReport, Finished;
    if Decide(t, c, now).Ok? && Decide(t, c, now).value != [] {
      if OnNode(c) {
        var _, r := CallMoves(t, c, now);
        DecidedRecord(t, c, now, r);
        if c.Finish? {
          ReportedIsTerminal(job, NodesOf(t, job.run), c, NodesOf(t, c.ctx.runId)[c.ctx.nodeId], now);
        }
      } else {
        OutboxLeavesNodes(t, c, now);
      }
    } else {
      assert After(t, c, now) == t;
    }
  }

  /** A claim that is accepted starts the attempt. */
  lemma ClaimStarts(t: Tables, ctx: Context, now: real)
    requires StoreOk(t) && Decide(t, Claim(ctx), now).Ok?
    ensures After(t, Claim(ctx), now).runs == t.runs && Started(After(t, Claim(ctx), now), ctx)
    ensures NodesOf(After(t, Claim(ctx), now), ctx.runId)[ctx.nodeId].status.Running?
  {
    hide StoreOk;
    var _, r := CallMoves(t, Claim(ctx), now);
    DecidedRecord(t, Claim(ctx), now, r);
  }

  /** A started attempt accepts its report: the record is terminal then, and unless it was already, it is what
      the report says. */
  lemma StartedFinishes(t: Tables, ctx: Context, res: Result, now: real)
    requires StoreOk(t) && Started(t, ctx)
    requires res.status.Failed? || res.status.TimedOut? || (res.status.Succeeded? && CheckpointCommits(res))
    ensures var c, was := Command.Finish(ctx, res), NodesOf(t, ctx.runId)[ctx.nodeId];
            && Decide(t, c, now).Ok?
            && ctx.nodeId in NodesOf(After(t, c, now), ctx.runId)
            && var r := NodesOf(After(t, c, now), ctx.runId)[ctx.nodeId];
            && Terminal(r.status)
            && (if was.status.Running? then
                  && Decide(t, c, now).value == [Entry(AttemptFinished, NodePayload(r))]
                  && r == Finished(was, res, now > ctx.deadline, now)
                else Decide(t, c, now).value == [] && After(t, c, now) == t && r == was)
  {
    hide StoreOk, Finished;
    var c, was := Command.Finish(ctx, res), NodesOf(t, ctx.runId)[ctx.nodeId];
    if was.status.Running? {
      var _, r := CallMoves(t, c, now);
      assert r == Finished(was, res, now > ctx.deadline, now);
      FinishedIsTerminal(was, res, now > ctx.deadline, now);
    }
  }

  lemma ReportedIsTerminal(job: Job, recs: Records, c: Command, r: NodeRecord, now: real)
    requires c.Finish? && c.ctx.nodeId in job.cfg.nodes && MayReport(job, recs, c.ctx, c.result)
    ensures var r' := Finished(r, c.result, now > c.ctx.deadline, now);
            Terminal(r'.status) && r'.claim == r.claim && r'.attempt == r.attempt
  {
  }

  lemma FinishedIsTerminal(r: NodeRecord, res: Result, late: bool, now: real)
    requires res.status.Failed? || res.status.TimedOut? || res.status.Succeeded?
    ensures Terminal(Finished(r, res, late, now).status)
  {
  }

  lemma PutUndisturbed(b: Board, r: NodeRecord)
    requires r.nodeId in b.active && r.nodeId in b.recs
    requires r.attempt == b.recs[r.nodeId].attempt && b.recs[r.nodeId].nodeId == r.nodeId
    requires Terminal(b.recs[r.nodeId].status) ==> r == b.recs[r.nodeId].(remote := r.remote)
    ensures Undisturbed(b, Put(b, r))
  {
  }

  /** The record that a worker's call commits. */
  function WorkerRecord(c: Command, r: NodeRecord, now: real): NodeRecord
    requires c.Claim? || c.Remote? || c.Finish?
  {
    if c.Claim? then Claimed(r, now)
    else if c.Remote? then r.(remote := Some(c.remote))
    else Finished(r, c.result, now > c.ctx.deadline, now)
  }

  lemma DecidedRecord(t: Tables, c: Command, now: real, r: NodeRecord)
    requires c.Claim? || c.Remote? || c.Finish?
    requires Decide(t, c, now).Ok? && Decide(t, c, now).value != []
    requires Decide(t, c, now).value[0].payload == NodePayload(r)
    ensures c.ctx.nodeId in NodesOf(t, c.ctx.runId)
    ensures var was := NodesOf(t, c.ctx.runId)[c.ctx.nodeId];
            && r == WorkerRecord(c, was, now)
            && (c.Claim? ==> was.status.Ready?)
            && (c.Finish? ==> was.status.Ready? || was.status.Running?)
  {
  }

  /** What the worker of node `k` does to its record keeps the run's invariant. */
  lemma WorkerRecordKeeps(job: Job, b: Board, t: Tables, c: Command, now: real, r: NodeRecord)
    requires b.recs == NodesOf(t, job.run) && Inv(job, b) && WorkerCall(job, b.recs, b.active, c) && OnNode(c)
    requires c.ctx.runId == job.run
    requires Decide(t, c, now).Ok? && Decide(t, c, now).value != []
    requires Decide(t, c, now).value[0].payload == NodePayload(r)
    ensures c.ctx.nodeId in b.recs && r.nodeId == c.ctx.nodeId
    ensures r.attempt == b.recs[r.nodeId].attempt && Inv(job, Put(b, r))
    ensures Terminal(b.recs[r.nodeId].status) ==> r == b.recs[r.nodeId].(remote := r.remote)
  {
    hide Inv, Put, MayReport, Decide, Finished, Claimed;
    DecidedRecord(t, c, now, r);
    var k := c.ctx.nodeId;
    Basics(job, b, k);
    WorkerRecordShape(c, b.recs[k], now);
    if c.Claim? {
      ClaimKeeps(job, b, k, now);
    } else if c.Remote? {
      RemoteKeeps(job, b, k, c.remote);
    } else {
      ReportKeeps(job, b, k, c.result, now > c.ctx.deadline, now);
    }
  }

  lemma WorkerRecordShape(c: Command, r: NodeRecord, now: real)
    requires c.Claim? || c.Remote? || c.Finish?
    ensures WorkerRecord(c, r, now).nodeId == r.nodeId && WorkerRecord(c, r, now).attempt == r.attempt
  {
  }

  lemma ActiveContext(job: Job, b: Board, k: NodeId)
    requires ValidJob(job) && Inv(job, b) && k in b.active
    ensures k in job.cfg.nodes && b.active[k].nodeId == k && b.active[k].runId == job.run
    ensures forall d | d in job.cfg.nodes[k].dependencies :: Final(job, b, d)
    ensures OutputsPresent(job.cfg.nodes[k].parameters, UpstreamOf(b.recs, job.cfg.nodes[k].dependencies))
  {
    assert NodeInv(job, b, k);
    ParametersResolve(job, k, b.active[k].attempt, b.recs);
  }

  lemma WorkerConventional(t: Tables, job: Job, recs: Records, active: map<NodeId, Context>, c: Command)
    requires WorkerCall(job, recs, active, c)
    ensures Conventional(t, c)
  {
  }

  /** Any call of any worker, whether it commits or raises, keeps the run's invariant and disturbs
      nothing but the records in flight. */
  lemma WorkerCallKeeps(t: Tables, job: Job, b: Board, spare: set<NodeId>, c: Command, now: real)
    requires ValidJob(job) && StoreOk(t) && spare !! b.active.Keys && b.recs == NodesOf(t, job.run)
    requires Inv(job, b) && Resolvable(job, b, spare) && WorkerCall(job, b.recs, b.active, c)
    ensures var b' := BoardOf(After(t, c, now), job, b.active, b.invalid);
            && StoreOk(After(t, c, now)) && Framed(t, After(t, c, now), job.run)
            && Inv(job, b') && Undisturbed(b, b') && Resolvable(job, b', spare)
  {
    if Decide(t, c, now).Ok? && Decide(t, c, now).value != [] {
      WorkerConventional(t, job, b.recs, b.active, c);
      CallKeeps(t, c, now);
      if OnNode(c) {
        RecordCallKeeps(t, job, b, spare, c, now);
      } else {
        OutboxLeavesNodes(t, c, now);
        SameNodes(t, After(t, c, now), job, b);
      }
    } else {
      assert After(t, c, now) == t;
      SameNodes(t, t, job, b);
    }
  }

  lemma SameNodes(t: Tables, t': Tables, job: Job, b: Board)
    requires b.recs == NodesOf(t, job.run)
    requires t'.nodes == t.nodes && t'.runs == t.runs && t'.runOrder == t.runOrder
    ensures Framed(t, t', job.run) && BoardOf(t', job, b.active, b.invalid) == b && Undisturbed(b, b)
  {
  }

  lemma RecordCallKeeps(t: Tables, job: Job, b: Board, spare: set<NodeId>, c: Command, now: real)
    requires ValidJob(job) && StoreOk(t) && spare !! b.active.Keys && b.recs == NodesOf(t, job.run)
    requires Inv(job, b) && Resolvable(job, b, spare) && WorkerCall(job, b.recs, b.active, c) && OnNode(c)
    requires Decide(t, c, now).Ok? && Decide(t, c, now).value != []
    ensures var b' := BoardOf(After(t, c, now), job, b.active, b.invalid);
            && Framed(t, After(t, c, now), job.run)
            && Inv(job, b') && Undisturbed(b, b') && Resolvable(job, b', spare)
  {
    ActiveContext(job, b, c.ctx.nodeId);
    var _, r := CallMoves(t, c, now);
    WorkerRecordKeeps(job, b, t, c, now, r);
    assert b.recs[r.nodeId].nodeId == r.nodeId by {
      assert NodeInv(job, b, r.nodeId);
    }
    PutUndisturbed(b, r);
    ResolvableKept(job, b, r, spare, spare);
    assert BoardOf(After(t, c, now), job, b.active, b.invalid) == Put(b, r);
  }

  lemma OutboxLeavesNodes(t: Tables, c: Command, now: real)
    requires StoreOk(t) && c.PutOutbox?
    ensures After(t, c, now).nodes == t.nodes && After(t, c, now).runs == t.runs
    ensures After(t, c, now).runOrder == t.runOrder
  {
    if Decide(t, c, now).Ok? {
      var es := Decide(t, c, now).value;
      if es != [] {
        assert es == [es[0]];
        EvolveOne(t, es[0]);
      }
    }
  }

  /** A retryable record has final dependencies, like every decided one. */
  lemma RetryableDecided(job: Job, b: Board, k: NodeId)
    requires Inv(job, b) && k in b.recs && Retryable(job.cfg.nodes[k], b.recs[k])
    ensures forall d | d in job.cfg.nodes[k].dependencies :: Final(job, b, d)
  {
    assert NodeInv(job, b, k);
  }

  // ----- The scheduler's own calls never collide -----

  /** The call does not raise, and puts record `r` on the board of the run. */
  ghost predicate Commits(t: Tables, job: Job, b: Board, c: Command, now: real, r: NodeRecord) {
    && Decide(t, c, now).Ok? && Decide(t, c, now).value != []
    && Decide(t, c, now).value[0].payload == NodePayload(r)
    && StoreOk(After(t, c, now)) && Framed(t, After(t, c, now), job.run)
    && BoardOf(After(t, c, now), job, b.active, b.invalid) == Put(b, r)
  }

  lemma CallPuts(t: Tables, job: Job, b: Board, c: Command, now: real, kind: EventType, r: NodeRecord)
    requires StoreOk(t) && OnNode(c) && Conventional(t, c) && b.recs == NodesOf(t, job.run)
    requires TargetRun(c) == job.run && Decide(t, c, now) == NodeEntry(kind, r)
    ensures Commits(t, job, b, c, now, r)
    ensures r.nodeId == TargetNode(c) && r.nodeId in b.recs
  {
    CallKeeps(t, c, now);
    var _, r' := CallMoves(t, c, now);
    assert r' == r;
  }

  lemma PrepareCommits(
    t: Tables, job: Job, b: Board, k: NodeId, owner: nat, inputs: Fingerprint, deps: map<NodeId, Status>,
    delay: real, now: real, c: Command, r: NodeRecord
  )
    requires StoreOk(t) && b.recs == NodesOf(t, job.run) && Runs(t, job.run, Some(owner)) && k in b.recs
    requires b.recs[k].status.Pending? || b.recs[k].status.Failed? || b.recs[k].status.TimedOut?
    requires !b.recs[k].uncertain
    requires c == Prepare(job.run, k, owner, inputs, deps, delay)
    requires r == Prepared(b.recs[k], inputs, deps, now + delay, t.sequence + 1)
    ensures Commits(t, job, b, c, now, r)
  {
    var kind := if b.recs[k].attempt > 0 then RetryScheduled else NodeReady;
    assert DecidePrepare(t, job.run, k, owner, inputs, deps, now + delay) == NodeEntry(kind, r);
    CallPuts(t, job, b, c, now, kind, r);
  }

  lemma SkipCommits(
    t: Tables, job: Job, b: Board, k: NodeId, owner: nat, status: Status, deps: map<NodeId, Status>,
    prior: Option<NodeRecord>, inputs: Option<Fingerprint>, now: real, c: Command, r: NodeRecord
  )
    requires StoreOk(t) && b.recs == NodesOf(t, job.run) && Runs(t, job.run, Some(owner)) && k in b.recs
    requires b.recs[k].status.Pending? || (status.Cancelled? && b.recs[k].status.Ready?)
    requires status.SkippedAlreadySatisfied? ==> prior.Some? && Success(prior.value.status)
    requires c == Skip(job.run, k, owner, status, deps, prior, inputs) && Conventional(t, c)
    requires r == Skipped(b.recs[k], status, deps, prior, inputs, now)
    ensures Commits(t, job, b, c, now, r)
  {
    var kind := if status.Blocked? || status.Cancelled? then NodeBlocked else NodeSkipped;
    assert DecideSkip(t, job.run, k, owner, status, deps, prior, inputs, now) == NodeEntry(kind, r);
    CallPuts(t, job, b, c, now, kind, r);
  }

  /** `finish_attempt(..., FAILED, allow_ready=True)` on an attempt that only the orchestrator has seen. */
  lemma FailureCommits(t: Tables, job: Job, b: Board, ctx: Context, res: Result, now: real, c: Command, r: NodeRecord)
    requires StoreOk(t) && b.recs == NodesOf(t, job.run) && Runs(t, job.run, None) && ctx.nodeId in b.recs
    requires ctx.runId == job.run && Holds(b.recs[ctx.nodeId], ctx)
    requires b.recs[ctx.nodeId].status.Ready? && res.allowReady && res.status.Failed?
    requires c == Finish(ctx, res)
    requires r == Finished(b.recs[ctx.nodeId], res, now > ctx.deadline, now)
    ensures Commits(t, job, b, c, now, r)
  {
    assert DecideFinish(t, ctx, res, now) == NodeEntry(AttemptFinished, r);
    CallPuts(t, job, b, c, now, AttemptFinished, r);
  }
}
