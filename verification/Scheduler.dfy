/** The scheduler loop of one run, on the real control store, with workers interleaved. */
module Scheduler {
  import opened Model
  import opened ControlLog
  import Store = ControlStore
  import opened StoreInvariants
  import opened StoreHistory
  import opened Parameters
  import opened Descendants
  import opened Board
  import opened RunSteps
  import opened Capacity
  import opened Potential
  import opened Triggers
  import opened Planning
  import opened Recovery
  import opened Moments
  import opened Rebuild

  class Scheduler {
    const job: Job
    const world: World
    const store: Store.ControlStore
    const owner: nat
    const parent: Option<RunId>
    const attempted: set<NodeId>
    const approved: set<NodeId>
    const end: real
    ghost const parentConfig: Config
    ghost const start: Tables
    ghost const readings: Readings
    ghost const seeds: set<NodeId>
    ghost const keep: set<NodeId>
    ghost const first: seq<Event>
    var tick: nat
    var active: map<NodeId, Context>
    var invalid: set<NodeId>
    ghost var moments: seq<Moment>
    ghost var lost: set<NodeId>

    constructor (
      job: Job, world: World, store: Store.ControlStore, owner: nat, parent: Option<RunId>,
      attempted: set<NodeId>, approved: set<NodeId>, end: real, invalid: set<NodeId>, ghost parentConfig: Config,
      ghost readings: Readings, ghost keep: set<NodeId>
    )
      requires store.Valid()
      requires Configured(store.Projection(), job, world, owner, parent, parentConfig, store.Projection())
      requires SystemOk(store.Projection(), job.produce, readings, Some(Flight(job, map[], invalid)))
      requires Inv(job, BoardOf(store.Projection(), job, map[], invalid))
      requires Keepable(world, job, end, keep) && Kept(job, BoardOf(store.Projection(), job, map[], invalid), keep)
      ensures Valid() && this.store == store && this.job == job && this.world == world
      ensures tick == 0 && active == map[] && this.invalid == invalid && this.end == end
      ensures this.owner == owner && this.start == store.Projection() && this.readings == readings
      ensures this.keep == keep && first == store.log && lost == {}
    {
      this.job, this.world, this.store, this.owner, this.parent := job, world, store, owner, parent;
      this.attempted, this.approved, this.end, this.parentConfig := attempted, approved, end, parentConfig;
      this.start, this.readings, this.seeds, this.keep := store.Projection(), readings, invalid, keep;
      this.invalid, active, tick, lost := invalid, map[], 0, {};
      first, moments := store.log, [Moment(|store.log|, Flight(job, map[], invalid))];
      new;
      assert store.log[..|store.log|] == store.log;
    }

    ghost function Board(): Board
      reads this`active, this`invalid, store
    {
      BoardOf(store.Projection(), job, active, invalid)
    }

    ghost predicate Setting()
      reads store
    {
      && store.Valid() && Configured(store.Projection(), job, world, owner, parent, parentConfig, start)
      && Rooted() && Keepable(world, job, end, keep)
    }

    /** The scope was in order when the run began. */
    ghost predicate Rooted() {
      SystemOk(start, job.produce, readings, Some(Flight(job, map[], seeds)))
    }

    ghost predicate Valid()
      reads this`active, this`invalid, this`moments, this`lost, store
    {
      Setting() && Inv(job, Board()) && Kept(job, Board(), keep) && Remembered(store.log, moments)
      && Uncertain(Board().recs, lost)
    }

    /** Every moment of the run so far left the scope in order; the last one is the present. */
    ghost predicate Remembered(log: seq<Event>, moments: seq<Moment>)
      reads this`active, this`invalid
    {
      && first <= log && moments != [] && AlwaysInOrder(log, moments, job.produce, readings)
      && moments[0].count == |first| && moments[|moments| - 1].flight == Flight(job, active, invalid)
    }

    lemma PresentInOrder()
      requires Setting() && Inv(job, Board())
      ensures SystemOk(store.Projection(), job.produce, readings, Some(Flight(job, active, invalid)))
    {
      hide Inv, StoreOk, ClosedSound, OpenInFlight, ValidJob, ParentSound, Orderly, Respects, Keepable;
      RunMoves(start, store.Projection(), job.produce, readings, Flight(job, map[], seeds),
          Flight(job, active, invalid));
    }

    /** The present becomes a moment of the run. */
    ghost method Remember(log: seq<Event>)
      requires Setting() && Inv(job, Board())
      requires AlwaysInOrder(log, moments, job.produce, readings) && moments[0].count == |first|
      requires first <= log <= store.log && |store.log| <= |log| + 1
      modifies this`moments
      ensures Remembered(store.log, moments)
    {
      hide Inv, SystemOk;
      PresentInOrder();
      ghost var m := Moment(|store.log|, Flight(job, active, invalid));
      OneMomentMore(log, store.log, moments, m, job.produce, readings);
      MomentsGrow(moments, m);
      moments := moments + [m];
    }

    lemma MomentsGrow(moments: seq<Moment>, m: Moment)
      ensures (moments + [m])[|moments|] == m && (moments != [] ==> (moments + [m])[0] == moments[0])
    {
    }

    method Now() returns (now: real)
      modifies this`tick
      ensures tick == old(tick) + 1 && now == world.clock(old(tick))
    {
      now := world.clock(tick);
      tick := tick + 1;
    }

    /** A call by another process, with the effect that the store gives it. */
    method Serve(c: Command, now: real)
      requires store.Valid() && (c.Claim? || c.Finish? || c.Remote? || c.PutOutbox?)
      modifies store
      ensures store.Valid() && store.log == Step(old(store.log), Call(c, now))
      ensures store.Projection() == After(old(store.Projection()), c, now)
    {
      match c {
        case Claim(ctx) => var _ := store.Claim(ctx, now);
        case Finish(ctx, result) => var _ := store.FinishAttempt(ctx, result, now);
        case Remote(ctx, remote) => var _ := store.RecordRemote(ctx, remote, now);
        case PutOutbox(ctx, digest, reference, operation) =>
          var _ := store.PutOutbox(ctx, digest, reference, operation, now);
      }
      StepFold(old(store.log), Call(c, now));
    }

    method ServeWorker(c: Command, now: real, ghost spare: set<NodeId>)
      requires Valid() && Resolvable(job, Board(), spare) && spare !! active.Keys
      requires WorkerCall(job, Board().recs, active, c)
      modifies this`moments, store
      ensures Valid() && Resolvable(job, Board(), spare) && store.Projection() == After(old(store.Projection()), c, now)
      ensures Undisturbed(old(Board()), Board()) && Framed(old(store.Projection()), store.Projection(), job.run)
    {
      hide Inv, StoreOk, Resolvable, ValidJob, Runs, Undisturbed, After, Step, Keepable, Kept, AlwaysInOrder,
           SystemOk, Uncertain;
      ghost var t, log, b := store.Projection(), store.log, Board();
      WorkerCallKeeps(t, job, b, spare, c, now);
      Serve(c, now);
      OneEventAtMost(log, c, now);
      ConfiguredFrame(t, store.Projection(), job, world, owner, parent, parentConfig, start);
      UndisturbedKept(job, b, Board(), keep);
      UncertainUndisturbed(job, b, Board(), lost);
      Remember(log);
    }

    /** Whatever the workers of this run do on the store before its next access. */
    method Interfere(ghost spare: set<NodeId>)
      requires Valid() && Resolvable(job, Board(), spare) && spare !! active.Keys
      modifies this`tick, this`moments, store
      ensures Valid() && Resolvable(job, Board(), spare) && tick == old(tick) + 1
      ensures Undisturbed(old(Board()), Board()) && Framed(old(store.Projection()), store.Projection(), job.run)
      ensures store.Projection() ==
              Served(old(store.Projection()), job, active, world.calls(old(tick)), world.clock(old(tick)))
    {
      hide Inv, StoreOk, Resolvable, ValidJob, Runs, WorkerCall, After, Undisturbed, Configured, Keepable, Kept,
           AlwaysInOrder, SystemOk, Uncertain;
      UndisturbedSelf(Board());
      var calls := world.calls(tick);
      var now := world.clock(tick);
      for i := 0 to |calls|
        invariant tick == old(tick)
        invariant Valid() && Resolvable(job, Board(), spare)
        invariant Undisturbed(old(Board()), Board()) && Framed(old(store.Projection()), store.Projection(), job.run)
        invariant store.Projection() == Served(old(store.Projection()), job, active, calls[..i], now)
      {
        assert calls[..i + 1][..i] == calls[..i];
        var recs := store.NodesOfRun(job.run);
        if WorkerCall(job, recs, active, calls[i]) {
          ghost var before := Board();
          ServeWorker(calls[i], now, spare);
          UndisturbedTwice(old(Board()), before, Board());
        }
      }
      assert calls[..|calls|] == calls;
      tick := tick + 1;
    }

    // ----- Store calls of the scheduler -----

    lemma Parts()
      requires Valid()
      ensures store.Valid() && Inv(job, Board()) && ValidJob(job) && Kept(job, Board(), keep)
      ensures Configured(store.Projection(), job, world, owner, parent, parentConfig, start)
      ensures StoreOk(store.Projection()) && Runs(store.Projection(), job.run, Some(owner))
      ensures Board().recs == NodesOf(store.Projection(), job.run)
      ensures Board().active == active && Board().invalid == invalid
    {
    }

    lemma Respected()
      requires Valid()
      ensures Respects(world, job.canRead)
    {
    }

    /** A store call that is known to commit record `r`. */
    method Issue(c: Command, now: real, ghost r: NodeRecord) returns (committed: NodeRecord)
      requires Valid() && (c.Prepare? || c.Skip? || c.Finish?)
      requires Commits(store.Projection(), job, Board(), c, now, r)
      requires Inv(job, Put(Board(), r)) && Kept(job, Put(Board(), r), keep)
      requires r.nodeId in Board().recs && !Board().recs[r.nodeId].uncertain
      modifies this`moments, store
      ensures Valid() && committed == r && Board() == Put(old(Board()), r)
    {
      hide Commits, Configured, Put, After, Decide, Inv, Keepable, Kept, AlwaysInOrder, SystemOk, Uncertain;
      ghost var t, log := store.Projection(), store.log;
      UncertainPut(Board(), r, lost);
      Committed(t, Board(), c, now, r);
      if c.Prepare? {
        var outcome := store.Prepare(c.run, c.node, c.owner, c.inputs, c.deps, c.delay, now);
        committed := outcome.value;
      } else if c.Skip? {
        var outcome := store.Skip(c.run, c.node, c.owner, c.status, c.deps, c.prior, c.skipInputs, now);
        committed := outcome.value;
      } else {
        var outcome := store.FinishAttempt(c.ctx, c.result, now);
        committed := outcome.value;
      }
      StepFold(log, Call(c, now));
      OneEventAtMost(log, c, now);
      Remember(log);
    }

    lemma Committed(t: Tables, b: Board, c: Command, now: real, r: NodeRecord)
      requires Configured(t, job, world, owner, parent, parentConfig, start)
      requires Commits(t, job, b, c, now, r)
      ensures Decide(t, c, now).Ok? && Decide(t, c, now).value != []
      ensures Decide(t, c, now).value[0].payload == NodePayload(r)
      ensures Configured(After(t, c, now), job, world, owner, parent, parentConfig, start)
      ensures BoardOf(After(t, c, now), job, b.active, b.invalid) == Put(b, r)
    {
      ConfiguredFrame(t, After(t, c, now), job, world, owner, parent, parentConfig, start);
    }

    /** `prepare`, which cannot collide. */
    method PrepareNode(k: NodeId, inputs: Fingerprint, deps: map<NodeId, Status>, delay: real, ghost spare: set<NodeId>)
      returns (r: NodeRecord)
      requires Valid() && Resolvable(job, Board(), spare) && spare !! active.Keys
      requires MayPrepare(job, Board(), k, spare) && WasRead(job.canRead, Some(inputs))
      requires deps == Statuses(Board().recs, job.cfg.nodes[k].dependencies)
      modifies this`tick, this`moments, store
      ensures Valid() && Resolvable(job, Board(), spare) && tick == old(tick) + 2
      ensures ChangedAt(old(Board()), Board(), k, r)
      ensures r.nodeId == k && r.status.Ready? && r.attempt == old(Board()).recs[k].attempt + 1
      ensures r.inputs == Some(inputs) && r.claim.Some? && !r.uncertain
      ensures r.readyAt == world.clock(tick - 1) + delay
    {
      hide Inv, Resolvable, Undisturbed, ChangedAt, MayPrepare, Statuses, Configured, Put, Framed, ValidJob, Keepable,
           Kept, AlwaysInOrder, SystemOk, Uncertain;
      ghost var b0 := Board();
      Interfere(spare);
      ghost var b := Board();
      MayPrepareStable(job, b0, b, k, spare);
      r := PrepareNow(k, inputs, deps, delay, spare);
      UndisturbedThenPut(b0, b, r);
    }

    method PrepareNow(k: NodeId, inputs: Fingerprint, deps: map<NodeId, Status>, delay: real, ghost spare: set<NodeId>)
      returns (r: NodeRecord)
      requires Valid() && Resolvable(job, Board(), spare)
      requires k in Board().recs && MayPrepare(job, Board(), k, spare) && WasRead(job.canRead, Some(inputs))
      requires deps == Statuses(Board().recs, job.cfg.nodes[k].dependencies)
      modifies this`tick, this`moments, store
      ensures Valid() && Resolvable(job, Board(), spare) && tick == old(tick) + 1
      ensures Board() == Put(old(Board()), r)
      ensures r.nodeId == k && r.status.Ready? && r.attempt == old(Board()).recs[k].attempt + 1
      ensures r.inputs == Some(inputs) && r.claim.Some? && !r.uncertain
      ensures r.readyAt == world.clock(tick - 1) + delay
    {
      hide Inv, Resolvable, StoreOk, MayPrepare, Statuses, Configured, Put, Framed, After, Decide, Commits, ValidJob,
           Runs, Keepable, Kept, AlwaysInOrder, SystemOk, Uncertain;
      Parts();
      ghost var b, t := Board(), store.Projection();
      var now := Now();
      ghost var r0 := Prepared(b.recs[k], inputs, deps, now + delay, t.sequence + 1);
      var c := Prepare(job.run, k, owner, inputs, deps, delay);
      PrepareOnBoard(job, b, k, inputs, deps, now + delay, t.sequence + 1, spare, r0);
      PrepareCommits(t, job, b, k, owner, inputs, deps, delay, now, c, r0);
      PreparedIsOther(job, b, keep, k, spare);
      OtherPutKept(job, b, keep, r0);
      r := Issue(c, now, r0);
    }

    method CancelNode(k: NodeId, deps: map<NodeId, Status>, ghost spare: set<NodeId>) returns (r: NodeRecord)
      requires Valid() && Resolvable(job, Board(), spare) && spare !! active.Keys
      requires MayCancel(job, Board(), k) && k !in keep
      modifies this`tick, this`moments, store
      ensures Valid() && Resolvable(job, Board(), spare) && tick == old(tick) + 2
      ensures ChangedAt(old(Board()), Board(), k, r)
      ensures r.nodeId == k && r.status.Cancelled? && r.attempt == old(Board()).recs[k].attempt && !r.uncertain
    {
      hide Inv, Resolvable, ChangedAt, Configured, Put, Framed, ValidJob, Keepable, Kept, AlwaysInOrder, SystemOk,
           Uncertain;
      ghost var b0 := Board();
      Interfere(spare);
      ghost var b := Board();
      r := CancelNow(k, deps, spare);
      UndisturbedThenPut(b0, b, r);
    }

    method CancelNow(k: NodeId, deps: map<NodeId, Status>, ghost spare: set<NodeId>) returns (r: NodeRecord)
      requires Valid() && Resolvable(job, Board(), spare)
      requires MayCancel(job, Board(), k) && k !in keep
      modifies this`tick, this`moments, store
      ensures Valid() && Resolvable(job, Board(), spare) && tick == old(tick) + 1
      ensures k in old(Board()).recs && Board() == Put(old(Board()), r)
      ensures r.nodeId == k && r.status.Cancelled? && r.attempt == old(Board()).recs[k].attempt && !r.uncertain
    {
      hide Inv, Resolvable, StoreOk, Configured, Put, Framed, After, Decide, Commits, ValidJob, Runs, Keepable, Kept,
           AlwaysInOrder, SystemOk, Uncertain;
      Parts();
      ghost var b, t := Board(), store.Projection();
      var now := Now();
      ghost var r0 := Skipped(b.recs[k], Cancelled, deps, None, None, now);
      var c := Skip(job.run, k, owner, Cancelled, deps, None, None);
      CancelOnBoard(job, b, k, deps, spare, now, r0);
      SkipCommits(t, job, b, k, owner, Cancelled, deps, None, None, now, c, r0);
      OtherPutKept(job, b, keep, r0);
      r := Issue(c, now, r0);
    }

    method SkipNode(
      k: NodeId, status: Status, deps: map<NodeId, Status>, ghost spare: set<NodeId>
    ) returns (r: NodeRecord)
      requires Valid() && Resolvable(job, Board(), spare) && spare !! active.Keys
      requires k !in keep && MaySkip(job, Board(), k, status)
                 && deps == Statuses(Board().recs, job.cfg.nodes[k].dependencies)
      modifies this`tick, this`moments, store
      ensures Valid() && Resolvable(job, Board(), spare) && tick == old(tick) + 2
      ensures ChangedAt(old(Board()), Board(), k, r)
      ensures r.nodeId == k && r.status == status && r.attempt == old(Board()).recs[k].attempt && !r.uncertain
      ensures r.status.Blocked? || r.status.SkippedCondition?
    {
      hide Inv, Resolvable, Undisturbed, ChangedAt, Statuses, Configured, Put, Framed, ValidJob, Keepable, Kept,
           AlwaysInOrder, SystemOk, Uncertain, VerdictOf;
      ghost var b0 := Board();
      Parts();
      Interfere(spare);
      ghost var b := Board();
      MaySkipStable(job, b0, b, k, status);
      r := SkipNow(k, status, deps, spare);
      UndisturbedThenPut(b0, b, r);
    }

    method SkipNow(k: NodeId, status: Status, deps: map<NodeId, Status>, ghost spare: set<NodeId>)
      returns (r: NodeRecord)
      requires Valid() && Resolvable(job, Board(), spare)
      requires k !in keep && MaySkip(job, Board(), k, status)
                 && deps == Statuses(Board().recs, job.cfg.nodes[k].dependencies)
      modifies this`tick, this`moments, store
      ensures Valid() && Resolvable(job, Board(), spare) && tick == old(tick) + 1
      ensures Board() == Put(old(Board()), r)
      ensures r.nodeId == k && r.status == status && r.attempt == old(Board()).recs[k].attempt && !r.uncertain
    {
      hide Inv, Resolvable, StoreOk, Statuses, Configured, Put, Framed, After, Decide, Commits, ValidJob, Runs,
           Keepable, Kept, AlwaysInOrder, SystemOk, Uncertain, VerdictOf;
      Parts();
      ghost var b, t := Board(), store.Projection();
      var now := Now();
      ghost var r0 := Skipped(b.recs[k], status, deps, None, None, now);
      var c := Skip(job.run, k, owner, status, deps, None, None);
      SkipOnBoard(job, b, k, status, deps, spare, now, r0);
      SkipCommits(t, job, b, k, owner, status, deps, None, None, now, c, r0);
      OtherPutKept(job, b, keep, r0);
      r := Issue(c, now, r0);
    }

    method ReuseNode(
      k: NodeId, ghost resolved: Json, ghost contents: Json, inputs: Fingerprint, deps: map<NodeId, Status>,
      ghost spare: set<NodeId>
    ) returns (r: NodeRecord)
      requires Valid() && Resolvable(job, Board(), spare) && spare !! active.Keys
      requires MayReuse(job, Board(), k, resolved, contents, inputs)
      requires deps == Statuses(Board().recs, job.cfg.nodes[k].dependencies)
      modifies this`tick, this`moments, store
      ensures Valid() && Resolvable(job, Board(), spare) && tick == old(tick) + 2
      ensures ChangedAt(old(Board()), Board(), k, r)
      ensures k in job.previous && r.outputs == job.previous[k].outputs && r.checkpoint == job.previous[k].checkpoint
      ensures r.inputs == Some(inputs)
      ensures r.nodeId == k && r.status.SkippedAlreadySatisfied? && r.attempt == old(Board()).recs[k].attempt
                && !r.uncertain
    {
      hide Inv, Resolvable, Undisturbed, ChangedAt, Statuses, MayReuse, Configured, Put, Framed, ValidJob, Keepable,
           Kept, AlwaysInOrder, SystemOk, Uncertain;
      ghost var b0 := Board();
      Interfere(spare);
      ghost var b := Board();
      MayReuseStable(job, b0, b, k, resolved, contents, inputs);
      r := ReuseNow(k, resolved, contents, inputs, deps, spare);
      UndisturbedThenPut(b0, b, r);
    }

    method ReuseNow(
      k: NodeId, ghost resolved: Json, ghost contents: Json, inputs: Fingerprint, deps: map<NodeId, Status>,
      ghost spare: set<NodeId>
    ) returns (r: NodeRecord)
      requires Valid() && Resolvable(job, Board(), spare)
      requires k in Board().recs && Board().recs[k].status.Pending?
                 && MayReuse(job, Board(), k, resolved, contents, inputs)
      requires k in job.previous && Success(job.previous[k].status)
      requires k in job.cfg.nodes && deps == Statuses(Board().recs, job.cfg.nodes[k].dependencies)
      modifies this`tick, this`moments, store
      ensures Valid() && Resolvable(job, Board(), spare) && tick == old(tick) + 1
      ensures Board() == Put(old(Board()), r)
      ensures r.outputs == job.previous[k].outputs && r.checkpoint == job.previous[k].checkpoint
      ensures r.inputs == Some(inputs)
      ensures r.nodeId == k && r.status.SkippedAlreadySatisfied? && r.attempt == old(Board()).recs[k].attempt
                && !r.uncertain
    {
      hide Inv, Resolvable, StoreOk, Statuses, MayReuse, Configured, Put, Framed, After, Decide, Commits, ValidJob,
           Runs, Keepable, Kept, AlwaysInOrder, SystemOk, Uncertain;
      Parts();
      ghost var b, t := Board(), store.Projection();
      var now := Now();
      var prior := Some(job.previous[k]);
      ghost var r0 := Skipped(b.recs[k], SkippedAlreadySatisfied, deps, prior, Some(inputs), now);
      var c := Skip(job.run, k, owner, SkippedAlreadySatisfied, deps, prior, Some(inputs));
      ReuseConventional(t, k, deps, inputs, c);
      ReuseOnBoard(job, b, k, resolved, contents, inputs, deps, parentConfig, spare, now, r0);
      SkipCommits(t, job, b, k, owner, SkippedAlreadySatisfied, deps, prior, Some(inputs), now, c, r0);
      ReusePutKept(job, b, keep, r0);
      r := Issue(c, now, r0);
    }

    lemma ReuseConventional(t: Tables, k: NodeId, deps: map<NodeId, Status>, inputs: Fingerprint, c: Command)
      requires Configured(t, job, world, owner, parent, parentConfig, start) && k in job.previous
      requires c == Skip(job.run, k, owner, SkippedAlreadySatisfied, deps, Some(job.previous[k]), Some(inputs))
      ensures Conventional(t, c) && ParentSound(job, parentConfig)
    {
    }

    /** The attempt of a node whose planning raised: prepared and failed by the orchestrator itself. */
    method FailPlanning(k: NodeId, error: Failure, deps: map<NodeId, Status>) returns (r: NodeRecord)
      requires Valid() && Resolvable(job, Board(), {}) && k in job.cfg.nodes
      requires Decidable(job, Board(), k) && k in invalid && VerdictOf(job, Board().recs, k) == Fires
      requires deps == Statuses(Board().recs, job.cfg.nodes[k].dependencies)
      requires error.retryable ==>
                 OutputsPresent(job.cfg.nodes[k].parameters, UpstreamOf(Board().recs, job.cfg.nodes[k].dependencies))
      modifies this`tick, this`moments, store
      ensures Valid() && Resolvable(job, Board(), {}) && old(tick) <= tick
      ensures ChangedAt(old(Board()), Board(), k, r)
      ensures r.error == Some(error)
      ensures r.nodeId == k && r.status.Failed? && r.attempt == old(Board()).recs[k].attempt + 1 && !r.uncertain
    {
      hide Inv, Resolvable, StoreOk, Undisturbed, ChangedAt, Statuses, UpstreamOf, Configured, Put, Framed, After,
           Decide, Commits, ValidJob, Runs, OutputsPresent, Keepable, Kept, AlwaysInOrder, SystemOk, Uncertain;
      ghost var b0 := Board();
      ResolvableWider(job, b0, {}, {k});
      var planned := PrepareNode(k, PlanningError(error.code), deps, 0.0, {k});
      ghost var b1 := Board();
      ChangedRecord(b0, b1, k, planned);
      ChangedViews(job, b0, b1, k, planned);
      r := FinishPlanning(k, planned, error, deps, b0);
    }

    method FinishPlanning(
      k: NodeId, planned: NodeRecord, error: Failure, deps: map<NodeId, Status>, ghost b0: Board
    ) returns (r: NodeRecord)
      requires Valid() && Resolvable(job, Board(), {k}) && k in job.cfg.nodes && k !in active
      requires ChangedAt(b0, Board(), k, planned) && k in b0.recs
      requires planned.nodeId == k && planned.status.Ready? && planned.claim.Some? && planned.inputs.Some?
      requires error.retryable ==>
                 OutputsPresent(job.cfg.nodes[k].parameters, UpstreamOf(Board().recs, job.cfg.nodes[k].dependencies))
      modifies this`tick, this`moments, store
      ensures Valid() && Resolvable(job, Board(), {}) && old(tick) <= tick
      ensures ChangedAt(b0, Board(), k, r)
      ensures r.error == Some(error)
      ensures r.nodeId == k && r.status.Failed? && r.attempt == planned.attempt && !r.uncertain
    {
      hide Inv, Resolvable, StoreOk, Undisturbed, ChangedAt, Statuses, UpstreamOf, Configured, Put, Framed, After,
           Decide, Commits, ValidJob, Runs, OutputsPresent, Finished, Keepable, Kept, AlwaysInOrder, SystemOk,
           Uncertain;
      ghost var b1 := Board();
      ChangedRecord(b0, b1, k, planned);
      var ctx := Context(job.run, k, planned.attempt, planned.claim.value, planned.inputs.value, job.cfg, end,
                         map[], deps, Object(map[]));
      ReadyDecided(job, b1, k);
      Interfere({k});
      Parts();
      ghost var b, t := Board(), store.Projection();
      UndisturbedViews(job, b1, b, k);
      UndisturbedKeys(b1, b);
      var now := Now();
      var res := PlanningFailed(error);
      var c := Finish(ctx, res);
      ghost var r0 := Finished(b.recs[k], res, now > ctx.deadline, now);
      ghost var none: set<NodeId> := {};
      assert none + {k} == {k};
      FailureOnBoard(job, b, k, error, now > ctx.deadline, now, none, r0);
      FailureCommits(t, job, b, ctx, res, now, c, r0);
      PreparedIsOther(job, b, keep, k, none);
      OtherPutKept(job, b, keep, r0);
      r := Issue(c, now, r0);
      ChangedTwice(b0, b1, b, k, planned, r0);
    }

    // ----- Planning one node -----

    /** `invalid.update(descendants(nodes, {key}))`, before a node is executed. */
    method GrowInvalid(k: NodeId)
      requires Valid() && k in Board().recs && !Board().recs[k].status.SkippedAlreadySatisfied? && k !in keep
      modifies this`invalid, this`moments
      ensures Valid() && k in invalid && old(invalid) <= invalid
      ensures Board() == old(Board()).(invalid := invalid)
    {
      hide Inv, Configured, Keepable, Kept, AlwaysInOrder, SystemOk, Uncertain;
      if k !in invalid {
        Basics(job, Board(), k);
        GrowKeeps(job, Board(), k);
        GrownKept(world, job, end, Board(), keep, k);
        var grown := DescendantsOf(job.cfg.nodes, {k});
        invalid := invalid + grown;
        Remember(store.log);
      }
    }

    /** `_reexecution_allowed`: the error that it raises, if any. */
    method ReexecutionRefusal(k: NodeId, node: NodeDef) returns (refusal: Option<Failure>)
      requires k in job.cfg.nodes && node == job.cfg.nodes[k]
      modifies this`tick
      ensures old(tick) <= tick
      ensures match refusal
              case None => Allowed(world, old(tick), tick, job, attempted, approved, k)
              case Some(error) => RefusedFor(world, old(tick), tick, job, attempted, approved, k, error)
    {
      refusal := None;
      if job.mode.Normal? || k !in attempted {
        return;
      }
      if !node.eligible {
        return Some(Workflow("RESTART_NOT_ELIGIBLE"));
      }
      if !Safe(node.strategy) {
        if k !in approved {
          return Some(Workflow("APPROVAL_REQUIRED"));
        }
        if node.strategy.Compensation? {
          var companion := node.compensationNode;
          if !Compensated(job, node) {
            return Some(Workflow("COMPENSATION_REQUIRED"));
          }
          var valid := world.valid(tick, job.previous[companion].outputs);
          tick := tick + 1;
          if valid.Err? {
            return Some(valid.error);
          }
          if !valid.value {
            return Some(Workflow("COMPENSATION_REQUIRED"));
          }
        }
      }
    }

    /** The local snapshot is in step with the store. */
    ghost predicate InStep(records: Records)
      reads this`active, this`invalid, this`moments, this`lost, store
    {
      Valid() && Resolvable(job, Board(), {}) && Agrees(records, Board()) && Certain(records, active)
    }

    /** The decision holds on the board, and is grounded in what the world answered since tick `n`. */
    ghost predicate Decides(n: nat, k: NodeId, plan: Plan)
      reads this`tick, this`active, this`invalid, store
      requires k in job.cfg.nodes
    {
      && n <= tick && PlanHolds(job, Board(), k, plan)
      && Grounded(world, n, tick, job, Board(), attempted, approved, k, plan)
    }

    /** The guarded part of planning, which reads but does not write the store. */
    method Consider(k: NodeId, records: Records, states: map<NodeId, Status>) returns (plan: Plan)
      requires InStep(records)
      requires k in job.cfg.nodes && k in records && Plannable(job, records, active, k)
      requires states == Statuses(records, job.cfg.nodes[k].dependencies)
      requires Covered(job.cfg.nodes[k].dependencies, states) && Prerequisite(job.cfg.nodes[k], states) == Fires
      modifies this`tick
      ensures Decides(old(tick), k, plan)
      ensures job.cfg.nodes[k].trigger.AllSuccess? ==> ParametersOf(job, k, 1, records).Some?
    {
      hide Inv, Configured, Agrees, Certain, DependenciesSettled, Statuses, UpstreamOf, DependencyProofs, Resolve,
           OutputsPresent, TriggerStatus, CanReuse, ValidJob, StoreOk, Runs, Keepable, Kept, AlwaysInOrder, SystemOk,
           Uncertain;
      var node := job.cfg.nodes[k];
      Parts();
      LocalViews(job, Board(), records, k);
      var resolved := ParametersOf(job, k, 1, records);
      SameParameters(job, k, 1, records, Board().recs);
      ParametersResolve(job, k, 1, Board().recs);
      if node.trigger.AllSuccess? {
        FiresOnSuccess(node, states);
        AllSuccessResolves(job, Board(), k, 1);
      }
      if resolved.None? {
        return Failing(Workflow("INVALID_REFERENCE"), Unresolved);
      }
      var verdict := TriggerStatus(node, states, resolved.value);
      if verdict.Raises? {
        ConditionRaises(job, k, resolved.value, records, states);
        return Crashing;
      }
      if verdict.Skips? {
        return Skipping(verdict.status);
      }
      plan := Weigh(k, records, resolved.value);
    }

    lemma FiresOnSuccess(node: NodeDef, states: map<NodeId, Status>)
      requires Covered(node.dependencies, states) && Prerequisite(node, states) == Fires
      ensures Matches(node.trigger, node.dependencies, states)
    {
    }

    /** A node that fires, with its parameters and the fingerprint of what its sources hold. */
    ghost predicate Fired(n: nat, k: NodeId, resolved: Json, contents: Json, inputs: Fingerprint)
      reads this`tick, this`active, this`invalid, store
    {
      && n <= tick && k in job.cfg.nodes && Decidable(job, Board(), k)
      && VerdictOf(job, Board().recs, k) == Fires && ParametersOf(job, k, 1, Board().recs) == Some(resolved)
      && OutputsPresent(job.cfg.nodes[k].parameters, UpstreamOf(Board().recs, job.cfg.nodes[k].dependencies))
      && inputs == InputFingerprint(job.cfg, job.cfg.nodes[k], resolved, contents, Board().recs)
      && WasRead(job.canRead, Some(inputs)) && ReadAs(world, n, tick, resolved, Ok(contents))
    }

    /** The rest of it, once the node's trigger and condition have fired. */
    method Weigh(k: NodeId, records: Records, resolved: Json) returns (plan: Plan)
      requires InStep(records) && k in job.cfg.nodes && k in records && Plannable(job, records, active, k)
      requires ParametersOf(job, k, 1, records) == Some(resolved) && VerdictOf(job, Board().recs, k) == Fires
      modifies this`tick
      ensures Decides(old(tick), k, plan)
    {
      hide Inv, Configured, Agrees, Certain, DependenciesSettled, Statuses, UpstreamOf, DependencyProofs, Resolve,
           OutputsPresent, VerdictOf, ValidJob, StoreOk, Runs, Keepable, Kept, AlwaysInOrder, SystemOk, Uncertain;
      var node := job.cfg.nodes[k];
      Parts();
      LocalViews(job, Board(), records, k);
      SameParameters(job, k, 1, records, Board().recs);
      ParametersResolve(job, k, 1, Board().recs);
      var contents := world.read(tick, resolved);
      tick := tick + 1;
      if contents.Err? {
        return Failing(contents.error, Unreadable);
      }
      Respected();
      var inputs := InputFingerprint(job.cfg, node, resolved, contents.value, records);
      plan := WeighReuse(k, resolved, contents.value, inputs, old(tick));
    }

    /** Reuse by the reuse rule, if the artifacts are valid. */
    method WeighReuse(k: NodeId, resolved: Json, contents: Json, inputs: Fingerprint, ghost n: nat) returns (plan: Plan)
      requires Fired(n, k, resolved, contents, inputs)
      modifies this`tick
      ensures Decides(n, k, plan)
    {
      hide CanReuse, VerdictOf, ParametersOf, InputFingerprint, OutputsPresent, UpstreamOf, WasRead;
      if CanReuse(Prior(job, k), job.cfg, job.cfg.nodes[k], job.businessKey, inputs, true, invalid) {
        ReusePriorSucceeded(job, Board(), k, inputs);
        var valid := world.valid(tick, job.previous[k].outputs);
        tick := tick + 1;
        if valid.Err? {
          return Failing(valid.error, Unchecked(contents));
        }
        if valid.value {
          return Reusing(resolved, contents, inputs);
        }
      }
      plan := WeighRepetition(k, resolved, contents, inputs, n);
    }

    /** Execution, unless repeating the node is refused. */
    method WeighRepetition(k: NodeId, resolved: Json, contents: Json, inputs: Fingerprint, ghost n: nat)
      returns (plan: Plan)
      requires Fired(n, k, resolved, contents, inputs) && NotReused(world, n, tick, job, Board(), k, inputs)
      modifies this`tick
      ensures Decides(n, k, plan)
    {
      hide Reusable, VerdictOf, ParametersOf, OutputsPresent, UpstreamOf, Decidable, WasRead, Allowed, RefusedFor,
           DependencyProofs, SignatureOf;
      ghost var asked := tick;
      var refusal := ReexecutionRefusal(k, job.cfg.nodes[k]);
      WiderGrounds(world, asked, tick, n, tick, job, attempted, approved, k);
      return if refusal.Some? then Failing(refusal.value, Forbidden(contents)) else Executing(inputs);
    }

    /** Carrying out a decision, except for the reservation. */
    method CarryOut(k: NodeId, plan: Plan, records: Records, states: map<NodeId, Status>) returns (r: NodeRecord)
      requires InStep(records) && k in job.plan && k in job.cfg.nodes && !plan.Crashing?
      requires k in records && Plannable(job, records, active, k)
      requires states == Statuses(records, job.cfg.nodes[k].dependencies) && PlanHolds(job, Board(), k, plan)
      requires k in keep ==> plan.Reusing?
      modifies this`tick, this`invalid, this`moments, store
      ensures old(invalid) <= invalid
      ensures InStep(records[k := r]) && old(tick) <= tick && r.nodeId == k
      ensures Carried(plan, r) && !r.status.Pending? && (plan.Executing? <==> r.status.Ready?)
      ensures r.status.Ready? ==> old(tick) < tick && r.readyAt == world.clock(tick - 1)
      ensures Measure() < old(Measure())
    {
      hide InStep, Plannable, Statuses, PlanHolds, Measure, Carried;
      if plan.Failing? || plan.Executing? {
        Spread(k, plan, records);
      }
      match plan {
        case Skipping(_) => r := EnactSkip(k, plan, records, states);
        case Reusing(_, _, _) => r := EnactReuse(k, plan, records, states);
        case Failing(_, _) => r := EnactFailure(k, plan, records, states);
        case Executing(_) => r := EnactExecution(k, plan, records, states);
      }
    }

    /** The node and its descendants may no longer be reused; nothing else that planning saw changes. */
    method Spread(k: NodeId, plan: Plan, records: Records)
      requires InStep(records) && k in job.cfg.nodes && k in records && Plannable(job, records, active, k)
      requires (plan.Failing? || plan.Executing?) && PlanHolds(job, Board(), k, plan) && k !in keep
      modifies this`invalid, this`moments
      ensures old(invalid) <= invalid && k in invalid
      ensures InStep(records) && PlanHolds(job, Board(), k, plan) && Measure() == old(Measure())
    {
      hide Inv, Configured, Resolvable, Agrees, Certain, DependenciesSettled, Statuses, UpstreamOf, OutputsPresent,
           ValidJob, StoreOk, Runs, Sum, VerdictOf, InputFingerprint, ParametersOf, Keepable, Kept, AlwaysInOrder,
           SystemOk, Uncertain;
      ghost var b := Board();
      Parts();
      LocalViews(job, b, records, k);
      GrowInvalid(k);
      SameButInvalid(job, b, invalid, records);
    }

    /** After a store call on node `k`, the snapshot with its new record is in step, and the measure has fallen. */
    lemma Enacted(b: Board, records: Records, k: NodeId, r: NodeRecord)
      requires Valid() && Resolvable(job, Board(), {}) && Inv(job, b) && b.active == active
      requires Agrees(records, b) && Certain(records, active) && ChangedAt(b, Board(), k, r)
      requires k in job.plan && k in job.cfg.nodes && k in b.recs && k !in active && b.recs[k].status.Pending?
      requires r.nodeId == k && !r.uncertain && !r.status.Pending?
      requires r.attempt == b.recs[k].attempt || r.attempt == b.recs[k].attempt + 1
      requires r.status.Ready? ==> r.attempt == b.recs[k].attempt + 1
      ensures InStep(records[k := r]) && Measure() < Sum(job.cfg.nodes, job.plan, b)
    {
      hide Inv, Resolvable, Agrees, Certain, ChangedAt, Valid, Sum;
      PlannedDrops(job, b, Board(), k, r);
      RecordChange(b, Board(), records, k, r);
    }

    /** What the local snapshot says of a node that is being planned. */
    lemma Local(k: NodeId, records: Records)
      requires InStep(records) && k in job.cfg.nodes && k in records && Plannable(job, records, active, k)
      ensures Valid() && Resolvable(job, Board(), {}) && Inv(job, Board()) && Board().active == active
      ensures Agrees(records, Board()) && Certain(records, active)
      ensures k in Board().recs && k !in active && Board().recs[k].status.Pending? && Decidable(job, Board(), k)
      ensures var deps := job.cfg.nodes[k].dependencies; Statuses(records, deps) == Statuses(Board().recs, deps)
    {
      hide Inv, Agrees, Certain, DependenciesSettled, Statuses, Keepable, Kept, AlwaysInOrder, SystemOk, Uncertain;
      LocalViews(job, Board(), records, k);
    }

    method EnactSkip(k: NodeId, plan: Plan, records: Records, states: map<NodeId, Status>) returns (r: NodeRecord)
      requires InStep(records) && k in job.plan && k in job.cfg.nodes && k in records
      requires Plannable(job, records, active, k) && states == Statuses(records, job.cfg.nodes[k].dependencies)
      requires plan.Skipping? && PlanHolds(job, Board(), k, plan) && k !in keep
      modifies this`tick, this`moments, store
      ensures InStep(records[k := r]) && old(tick) <= tick && Measure() < old(Measure())
      ensures r.nodeId == k && Carried(plan, r) && !r.status.Ready? && !r.status.Pending?
    {
      hide InStep, Plannable, Valid, Resolvable, Inv, Agrees, Certain, Statuses, Sum, ChangedAt, MaySkip, Decidable,
           VerdictOf;
      Local(k, records);
      ghost var b := Board();
      r := SkipNode(k, plan.status, states, {});
      Enacted(b, records, k, r);
    }

    method EnactReuse(k: NodeId, plan: Plan, records: Records, states: map<NodeId, Status>) returns (r: NodeRecord)
      requires InStep(records) && k in job.plan && k in job.cfg.nodes && k in records
      requires Plannable(job, records, active, k) && states == Statuses(records, job.cfg.nodes[k].dependencies)
      requires plan.Reusing? && PlanHolds(job, Board(), k, plan)
      modifies this`tick, this`moments, store
      ensures InStep(records[k := r]) && old(tick) <= tick && Measure() < old(Measure())
      ensures r.nodeId == k && Carried(plan, r) && !r.status.Ready? && !r.status.Pending?
    {
      hide InStep, Plannable, Valid, Resolvable, Inv, Agrees, Certain, Statuses, Sum, ChangedAt, MayReuse, Decidable,
           VerdictOf;
      Local(k, records);
      ghost var b := Board();
      r := ReuseNode(k, plan.resolved, plan.contents, plan.inputs, states, {});
      Enacted(b, records, k, r);
    }

    method EnactFailure(k: NodeId, plan: Plan, records: Records, states: map<NodeId, Status>) returns (r: NodeRecord)
      requires InStep(records) && k in job.plan && k in job.cfg.nodes && k in records && k in invalid
      requires Plannable(job, records, active, k) && states == Statuses(records, job.cfg.nodes[k].dependencies)
      requires plan.Failing? && PlanHolds(job, Board(), k, plan)
      modifies this`tick, this`moments, store
      ensures InStep(records[k := r]) && old(tick) <= tick && Measure() < old(Measure())
      ensures r.nodeId == k && Carried(plan, r) && !r.status.Ready? && !r.status.Pending?
    {
      hide InStep, Plannable, Valid, Resolvable, Inv, Agrees, Certain, Statuses, Sum, ChangedAt, Decidable, VerdictOf,
           OutputsPresent;
      Local(k, records);
      ghost var b := Board();
      r := FailPlanning(k, plan.error, states);
      Enacted(b, records, k, r);
    }

    method EnactExecution(k: NodeId, plan: Plan, records: Records, states: map<NodeId, Status>) returns (r: NodeRecord)
      requires InStep(records) && k in job.plan && k in job.cfg.nodes && k in records && k in invalid
      requires Plannable(job, records, active, k) && states == Statuses(records, job.cfg.nodes[k].dependencies)
      requires plan.Executing? && PlanHolds(job, Board(), k, plan)
      modifies this`tick, this`moments, store
      ensures InStep(records[k := r]) && old(tick) <= tick && Measure() < old(Measure())
      ensures r.nodeId == k && Carried(plan, r) && r.status.Ready?
      ensures old(tick) < tick && r.readyAt == world.clock(tick - 1)
    {
      hide InStep, Plannable, Valid, Resolvable, Inv, Agrees, Certain, Statuses, Sum, ChangedAt, Decidable, VerdictOf,
           OutputsPresent, MayPrepare, InputFingerprint, ParametersOf;
      Local(k, records);
      ghost var b := Board();
      MayPrepareFirst(job, b, k, {});
      r := PrepareNode(k, plan.inputs, states, 0.0, {});
      Enacted(b, records, k, r);
    }

    /** The budget of one iteration, over this run's nodes, within every limit. */
    ghost predicate Budgeted(budget: Budget)
      reads budget
    {
      && budget.cfg == job.cfg && budget.plan == job.plan && budget.Valid()
      && WithinLimits(job.cfg, job.plan, budget.reserved)
    }

    /** One turn of the planning loop. */
    method PlanOne(k: NodeId, records: Records, budget: Budget) returns (records': Records, advance: Advance)
      requires InStep(records) && Budgeted(budget) && Booked(records, active, budget.reserved)
      requires k in job.plan && k in job.cfg.nodes && k in records
      modifies this`tick, this`invalid, this`moments, store, budget
      ensures old(invalid) <= invalid
      ensures InStep(records') && Budgeted(budget) && Booked(records', active, budget.reserved)
      ensures old(tick) <= tick && records'.Keys == records.Keys
      ensures advance.Stayed? ==>
                && records' == records && budget.reserved == old(budget.reserved) && Board() == old(Board())
                && !(Plannable(job, records, active, k) && old(budget.Fits(job.cfg.nodes[k])))
                && unchanged(budget)
      ensures advance.Moved? ==>
                && Measure() < old(Measure())
                && Plannable(job, records, active, k)
                && records' == records[k := records'[k]] && Follows(job, records, k, records'[k])
                && Explained(world, old(tick), tick, job, old(Board()), attempted, approved, k, records'[k])
                && (records'[k].status.Ready? ==>
                      && budget.reserved == old(budget.reserved) + {k}
                      && old(tick) < tick && records'[k].readyAt == world.clock(tick - 1))
                && (!records'[k].status.Ready? ==> budget.reserved == old(budget.reserved))
                && !records'[k].status.Pending?
      ensures advance.Crashed? ==>
                && VerdictOf(job, Board().recs, k) == Raises && RaisesOn(job.cfg, job.cfg.nodes[k])
                && Board() == old(Board())
    {
      hide InStep, PlanHolds, Statuses, Measure, WithinLimits, Plannable, Prerequisite, RaisesOn, VerdictOf,
           Budget.Valid, Budget.Fits, Board, Follows, Grounded, Explained, ParametersOf, Valid, Setting, Inv, Keepable,
           Kept, Carried, Uncertain;
      records', advance := records, Stayed;
      if !Plannable(job, records, active, k) {
        return;
      }
      NotReserved(k, records, budget.reserved);
      var node := job.cfg.nodes[k];
      var states := Statuses(records, node.dependencies);
      SkipsByTrigger(k, records, states);
      var plan: Plan;
      if Prerequisite(node, states).Skips? {
        plan := Skipping(Prerequisite(node, states).status);
        SkippingIsGrounded(k, plan);
      } else if !budget.Fits(node) {
        return;
      } else {
        plan := Consider(k, records, states);
        if plan.Crashing? {
          CrashRaises(k, plan);
          return records, Crashed;
        }
      }
      FollowsPlan(k, records, plan);
      ghost var b, n := Board(), tick;
      ReusesKept(old(tick), k, records, plan);
      var r := CarryOut(k, plan, records, states);
      Explains(b, old(tick), n, tick, k, plan, r);
      if plan.Executing? {
        budget.Reserve(k);
      }
      return records[k := r], Moved;
    }

    /** What the run may keep is never planned otherwise. */
    lemma ReusesKept(n: nat, k: NodeId, records: Records, plan: Plan)
      requires InStep(records) && k in job.cfg.nodes && k in records && Plannable(job, records, active, k)
      requires PlanHolds(job, Board(), k, plan)
      requires Grounded(world, n, tick, job, Board(), attempted, approved, k, plan)
      ensures k in keep ==> plan.Reusing?
    {
      hide Inv, Agrees, Certain, Resolvable, Configured, ValidJob, Keepable, Kept, AlwaysInOrder, SystemOk, PlanHolds,
           Grounded, Decidable, Uncertain;
      Local(k, records);
      Parts();
      KeptIsReused(world, n, tick, job, end, Board(), attempted, approved, keep, k, plan);
    }

    lemma SkippingIsGrounded(k: NodeId, plan: Plan)
      requires k in job.cfg.nodes && plan.Skipping?
      ensures Grounded(world, tick, tick, job, Board(), attempted, approved, k, plan)
    {
    }

    /** A record that carries out a grounded decision is explained, also once the clock has moved on. */
    lemma Explains(b: Board, m: nat, n: nat, n': nat, k: NodeId, plan: Plan, r: NodeRecord)
      requires k in job.cfg.nodes && m <= n <= n' && Carried(plan, r) && PlanHolds(job, b, k, plan)
      requires Grounded(world, m, n, job, b, attempted, approved, k, plan)
      ensures Explained(world, m, n', job, b, attempted, approved, k, r)
    {
      hide Carried, PlanHolds, ParametersOf, InputFingerprint, Reusable, Allowed, RefusedFor;
      WiderGrounds(world, m, n, m, n', job, attempted, approved, k);
      assert Grounded(world, m, n', job, b, attempted, approved, k, plan);
    }

    lemma FollowsPlan(k: NodeId, records: Records, plan: Plan)
      requires InStep(records) && k in job.cfg.nodes && k in records && Plannable(job, records, active, k)
      requires PlanHolds(job, Board(), k, plan)
      ensures forall r | Carried(plan, r) :: Follows(job, records, k, r)
    {
      hide Inv, PlanHolds, Follows, Plannable, Carried, Agrees, Certain, Keepable, Kept, AlwaysInOrder, SystemOk,
           Uncertain;
      forall r | Carried(plan, r) ensures Follows(job, records, k, r) {
        CarriedFollows(job, Board(), records, k, plan, r);
      }
    }

    lemma SkipsByTrigger(k: NodeId, records: Records, states: map<NodeId, Status>)
      requires InStep(records) && k in job.cfg.nodes && k in records && Plannable(job, records, active, k)
      requires states == Statuses(records, job.cfg.nodes[k].dependencies)
      ensures Covered(job.cfg.nodes[k].dependencies, states)
      ensures var verdict := Prerequisite(job.cfg.nodes[k], states);
              verdict.Skips? ==> PlanHolds(job, Board(), k, Skipping(verdict.status))
    {
      hide Inv, Prerequisite, Keepable, Kept, AlwaysInOrder, SystemOk, Uncertain;
      PrerequisiteSkips(job, Board(), records, k, states);
    }

    lemma NotReserved(k: NodeId, records: Records, reserved: set<NodeId>)
      requires k in job.cfg.nodes && k in records && Plannable(job, records, active, k)
                 && Booked(records, active, reserved)
      ensures k !in reserved && k !in active && !records[k].status.Ready?
    {
    }

    /** Some node's trigger fires and its condition raises, on the records as they are. */
    ghost predicate RaisesNow()
      reads this`active, this`invalid, store
    {
      exists k | k in job.cfg.nodes :: RaisesOn(job.cfg, job.cfg.nodes[k]) && VerdictOf(job, Board().recs, k) == Raises
    }

    lemma CrashRaises(k: NodeId, plan: Plan)
      requires k in job.cfg.nodes && plan.Crashing? && PlanHolds(job, Board(), k, plan)
      ensures VerdictOf(job, Board().recs, k) == Raises && RaisesOn(job.cfg, job.cfg.nodes[k])
    {
    }

    lemma Raising(k: NodeId)
      requires k in job.cfg.nodes && VerdictOf(job, Board().recs, k) == Raises && RaisesOn(job.cfg, job.cfg.nodes[k])
      ensures RaisesNow()
    {
    }

    // ----- The loops of one iteration -----

    ghost function Measure(): nat
      reads this`active, this`invalid, store
    {
      Sum(job.cfg.nodes, job.plan, Board())
    }

    /** One of the first `n` clock readings has reached the end of the run. */
    ghost predicate LateBy(n: nat) {
      n > 0 && world.clock(n - 1) >= end
    }

    ghost predicate Late()
      reads this`tick
    {
      LateBy(tick)
    }

    lemma LateStays(records: Records, n: nat, m: nat)
      requires InStep(records) && n <= m
      ensures LateBy(n) ==> LateBy(m)
    {
      assert Orderly(world);
    }

    /** The retry waits for its backoff, counted from the last clock reading. */
    ghost predicate Delayed(k: NodeId, r: NodeRecord, r': NodeRecord, n: nat)
      requires k in job.cfg.nodes
    {
      r.attempt >= 1 && n > 0 && r'.readyAt == world.clock(n - 1) + Backoff(job.cfg.nodes[k].retry, r.attempt)
    }

    method RetryOne(k: NodeId, records: Records) returns (records': Records, moved: bool)
      requires InStep(records) && k in job.plan && k in job.cfg.nodes && k in records
      modifies this`tick, this`moments, store
      ensures InStep(records') && records'.Keys == records.Keys && old(tick) <= tick
      ensures moved ==>
                && Measure() < old(Measure())
                && records' == records[k := records'[k]] && Retried(job, active, k, records[k], records'[k])
                && Delayed(k, records[k], records'[k], tick)
      ensures !moved ==>
                && records' == records && Board() == old(Board())
                && (k in active || !Retryable(job.cfg.nodes[k], records[k]) || Late())
    {
      hide Inv, Configured, Resolvable, Agrees, Certain, Statuses, UpstreamOf, DependencyProofs, Sum, ChangedAt,
           MayPrepare, Retryable, ValidJob, StoreOk, Runs, Resolve, Keepable, Kept, AlwaysInOrder, SystemOk,
           Uncertain;
      records', moved := records, false;
      var node := job.cfg.nodes[k];
      if k in active {
        return;
      }
      var now := Now();
      if now >= end || !Retryable(node, records[k]) {
        return;
      }
      Parts();
      ghost var b := Board();
      RetryViews(job, b, records, k);
      var delay := Backoff(node.retry, records[k].attempt);
      var resolved := ParametersOf(job, k, records[k].attempt + 1, records).value;
      var contents := world.read(tick, resolved);
      tick := tick + 1;
      Respected();
      var inputs := if contents.Ok? then InputFingerprint(job.cfg, node, resolved, contents.value, records)
                    else records[k].inputs.value;
      var r := PrepareNode(k, inputs, Statuses(records, node.dependencies), delay, {});
      RetryDrops(job, b, Board(), k, r);
      RecordChange(b, Board(), records, k, r);
      return records[k := r], true;
    }

    method RetryAll(records: Records) returns (records': Records, changed: bool)
      requires InStep(records)
      modifies this`tick, this`moments, store
      ensures InStep(records') && records'.Keys == records.Keys && old(tick) <= tick
      ensures forall k | k in records && k in job.cfg.nodes :: RetriedAt(k, records, records', tick)
      ensures changed ==> Measure() < old(Measure())
      ensures !changed ==>
                && records' == records && Board() == old(Board())
                && (Late() || NoRetries(job, records, active))
    {
      hide Valid, InStep, Resolvable, Sum, Retryable, Retried, LateBy, RetriedAt, RetriedUpTo, Ahead, NoRetries,
           Distinct, Delayed;
      PlanIsKnown(records);
      records', changed := records, false;
      AtTheStart(records, tick);
      for i := 0 to |job.plan|
        invariant InStep(records') && records'.Keys == records.Keys && old(tick) <= tick
        invariant changed ==> Measure() < old(Measure())
        invariant !changed ==> records' == records && Board() == old(Board())
        invariant Ahead(records, records', i) && RetriedUpTo(records, records', i, tick)
      {
        var moved;
        records', moved := RetryTurn(i, records, records');
        changed := changed || moved;
      }
      AllRetried(records, records', tick);
    }

    /** One turn of the retry loop, after `i` others. */
    method RetryTurn(i: nat, ghost records: Records, before: Records) returns (after: Records, moved: bool)
      requires InStep(before) && i < |job.plan| && records.Keys == before.Keys
      requires Ahead(records, before, i) && RetriedUpTo(records, before, i, tick)
      modifies this`tick, this`moments, store
      ensures InStep(after) && after.Keys == before.Keys && old(tick) <= tick
      ensures Ahead(records, after, i + 1) && RetriedUpTo(records, after, i + 1, tick)
      ensures moved ==> Measure() < old(Measure())
      ensures !moved ==> after == before && Board() == old(Board())
    {
      hide Valid, InStep, Resolvable, Sum, Retryable, Retried, LateBy, RetriedUpTo, Ahead, Distinct, Delayed;
      PlanIsKnown(before);
      ghost var start := tick;
      after, moved := RetryOne(job.plan[i], before);
      LateStays(after, start, tick);
      RetryAdvances(records, before, after, i, start, tick, moved);
    }

    /** The records from position `i` on are as they were. */
    ghost predicate Ahead(records: Records, records': Records, i: nat) {
      forall j | i <= j < |job.plan| ::
        job.plan[j] in records && job.plan[j] in records' && records'[job.plan[j]] == records[job.plan[j]]
    }

    ghost predicate RetriedUpTo(records: Records, records': Records, i: nat, n: nat)
      reads this`active
    {
      forall j | 0 <= j < i && j < |job.plan| ::
        && job.plan[j] in records && job.plan[j] in records' && job.plan[j] in job.cfg.nodes
        && RetriedAt(job.plan[j], records, records', n)
    }

    lemma AtTheStart(records: Records, n: nat)
      requires forall k | k in job.plan :: k in records
      ensures Ahead(records, records, 0) && RetriedUpTo(records, records, 0, n)
                && CancelledUpTo(records, records, 0, n, n)
    {
    }

    lemma RetryAdvances(records: Records, before: Records, after: Records, i: nat, start: nat, n: nat, moved: bool)
      requires i < |job.plan| && Distinct(job.plan) && records.Keys == before.Keys == after.Keys
      requires job.plan[i] in records && job.plan[i] in job.cfg.nodes
      requires Ahead(records, before, i) && RetriedUpTo(records, before, i, start) && (LateBy(start) ==> LateBy(n))
      requires moved ==>
                 after == before[job.plan[i] := after[job.plan[i]]]
                 && Retried(job, active, job.plan[i], before[job.plan[i]], after[job.plan[i]])
      requires !moved ==>
                 after == before
                 && (job.plan[i] in active || !Retryable(job.cfg.nodes[job.plan[i]], before[job.plan[i]]) || LateBy(n))
      ensures Ahead(records, after, i + 1) && RetriedUpTo(records, after, i + 1, n)
    {
      assert RetriedAt(job.plan[i], records, after, n);
      forall j | 0 <= j < i ensures RetriedAt(job.plan[j], records, after, n) {
        assert RetriedAt(job.plan[j], records, before, start);
      }
    }

    lemma AllRetried(records: Records, records': Records, n: nat)
      requires records'.Keys == records.Keys && forall k | k in records :: k in job.plan && k in job.cfg.nodes
      requires RetriedUpTo(records, records', |job.plan|, n)
      ensures forall k | k in records && k in job.cfg.nodes :: RetriedAt(k, records, records', n)
      ensures records' == records ==> LateBy(n) || NoRetries(job, records, active)
    {
      forall k | k in records ensures RetriedAt(k, records, records', n) {
        var j :| 0 <= j < |job.plan| && job.plan[j] == k;
      }
    }

    /** What a pass of the retry loop has done with one node. */
    ghost predicate RetriedAt(k: NodeId, records: Records, records': Records, n: nat)
      reads this`active
      requires k in records && k in records' && k in job.cfg.nodes
    {
      && (records'[k] == records[k] || Retried(job, active, k, records[k], records'[k]))
      && (records'[k] == records[k] && k !in active && Retryable(job.cfg.nodes[k], records[k]) ==> LateBy(n))
    }

    lemma PlanIsKnown(records: Records)
      requires InStep(records)
      ensures forall k | k in job.plan :: k in job.cfg.nodes && k in records
      ensures forall k | k in records :: k in job.plan && k in job.cfg.nodes
      ensures Distinct(job.plan) && (forall k | k in job.cfg.nodes :: k in job.plan)
                && (forall k | k in active :: k in job.plan)
    {
      assert forall k | k in job.plan :: k in job.cfg.nodes;
    }

    lemma OnlyFailFastFails(records: Records)
      ensures FailingFast(job, records, active) ==> job.cfg.failFast
    {
    }

    lemma CancelsOthers(k: NodeId, n: nat, failing: bool)
      requires Valid() && (world.clock(n) >= end || (failing && job.cfg.failFast))
      ensures k !in keep
    {
    }

    method CancelOne(k: NodeId, records: Records, failing: bool) returns (records': Records, moved: bool)
      requires InStep(records) && k in job.plan && k in job.cfg.nodes && k in records && (failing ==> job.cfg.failFast)
      modifies this`tick, this`moments, store
      ensures InStep(records') && records'.Keys == records.Keys && old(tick) <= tick
      ensures moved ==>
                && Measure() < old(Measure())
                && records' == records[k := records'[k]] && records'[k].status.Cancelled?
                && Undispatched(records, active, k) && (Late() || (failing && SuccessPath(job.cfg.nodes[k])))
      ensures !moved ==>
                && records' == records && Board() == old(Board())
                && (old(Late()) || (failing && SuccessPath(job.cfg.nodes[k])) ==> !Undispatched(records, active, k))
    {
      hide Inv, Resolvable, Agrees, Certain, Statuses, Sum, ChangedAt, ValidJob, StoreOk, Runs, MayCancel, Keepable,
           Kept, AlwaysInOrder, SystemOk, Uncertain;
      records', moved := records, false;
      if !Undispatched(records, active, k) {
        return;
      }
      var node := job.cfg.nodes[k];
      var now := Now();
      assert Orderly(world);
      if now >= end || (failing && SuccessPath(node)) {
        ghost var b := Board();
        CancelViews(job, b, records, k);
        CancelsOthers(k, tick - 1, failing);
        var r := CancelNode(k, Statuses(records, node.dependencies), {});
        CancelDrops(job, b, Board(), k, r);
        RecordChange(b, Board(), records, k, r);
        return records[k := r], true;
      }
    }

    /** `cancel_pending`: exactly the undispatched nodes, all of them past the deadline, and those on the
        success path after a fail-fast failure. */
    method CancelPending(records: Records) returns (records': Records, cancelled: bool)
      requires InStep(records)
      modifies this`tick, this`moments, store
      ensures InStep(records') && records'.Keys == records.Keys && old(tick) <= tick
      ensures forall k | k in records && k in job.cfg.nodes :: CancelledAt(k, records, records', old(tick), tick)
      ensures cancelled ==> Measure() < old(Measure())
      ensures !cancelled ==>
                && records' == records && Board() == old(Board())
                && (old(Late()) ==> NoneUndispatched(records, active))
    {
      hide Valid, InStep, Resolvable, Sum, Undispatched, FailingFast, SuccessPath, LateBy, CancelledAt, CancelledUpTo,
           Ahead, NoneUndispatched, Distinct;
      PlanIsKnown(records);
      records', cancelled := records, false;
      AtTheStart(records, tick);
      var failing := FailingFast(job, records, active);
      for i := 0 to |job.plan|
        invariant InStep(records') && records'.Keys == records.Keys && old(tick) <= tick
        invariant cancelled ==> Measure() < old(Measure())
        invariant !cancelled ==> records' == records && Board() == old(Board())
        invariant Ahead(records, records', i) && CancelledUpTo(records, records', i, old(tick), tick)
      {
        var moved;
        records', moved := CancelTurn(i, records, records', failing, old(tick));
        cancelled := cancelled || moved;
      }
      AllCancelled(records, records', old(tick), tick);
    }

    /** One turn of the cancellation loop, after `i` others. */
    method CancelTurn(i: nat, ghost records: Records, before: Records, failing: bool, ghost first: nat)
      returns (after: Records, moved: bool)
      requires InStep(before) && i < |job.plan| && records.Keys == before.Keys && first <= tick
      requires failing == FailingFast(job, records, active)
      requires Ahead(records, before, i) && CancelledUpTo(records, before, i, first, tick)
      modifies this`tick, this`moments, store
      ensures InStep(after) && after.Keys == before.Keys && old(tick) <= tick
      ensures Ahead(records, after, i + 1) && CancelledUpTo(records, after, i + 1, first, tick)
      ensures moved ==> Measure() < old(Measure())
      ensures !moved ==> after == before && Board() == old(Board())
    {
      hide Valid, InStep, Resolvable, Sum, Undispatched, FailingFast, SuccessPath, LateBy, CancelledUpTo, Ahead,
           Distinct;
      PlanIsKnown(before);
      ghost var start := tick;
      LateStays(before, first, tick);
      OnlyFailFastFails(records);
      after, moved := CancelOne(job.plan[i], before, failing);
      LateStays(after, start, tick);
      CancelAdvances(records, before, after, i, first, start, tick, moved);
    }

    ghost predicate CancelledUpTo(records: Records, records': Records, i: nat, before: nat, after: nat)
      reads this`active
    {
      forall j | 0 <= j < i && j < |job.plan| ::
        && job.plan[j] in records && job.plan[j] in records' && job.plan[j] in job.cfg.nodes
        && CancelledAt(job.plan[j], records, records', before, after)
    }

    lemma CancelAdvances(
      records: Records, r: Records, r': Records, i: nat, first: nat, start: nat, n: nat, moved: bool
    )
      requires i < |job.plan| && Distinct(job.plan) && records.Keys == r.Keys == r'.Keys
      requires job.plan[i] in records && job.plan[i] in job.cfg.nodes
      requires Ahead(records, r, i) && CancelledUpTo(records, r, i, first, start)
      requires (LateBy(first) ==> LateBy(start)) && (LateBy(start) ==> LateBy(n))
      requires var k := job.plan[i];
               var failing := FailingFast(job, records, active) && SuccessPath(job.cfg.nodes[k]);
               && (moved ==>
                     && r' == r[k := r'[k]] && r'[k].status.Cancelled? && Undispatched(r, active, k)
                     && (LateBy(n) || failing))
               && (!moved ==> r' == r && (LateBy(start) || failing ==> !Undispatched(r, active, k)))
      ensures Ahead(records, r', i + 1) && CancelledUpTo(records, r', i + 1, first, n)
    {
      assert CancelledAt(job.plan[i], records, r', first, n);
      forall j | 0 <= j < i ensures CancelledAt(job.plan[j], records, r', first, n) {
        assert CancelledAt(job.plan[j], records, r, first, start);
      }
    }

    lemma AllCancelled(records: Records, records': Records, before: nat, after: nat)
      requires records'.Keys == records.Keys && forall k | k in records :: k in job.plan && k in job.cfg.nodes
      requires CancelledUpTo(records, records', |job.plan|, before, after)
      ensures forall k | k in records && k in job.cfg.nodes :: CancelledAt(k, records, records', before, after)
      ensures records' == records && LateBy(before) ==> NoneUndispatched(records, active)
    {
      forall k | k in records ensures CancelledAt(k, records, records', before, after) {
        var j :| 0 <= j < |job.plan| && job.plan[j] == k;
      }
    }

    /** What a pass of the cancellation loop has done with one node. */
    ghost predicate CancelledAt(k: NodeId, records: Records, records': Records, before: nat, after: nat)
      reads this`active
      requires k in records && k in records' && k in job.cfg.nodes
    {
      var failing := FailingFast(job, records, active) && SuccessPath(job.cfg.nodes[k]);
      if records'[k] == records[k] then LateBy(before) || failing ==> !Undispatched(records, active, k)
      else records'[k].status.Cancelled? && Undispatched(records, active, k) && (LateBy(after) || failing)
    }

    /** The counters at the start of an iteration: what the nodes in flight hold. */
    method CountActive(records: Records) returns (budget: Budget)
      requires InStep(records) && WithinLimits(job.cfg, job.plan, active.Keys)
      ensures fresh(budget) && Budgeted(budget) && budget.reserved == active.Keys
    {
      hide Inv, Configured, Resolvable, Agrees, Certain, ValidJob, StoreOk, Runs, WithinLimits, Keepable, Kept,
           AlwaysInOrder, SystemOk, Uncertain;
      PlanIsKnown(records);
      budget := new Budget(job.cfg, job.plan);
      for i := 0 to |job.plan|
        invariant fresh(budget) && budget.Valid() && budget.cfg == job.cfg && budget.plan == job.plan
        invariant budget.reserved == (set k | k in job.plan[..i] && k in active)
      {
        if job.plan[i] in active {
          budget.Reserve(job.plan[i]);
        }
      }
      assert budget.reserved == active.Keys;
    }

    /** Some READY node's delay had passed at clock reading `n`. */
    ghost predicate Due(records: Records, n: nat) {
      exists k | k in records :: DueAt(records, k, n)
    }

    ghost predicate DueAt(records: Records, k: NodeId, n: nat)
      requires k in records
    {
      records[k].status.Ready? && records[k].readyAt <= world.clock(n)
    }

    /** Room is kept for no READY node whose delay had not passed at clock reading `n`. */
    ghost predicate Timely(records: Records, reserved: set<NodeId>, n: nat)
      reads this`active
    {
      forall k | InBatch(k, records, reserved) :: records[k].readyAt <= world.clock(n)
    }

    lemma StillTimely(records: Records, reserved: set<NodeId>, n: nat, m: nat)
      requires InStep(records) && n <= m && Timely(records, reserved, n)
      ensures Timely(records, reserved, m)
    {
      hide InStep;
      AlwaysOrderly(records, n, m);
    }

    /** There is no room for this node beside the reserved ones. */
    ghost predicate NoRoom(k: NodeId, reserved: set<NodeId>) {
      !WithinLimits(job.cfg, job.plan, reserved + {k})
    }

    lemma StillNoRoom(k: NodeId, small: set<NodeId>, large: set<NodeId>)
      requires small <= large && NoRoom(k, small)
      ensures NoRoom(k, large)
    {
      hide WithinLimits;
      if !NoRoom(k, large) {
        SubsetWithinLimits(job.cfg, job.plan, small + {k}, large + {k});
      }
    }

    lemma UnfitHasNoRoom(k: NodeId, records: Records, budget: Budget)
      requires InStep(records) && Budgeted(budget) && k in job.cfg.nodes && k !in budget.reserved
      ensures budget.Fits(job.cfg.nodes[k]) <==> !NoRoom(k, budget.reserved)
    {
      hide Inv, Resolvable, Agrees, Certain, StoreOk, Runs, WithinLimits, Keepable, Kept, AlwaysInOrder, SystemOk,
           Uncertain, Budget.Valid, Budget.Fits, Accepts;
      assert ValidNode(job.cfg, k);
      budget.FitsExactly(k);
    }

    /** Room is first kept for the READY nodes whose delay has passed, as long as there is any: for one of them at
        least, when nothing is in flight. */
    method ReserveReady(records: Records, budget: Budget)
      requires InStep(records) && Budgeted(budget) && budget.reserved == active.Keys
      modifies this`tick, budget
      ensures InStep(records) && Board() == old(Board()) && old(tick) <= tick
      ensures Budgeted(budget) && Booked(records, active, budget.reserved)
      ensures (forall k | k in records :: k in active || !records[k].status.Ready?) ==> budget.reserved == active.Keys
      ensures active == map[] && Due(records, old(tick)) ==> budget.reserved != {}
      ensures Timely(records, budget.reserved, tick)
      ensures forall k | k in records && DueAt(records, k, old(tick)) && k !in active && k !in budget.reserved ::
                NoRoom(k, budget.reserved)
    {
      hide InStep, WithinLimits, Budget.Valid, Booked, DueAt, Inv, Configured, Agrees, Certain, Kept, Keepable,
           AlwaysInOrder, SystemOk, Valid, Resolvable, Timely, NoRoom, LeftOut;
      NothingEarly(records);
      NoneLeftOut(records, budget.reserved, tick);
      NothingBooked(records);
      PlanIsKnown(records);
      for i := 0 to |job.plan|
        invariant InStep(records) && Board() == old(Board()) && old(tick) <= tick
        invariant Budgeted(budget) && Booked(records, active, budget.reserved)
        invariant forall j | i <= j < |job.plan| :: job.plan[j] in budget.reserved ==> job.plan[j] in active
        invariant (forall k | k in records :: k in active || !records[k].status.Ready?) ==>
                    budget.reserved == active.Keys
        invariant active == map[] && budget.reserved == {} ==>
                    forall j | 0 <= j < i :: !DueAt(records, job.plan[j], old(tick))
        invariant Timely(records, budget.reserved, tick)
        invariant LeftOut(records, budget.reserved, i, old(tick))
      {
        ghost var before := budget.reserved;
        ReserveOne(job.plan[i], records, budget, old(tick));
        OneMoreLeftOut(records, before, budget.reserved, i, old(tick));
      }
      AllLeftOut(records, budget.reserved, old(tick));
    }

    /** A node among the first `i` of the plan that is due and not reserved has no room. */
    ghost predicate LeftOut(records: Records, reserved: set<NodeId>, i: nat, n: nat)
      reads this`active
      requires i <= |job.plan|
    {
      forall j | 0 <= j < i && job.plan[j] in records && DueAt(records, job.plan[j], n) && job.plan[j] !in active ::
        job.plan[j] in reserved || NoRoom(job.plan[j], reserved)
    }

    lemma OneMoreLeftOut(records: Records, small: set<NodeId>, large: set<NodeId>, i: nat, n: nat)
      requires i < |job.plan| && small <= large && LeftOut(records, small, i, n)
      requires var k := job.plan[i];
               k in records && DueAt(records, k, n) && k !in active ==> k in large || NoRoom(k, large)
      ensures LeftOut(records, large, i + 1, n)
    {
      hide NoRoom, DueAt;
      forall j | 0 <= j < i && NoRoom(job.plan[j], small) ensures NoRoom(job.plan[j], large) {
        StillNoRoom(job.plan[j], small, large);
      }
    }

    lemma AllLeftOut(records: Records, reserved: set<NodeId>, n: nat)
      requires InStep(records) && LeftOut(records, reserved, |job.plan|, n)
      ensures forall k | k in records && DueAt(records, k, n) && k !in active && k !in reserved :: NoRoom(k, reserved)
    {
      hide InStep, NoRoom, DueAt;
      PlanIsKnown(records);
    }

    lemma NoneLeftOut(records: Records, reserved: set<NodeId>, n: nat)
      ensures LeftOut(records, reserved, 0, n)
    {
    }

    lemma NothingEarly(records: Records)
      ensures Timely(records, active.Keys, tick)
    {
    }

    lemma NothingBooked(records: Records)
      ensures Booked(records, active, active.Keys)
    {
    }

    method ReserveOne(k: NodeId, records: Records, budget: Budget, ghost n: nat)
      requires InStep(records) && Budgeted(budget) && Booked(records, active, budget.reserved)
      requires k in records && k in job.cfg.nodes && (k in budget.reserved ==> k in active) && n <= tick
      modifies this`tick, budget
      ensures old(tick) <= tick && Budgeted(budget) && Booked(records, active, budget.reserved)
      ensures budget.reserved == old(budget.reserved)
           || (budget.reserved == old(budget.reserved) + {k} && k !in active && records[k].status.Ready?)
      ensures active == map[] && old(budget.reserved) == {} && DueAt(records, k, n) ==> budget.reserved != {}
      ensures old(Timely(records, budget.reserved, tick)) ==> Timely(records, budget.reserved, tick)
      ensures DueAt(records, k, n) && k !in active ==> k in budget.reserved || NoRoom(k, budget.reserved)
    {
      hide WithinLimits, Budget.Valid, Budget.Fits, InStep, NoRoom;
      AlwaysOrderly(records, n, tick);
      AlwaysOrderly(records, tick, tick + 1);
      if k !in active && records[k].status.Ready? {
        if budget.reserved == {} {
          RoomForOne(k, records, budget);
        }
        UnfitHasNoRoom(k, records, budget);
        var now := Now();
        if records[k].readyAt <= now && budget.Fits(job.cfg.nodes[k]) {
          budget.Reserve(k);
        }
      }
    }

    lemma AlwaysOrderly(records: Records, n: nat, m: nat)
      requires InStep(records) && n <= m
      ensures world.clock(n) <= world.clock(m)
    {
      assert Orderly(world);
    }

    lemma RoomForOne(k: NodeId, records: Records, budget: Budget)
      requires InStep(records) && Budgeted(budget) && k in job.cfg.nodes && budget.reserved == {}
      ensures budget.Fits(job.cfg.nodes[k])
    {
      assert ValidConfig(job.cfg, job.plan);
      assert ValidNode(job.cfg, k);
      budget.EmptyFits(job.cfg.nodes[k]);
    }

    /** The planning loop over the whole plan. */
    method PlanAll(records: Records, budget: Budget) returns (records': Records, changed: bool, crashed: bool)
      requires InStep(records) && Budgeted(budget) && Booked(records, active, budget.reserved)
      requires Timely(records, budget.reserved, tick)
      modifies this`tick, this`invalid, this`moments, store, budget
      ensures old(invalid) <= invalid
      ensures InStep(records') && records'.Keys == records.Keys && old(tick) <= tick
      ensures Budgeted(budget) && active.Keys <= budget.reserved
      ensures !crashed ==> Timely(records', budget.reserved, tick) && NoneLeft(records', budget.reserved, |job.plan|)
      ensures changed ==> Measure() < old(Measure())
      ensures !changed && !crashed ==>
                && records' == records && Board() == old(Board()) && budget.reserved == old(budget.reserved)
                && unchanged(budget)
                && forall k | k in job.plan && k in records && k in job.cfg.nodes ::
                     !(Plannable(job, records, active, k) && budget.Fits(job.cfg.nodes[k]))
      ensures crashed ==> RaisesNow() && Measure() <= old(Measure())
    {
      hide Inv, Configured, Resolvable, Agrees, Certain, ValidJob, StoreOk, Runs, WithinLimits, RaisesNow, Sum,
           Plannable, VerdictOf, RaisesOn, Explained, Follows, Budgeted, InStep, NodesOf, Planned, Keepable, Kept,
           AlwaysInOrder, SystemOk, Uncertain, Setting, Remembered, Justified, Timely, NoneLeft;
      PlanIsKnown(records);
      NoneYet(records, budget.reserved);
      records', changed, crashed := records, false, false;
      for i := 0 to |job.plan|
        invariant InStep(records') && records'.Keys == records.Keys && old(tick) <= tick
        invariant Budgeted(budget) && Booked(records', active, budget.reserved)
        invariant !crashed && old(invalid) <= invalid
        invariant Timely(records', budget.reserved, tick) && NoneLeft(records', budget.reserved, i)
        invariant changed ==> Measure() < old(Measure())
        invariant !changed ==>
                    && records' == records && Board() == old(Board()) && unchanged(budget)
                    && forall k | k in job.plan[..i] && k in records && k in job.cfg.nodes ::
                         !(Plannable(job, records, active, k) && budget.Fits(job.cfg.nodes[k]))
      {
        var advance;
        ghost var before, reserved, n := records', budget.reserved, tick;
        records', advance := PlanOne(job.plan[i], records', budget);
        if advance.Crashed? {
          Raising(job.plan[i]);
          crashed := true;
          return;
        }
        if advance.Moved? {
          MovedOn(i, before, records', reserved, budget.reserved, n);
        } else {
          AlwaysOrderly(records', n, tick);
          StillTimely(records', budget.reserved, n, tick);
          LeftAfterStay(i, records', budget);
        }
        changed := changed || advance.Moved?;
      }
    }

    /** Among the first `i` nodes of the plan none is left that could still be planned and has room. */
    ghost predicate NoneLeft(records: Records, reserved: set<NodeId>, i: nat)
      reads this`active
      requires i <= |job.plan|
    {
      forall j | 0 <= j < i && job.plan[j] in records && job.plan[j] in job.cfg.nodes ::
        Plannable(job, records, active, job.plan[j]) ==> NoRoom(job.plan[j], reserved)
    }

    lemma NoneYet(records: Records, reserved: set<NodeId>)
      ensures NoneLeft(records, reserved, 0)
    {
    }

    lemma LeftAfterStay(i: nat, records: Records, budget: Budget)
      requires InStep(records) && Budgeted(budget) && Booked(records, active, budget.reserved)
      requires i < |job.plan| && NoneLeft(records, budget.reserved, i)
      requires job.plan[i] in job.cfg.nodes && job.plan[i] in records
      requires !(Plannable(job, records, active, job.plan[i]) && budget.Fits(job.cfg.nodes[job.plan[i]]))
      ensures NoneLeft(records, budget.reserved, i + 1)
    {
      hide InStep, Budgeted, Budget.Fits, NoRoom, DependenciesSettled;
      if Plannable(job, records, active, job.plan[i]) {
        UnfitHasNoRoom(job.plan[i], records, budget);
      }
    }

    /** A node that was planned is not planned again, and no node before it depends on it. */
    lemma LeftAfterMove(i: nat, before: Records, after: Records, small: set<NodeId>, large: set<NodeId>)
      requires ValidJob(job) && i < |job.plan| && small <= large && NoneLeft(before, small, i)
      requires var k := job.plan[i];
               k in before && k in after && after == before[k := after[k]] && !after[k].status.Pending?
      ensures NoneLeft(after, large, i + 1)
    {
      hide NoRoom, ValidNode, Retryable;
      assert Planned(job.cfg.nodes, job.plan);
      forall j | 0 <= j < i + 1 && job.plan[j] in after && job.plan[j] in job.cfg.nodes
                 && Plannable(job, after, active, job.plan[j])
        ensures NoRoom(job.plan[j], large)
      {
        assert job.plan[j] != job.plan[i];
        assert forall d | d in job.cfg.nodes[job.plan[j]].dependencies :: d in job.plan[..j] && d != job.plan[i];
        assert Plannable(job, before, active, job.plan[j]);
        StillNoRoom(job.plan[j], small, large);
      }
    }

    lemma MovedOn(i: nat, before: Records, after: Records, small: set<NodeId>, large: set<NodeId>, n: nat)
      requires InStep(after) && i < |job.plan| && n <= tick && small <= large
      requires NoneLeft(before, small, i) && Timely(before, small, n)
      requires var k := job.plan[i];
               && k in before && k in after && after == before[k := after[k]] && !after[k].status.Pending?
               && large <= small + {k}
               && (after[k].status.Ready? ==> n < tick && after[k].readyAt == world.clock(tick - 1))
      ensures NoneLeft(after, large, i + 1) && Timely(after, large, tick)
    {
      hide Inv, Resolvable, Agrees, Certain, StoreOk, Runs, NoRoom, ValidConfig, Keepable, Kept, AlwaysInOrder,
           SystemOk, Uncertain, NoneLeft, Timely;
      LeftAfterMove(i, before, after, small, large);
      TimelyAfterMove(job.plan[i], before, after, small, large, n);
    }

    lemma TimelyAfterMove(
      k: NodeId, before: Records, after: Records, small: set<NodeId>, large: set<NodeId>, n: nat
    )
      requires Orderly(world) && n <= tick && Timely(before, small, n)
      requires k in after && after == before[k := after[k]] && large <= small + {k}
      requires after[k].status.Ready? ==> n < tick && after[k].readyAt == world.clock(tick - 1)
      ensures Timely(after, large, tick)
    {
      assert world.clock(n) <= world.clock(tick);
      forall j | InBatch(j, after, large) ensures after[j].readyAt <= world.clock(tick) {
        if j != k {
          assert InBatch(j, before, small);
        }
      }
    }

    ghost predicate InBatch(k: NodeId, records: Records, reserved: set<NodeId>)
      reads this`active
    {
      k in reserved && k !in active && k in records && records[k].status.Ready?
    }

    /** The contexts of the reserved READY nodes, in plan order. */
    method BuildBatch(records: Records, reserved: set<NodeId>) returns (batch: seq<Context>)
      requires InStep(records) && active.Keys <= reserved
      modifies this`tick
      ensures InStep(records) && Board() == old(Board()) && old(tick) <= tick
      ensures forall ctx | ctx in batch :: Dispatchable(job, Board(), ctx) && InBatch(ctx.nodeId, records, reserved)
      ensures OneEach(batch)
      ensures forall k | k in job.plan && InBatch(k, records, reserved) :: k in Ids(batch)
    {
      hide InStep, Dispatchable, Board, Ids, OneEach;
      PlanIsKnown(records);
      EmptyBatch();
      batch := [];
      for i := 0 to |job.plan|
        invariant old(tick) <= tick
        invariant forall ctx | ctx in batch ::
                    Dispatchable(job, Board(), ctx) && InBatch(ctx.nodeId, records, reserved)
        invariant OneEach(batch) && forall j | i <= j < |job.plan| :: job.plan[j] !in Ids(batch)
        invariant forall j | 0 <= j < i && InBatch(job.plan[j], records, reserved) :: job.plan[j] in Ids(batch)
      {
        var k := job.plan[i];
        if k in reserved && k !in active && records[k].status.Ready? {
          var ctx := BuildContext(k, records);
          OneMore(batch, ctx);
          batch := batch + [ctx];
        }
      }
    }

    lemma EmptyBatch()
      ensures Ids([]) == {} && OneEach([])
    {
    }

    lemma OneMore(batch: seq<Context>, ctx: Context)
      ensures Ids(batch + [ctx]) == Ids(batch) + {ctx.nodeId}
      ensures OneEach(batch) && ctx.nodeId !in Ids(batch) ==> OneEach(batch + [ctx])
      ensures forall c | c in batch + [ctx] :: c in batch || c == ctx
    {
    }

    /** `_context`, with the deadline of this attempt. */
    method BuildContext(k: NodeId, records: Records) returns (ctx: Context)
      requires InStep(records) && k in job.cfg.nodes && k in records && k !in active && records[k].status.Ready?
      modifies this`tick
      ensures old(tick) < tick && ctx.nodeId == k && Dispatchable(job, Board(), ctx)
      ensures ctx.deadline == Earlier(end, world.clock(tick - 1) + job.cfg.nodes[k].timeout)
    {
      hide Inv, Configured, Resolvable, Agrees, Certain, ValidJob, StoreOk, Runs, Dispatchable, Statuses, UpstreamOf,
           Resolve, Keepable, Kept, AlwaysInOrder, SystemOk, Uncertain;
      var node := job.cfg.nodes[k];
      Parts();
      ContextViews(job, Board(), records, k);
      var now := Now();
      ctx := Context(job.run, k, records[k].attempt, records[k].claim.value, records[k].inputs.value, job.cfg,
                     Earlier(end, now + node.timeout), UpstreamOf(records, node.dependencies),
                     Statuses(records, node.dependencies),
                     ParametersOf(job, k, records[k].attempt, records).value);
    }

    /** `DispatchSession.submit`. */
    method Submit(batch: seq<Context>) returns (refusal: Option<Failure>)
      requires Valid() && Resolvable(job, Board(), {}) && OneEach(batch)
      requires forall ctx | ctx in batch :: Dispatchable(job, Board(), ctx)
      modifies this`active, this`moments
      ensures Valid() && Resolvable(job, Board(), {})
      ensures refusal == if batch == [] || |old(active)| + |batch| > job.cfg.maxParallel
                then Some(Workflow("INVALID_DISPATCH"))
                         else None
      ensures refusal.Some? ==> active == old(active)
      ensures refusal.None? ==> active.Keys == old(active.Keys) + Ids(batch) && Measure() < old(Measure())
    {
      hide Valid, Resolvable, Dispatchable, Sum, Measure, Board, Ids, OneEach;
      if batch == [] || |active| + |batch| > job.cfg.maxParallel {
        return Some(Workflow("INVALID_DISPATCH"));
      }
      if exists ctx | ctx in batch :: ctx.nodeId in active {
        var ctx :| ctx in batch && ctx.nodeId in active;
        NotInFlight(ctx);
        assert false;
      }
      IdsGrow(batch, 0);
      for i := 0 to |batch|
        invariant Valid() && Resolvable(job, Board(), {})
        invariant active.Keys == old(active.Keys) + Ids(batch[..i])
        invariant DispatchableFrom(batch, i)
        invariant Measure() <= old(Measure()) && (i > 0 ==> Measure() < old(Measure()))
      {
        LaunchNext(batch, i);
        IdsGrow(batch, i);
      }
      assert batch[..|batch|] == batch;
      refusal := None;
    }

    lemma NotInFlight(ctx: Context)
      requires Dispatchable(job, Board(), ctx)
      ensures ctx.nodeId !in active
    {
    }

    ghost predicate DispatchableFrom(batch: seq<Context>, i: nat)
      reads this`active, this`invalid, store
    {
      forall j | i <= j < |batch| :: Dispatchable(job, Board(), batch[j])
    }

    method LaunchNext(batch: seq<Context>, i: nat)
      requires Valid() && Resolvable(job, Board(), {}) && OneEach(batch)
      requires i < |batch| && DispatchableFrom(batch, i)
      modifies this`active, this`moments
      ensures Valid() && Resolvable(job, Board(), {}) && DispatchableFrom(batch, i + 1)
      ensures active.Keys == old(active.Keys) + {batch[i].nodeId} && Measure() < old(Measure())
    {
      hide Valid, Resolvable, Dispatchable, Measure, Board;
      Launch(batch[i]);
    }

    /** Handing one context to the executor. */
    method Launch(ctx: Context)
      requires Valid() && Resolvable(job, Board(), {}) && Dispatchable(job, Board(), ctx)
      modifies this`active, this`moments
      ensures Valid() && Resolvable(job, Board(), {})
      ensures active == old(active)[ctx.nodeId := ctx] && Measure() < old(Measure())
      ensures forall other: Context | other.nodeId != ctx.nodeId && old(Dispatchable(job, Board(), other)) ::
                Dispatchable(job, Board(), other)
    {
      hide Inv, Resolvable, Configured, ValidJob, StoreOk, Runs, Dispatchable, Sum, Keepable, Kept, AlwaysInOrder,
           SystemOk, Uncertain;
      Parts();
      ghost var b := Board();
      TakeOff(b, ctx);
      NewFlightKept(b, ctx);
      active := active[ctx.nodeId := ctx];
      Remember(store.log);
      forall other: Context | other.nodeId != ctx.nodeId && Dispatchable(job, b, other)
        ensures Dispatchable(job, Board(), other)
      {
        OthersDispatchable(b, ctx, other);
      }
    }

    lemma NewFlightKept(b: Board, ctx: Context)
      requires Dispatchable(job, b, ctx) && Kept(job, b, keep)
      ensures Kept(job, b.(active := b.active[ctx.nodeId := ctx]), keep)
    {
      hide Kept;
      PreparedIsOther(job, b, keep, ctx.nodeId, {});
      FlightKept(job, b, keep, b.active[ctx.nodeId := ctx]);
    }

    lemma TakeOff(b: Board, ctx: Context)
      requires ValidJob(job) && Inv(job, b) && Resolvable(job, b, {}) && Dispatchable(job, b, ctx)
      ensures var b' := b.(active := b.active[ctx.nodeId := ctx]);
              && Inv(job, b') && Resolvable(job, b', {})
              && Sum(job.cfg.nodes, job.plan, b') < Sum(job.cfg.nodes, job.plan, b)
    {
      hide Inv, Resolvable, Sum, ContextHolds, Keepable, Kept, AlwaysInOrder, SystemOk, Uncertain;
      Basics(job, b, ctx.nodeId);
      DispatchKeeps(job, b, ctx.nodeId, ctx);
      FlightDrops(job, b, b.(active := b.active[ctx.nodeId := ctx]), ctx.nodeId);
      SameRecordsResolve(job, b, b.(active := b.active[ctx.nodeId := ctx]));
    }

    lemma OthersDispatchable(b: Board, ctx: Context, other: Context)
      requires Dispatchable(job, b, other) && other.nodeId != ctx.nodeId
      ensures Dispatchable(job, b.(active := b.active[ctx.nodeId := ctx]), other)
    {
    }

    // ----- One iteration -----

    /** The state between two iterations; what is in flight respects every limit. */
    ghost predicate Steady()
      reads this`active, this`invalid, this`moments, this`lost, store
    {
      Valid() && Resolvable(job, Board(), {}) && WithinLimits(job.cfg, job.plan, active.Keys)
    }

    /** What the run's records are, once the workers have made their calls at tick `n`. */
    ghost function Seen(n: nat): Records
      reads this`active, store
    {
      NodesOf(Served(store.Projection(), job, active, world.calls(n), world.clock(n)), job.run)
    }

    method Observe() returns (records: Records)
      requires Steady()
      modifies this`tick, this`moments, store
      ensures Steady() && records == Board().recs && tick == old(tick) + 1
      ensures Measure() == old(Measure()) && records == old(Seen(tick))
    {
      hide Inv, Resolvable, StoreOk, Sum, Undisturbed, Configured, Keepable, Kept, AlwaysInOrder, SystemOk, Uncertain;
      ghost var b := Board();
      ghost var none: set<NodeId> := {};
      assert none !! active.Keys;
      Interfere(none);
      UndisturbedSum(job, b, Board());
      records := store.NodesOfRun(job.run);
    }

    /** The nodes in flight that the executor has returned. */
    function Landed(flight: map<NodeId, Context>, n: nat): set<NodeId> {
      set k | k in flight && k in world.returned(n)
    }

    /** The nodes in flight that come back at tick `n` without a terminal record, and whose executor cannot tell
        whether they have stopped. */
    ghost function Losing(n: nat): set<NodeId>
      reads this`active, store
    {
      set k | k in active && k in world.returned(n + 1) && k in Seen(n)
              && Seen(n)[k].status in {Ready, Running} && world.exit(n + 1, k).uncertain
    }

    /** The session gives such a node up, and the lease is held. */
    ghost predicate MustStop(n: nat)
      reads this`active, store
    {
      && Losing(n) != {} && (job.cfg.eager || active.Keys <= world.returned(n + 1))
      && world.leaseHeld(n + 2)
    }

    /** `DispatchSession.reap`: exactly the returned attempts leave the session, and each record shows its own
        outcome or how the executor found the attempt. In barrier mode `submit` has not returned before the whole
        batch has. */
    method Reap() returns (blocked: bool)
      requires Steady()
      modifies this`tick, this`active, this`moments, this`lost, store
      ensures Steady() && Measure() <= old(Measure()) && tick == old(tick) + 2
      ensures active.Keys == if blocked then old(active.Keys) else old(active.Keys) - Landed(old(active), tick - 1)
      ensures blocked <==> !job.cfg.eager && !(old(active.Keys) <= world.returned(tick - 1))
      ensures blocked ==> active != map[]
      ensures !job.cfg.eager && !blocked ==> active == map[]
      ensures forall k | k in Landed(old(active), tick - 1) ::
                && k in old(Seen(tick)) && k in Board().recs && Terminal(Board().recs[k].status)
                && Shows(old(Seen(tick))[k], world.exit(tick - 1, k), Board().recs[k])
      ensures lost == old(lost) + old(Losing(tick))
    {
      hide Steady, Measure, Board, Valid, Resolvable, WithinLimits, Terminal, Shows;
      SteadyParts();
      ghost var seen := Observe();
      tick := tick + 1;
      var done := Landed(active, tick - 1);
      FinishAll(done, tick - 1);
      assert lost == old(lost) + old(Losing(tick));
      blocked := !job.cfg.eager && done != active.Keys;
      if !blocked {
        LandAll(done);
      }
    }

    /** What the records are after the executor's reports on `done`, and which of them are uncertain. */
    ghost predicate Reported(seen: Records, recs: Records, done: set<NodeId>, n: nat) {
      && recs.Keys == seen.Keys && done <= recs.Keys
      && (forall k | k in done :: Terminal(recs[k].status) && Shows(seen[k], world.exit(n, k), recs[k]))
      && (forall k | k in recs && k !in done :: recs[k] == seen[k])
    }

    ghost function Unsure(seen: Records, done: set<NodeId>, n: nat): set<NodeId> {
      set k | k in done && k in seen && seen[k].status in {Ready, Running} && world.exit(n, k).uncertain
    }

    /** What has returned without a terminal record is failed by the executor. */
    method FinishAll(done: set<NodeId>, n: nat)
      requires Steady() && done <= active.Keys && n < tick
      modifies this`moments, this`lost, store
      ensures Steady() && Measure() == old(Measure())
      ensures Reported(old(Board()).recs, Board().recs, done, n)
      ensures lost == old(lost) + Unsure(old(Board()).recs, done, n)
    {
      hide Valid, Resolvable, WithinLimits, Inv, StoreOk, Configured, Terminal, Sum, Reported, Unsure;
      var todo := done;
      NothingReported(old(Board()).recs, n);
      assert done - todo == {};
      while todo != {}
        invariant todo <= done && Valid() && Resolvable(job, Board(), {}) && Measure() == old(Measure())
        invariant Reported(old(Board()).recs, Board().recs, done - todo, n)
        invariant lost == old(lost) + Unsure(old(Board()).recs, done - todo, n)
      {
        var k :| k in todo;
        ghost var before := done - todo;
        FinishReturned(k, n, old(Board()).recs, before);
        todo := todo - {k};
        assert done - todo == before + {k};
        UnsureGrows(old(Board()).recs, before, k, n);
      }
      assert done - todo == done;
    }

    lemma NothingReported(seen: Records, n: nat)
      ensures Reported(seen, seen, {}, n) && Unsure(seen, {}, n) == {}
    {
    }

    lemma UnsureGrows(seen: Records, done: set<NodeId>, k: NodeId, n: nat)
      ensures Unsure(seen, done + {k}, n) == Unsure(seen, done, n) + Unsure(seen, {k}, n)
    {
    }

    /** `ExecutorBase.fail`, unless `terminal`: its own record shows how the executor lost the attempt. */
    method FinishReturned(k: NodeId, n: nat, ghost seen: Records, ghost done: set<NodeId>)
      requires Valid() && Resolvable(job, Board(), {}) && k in active && k !in done
      requires Reported(seen, Board().recs, done, n)
      modifies this`moments, this`lost, store
      ensures Valid() && Resolvable(job, Board(), {}) && Measure() == old(Measure())
      ensures Reported(seen, Board().recs, done + {k}, n)
      ensures lost == old(lost) + Unsure(seen, {k}, n)
    {
      hide Valid, Resolvable, Board, Measure, Terminal, Shows, Reported, Unsure, Configured, Inv, ValidJob, StoreOk,
           Runs, Kept, Planned, NodesOf;
      Readable(k);
      AsSeen(seen, done, k, n);
      var recs := store.NodesOfRun(job.run);
      ghost var b := Board();
      if !Terminal(recs[k].status) {
        FailAndLose(k, n, seen);
      } else {
        SeenTerminal(seen, b.recs, k, n);
      }
      OneMoreReported(seen, b.recs, Board().recs, done, k, n);
    }

    method FailAndLose(k: NodeId, n: nat, ghost seen: Records)
      requires Valid() && Resolvable(job, Board(), {}) && k in active && k in Board().recs
      requires !Terminal(Board().recs[k].status) && k in seen && seen[k] == Board().recs[k]
      modifies this`moments, this`lost, store
      ensures Valid() && Resolvable(job, Board(), {}) && Measure() == old(Measure())
      ensures Board().recs.Keys == old(Board().recs.Keys) && Terminal(Board().recs[k].status)
      ensures Shows(seen[k], world.exit(n, k), Board().recs[k])
      ensures forall j | j in Board().recs && j != k :: Board().recs[j] == old(Board()).recs[j]
      ensures lost == old(lost) + Unsure(seen, {k}, n)
    {
      hide Valid, Resolvable, Measure, Terminal, Shows, Unsure;
      FailReturned(k, n);
      NowUncertain(seen, k, n);
      Lose(Unsure(seen, {k}, n));
    }

    method FailReturned(k: NodeId, n: nat)
      requires Valid() && Resolvable(job, Board(), {}) && k in active && k in Board().recs
      requires !Terminal(Board().recs[k].status)
      modifies this`moments, store
      ensures Valid() && Resolvable(job, Board(), {}) && Measure() == old(Measure())
      ensures Board().recs.Keys == old(Board().recs.Keys) && Terminal(Board().recs[k].status)
      ensures Shows(old(Board()).recs[k], world.exit(n, k), Board().recs[k])
      ensures forall j | j in Board().recs && j != k :: Board().recs[j] == old(Board()).recs[j]
    {
      hide Inv, Resolvable, StoreOk, Configured, Undisturbed, Sum, After, WorkerCall, Terminal, ExitReport, Keepable,
           Kept, AlwaysInOrder, SystemOk, Shows, Uncertain;
      ghost var b := Board();
      var c := Finish(active[k], ExitReport(world.exit(n, k)));
      var now := world.clock(n);
      ExitReported(k, world.exit(n, k), c, now);
      ServeWorker(c, now, {});
      UndisturbedSum(job, b, Board());
    }

    lemma Readable(k: NodeId)
      requires Valid() && k in active
      ensures store.Valid() && Board().recs == NodesOf(store.Projection(), job.run) && k in Board().recs
    {
      FlightIsKnown();
    }

    lemma AsSeen(seen: Records, done: set<NodeId>, k: NodeId, n: nat)
      requires Reported(seen, Board().recs, done, n) && k in Board().recs && k !in done
      ensures k in seen && seen[k] == Board().recs[k]
    {
    }

    ghost method Lose(more: set<NodeId>)
      requires Valid() && Uncertain(Board().recs, lost + more)
      modifies this`lost
      ensures Valid() && lost == old(lost) + more
    {
      hide Setting, Inv, Kept, Remembered, Uncertain;
      lost := lost + more;
    }

    lemma NowUncertain(seen: Records, k: NodeId, n: nat)
      requires Valid()
      requires k in seen && k in Board().recs && Shows(seen[k], world.exit(n, k), Board().recs[k])
      ensures Uncertain(Board().recs, lost + Unsure(seen, {k}, n))
    {
    }

    lemma SeenTerminal(seen: Records, recs: Records, k: NodeId, n: nat)
      requires k in seen && k in recs && seen[k] == recs[k] && Terminal(recs[k].status)
      ensures Shows(seen[k], world.exit(n, k), recs[k]) && Unsure(seen, {k}, n) == {}
    {
    }

    lemma OneMoreReported(seen: Records, before: Records, recs: Records, done: set<NodeId>, k: NodeId, n: nat)
      requires Reported(seen, before, done, n) && k in seen && k in before && recs.Keys == before.Keys
      requires Terminal(recs[k].status) && Shows(seen[k], world.exit(n, k), recs[k])
      requires forall j | j in recs && j != k :: recs[j] == before[j]
      ensures Reported(seen, recs, done + {k}, n)
    {
      hide Terminal, Shows, Valid, Setting, Inv;
    }

    lemma ExitReported(k: NodeId, exit: Exit, c: Command, now: real)
      requires Valid() && k in active && c == Finish(active[k], ExitReport(exit))
      requires k in Board().recs && !Terminal(Board().recs[k].status)
      ensures WorkerCall(job, Board().recs, active, c)
      ensures var recs := NodesOf(After(store.Projection(), c, now), job.run);
              && recs.Keys == Board().recs.Keys && Shows(Board().recs[k], exit, recs[k]) && Terminal(recs[k].status)
              && forall j | j in recs && j != k :: recs[j] == Board().recs[j]
    {
      hide Inv, Configured, After, WorkerCall, Keepable, Kept, AlwaysInOrder, SystemOk, ExitReport, Shows, Uncertain;
      Parts();
      ExitIsReport(job, Board(), k, exit);
      FlightAttempted(k);
      ExitShows(store.Projection(), job, Board(), k, exit, c, now);
    }

    lemma FlightAttempted(k: NodeId)
      requires Valid() && k in active && k in Board().recs && !Terminal(Board().recs[k].status)
      ensures Board().recs[k].status in {Ready, Running}
    {
      assert NodeInv(job, Board(), k);
    }

    lemma SteadyParts()
      requires Steady()
      ensures Valid() && Resolvable(job, Board(), {}) && WithinLimits(job.cfg, job.plan, active.Keys)
    {
    }

    method LandAll(done: set<NodeId>)
      requires Steady()
      requires forall k | k in done :: k in active && k in Board().recs && Terminal(Board().recs[k].status)
      modifies this`active, this`moments
      ensures Steady() && active.Keys == old(active.Keys) - done
      ensures Board().recs == old(Board().recs) && Measure() <= old(Measure())
    {
      hide Valid, Resolvable, WithinLimits, Inv, StoreOk, Configured, Terminal, Board, Measure;
      ghost var before := active.Keys;
      var todo := done;
      while todo != {}
        invariant todo <= done && active.Keys == before - (done - todo)
        invariant Valid() && Resolvable(job, Board(), {})
        invariant Board().recs == old(Board().recs) && Measure() <= old(Measure())
      {
        var k :| k in todo;
        Land(k);
        todo := todo - {k};
      }
      SubsetWithinLimits(job.cfg, job.plan, active.Keys, before);
    }

    /** Removing one finished context from the session. */
    method Land(k: NodeId)
      requires Valid() && Resolvable(job, Board(), {})
      requires k in active && k in Board().recs && Terminal(Board().recs[k].status)
      modifies this`active, this`moments
      ensures Valid() && Resolvable(job, Board(), {}) && active == old(active) - {k}
      ensures Board().recs == old(Board().recs) && Measure() < old(Measure())
    {
      hide Inv, Resolvable, StoreOk, Sum, Configured, Runs, Planned, NodesOf, Terminal, ValidJob, Keepable, Kept,
           AlwaysInOrder, SystemOk, Uncertain;
      FlightIsKnown();
      ghost var b := Board();
      ReapedBoard(job, b, k);
      FlightKept(job, b, keep, active - {k});
      active := active - {k};
      Remember(store.log);
      assert Board() == b.(active := b.active - {k});
    }

    lemma FlightIsKnown()
      requires Valid()
      ensures active.Keys <= Board().recs.Keys == job.cfg.nodes.Keys && Planned(job.cfg.nodes, job.plan)
      ensures Distinct(job.plan) && forall k | k in active :: k in job.plan
    {
    }

    /** `guard.check()`. */
    method CheckLease() returns (held: bool)
      modifies this`tick
      ensures tick == old(tick) + 1 && held == world.leaseHeld(old(tick))
    {
      held := world.leaseHeld(tick);
      tick := tick + 1;
    }

    /** Whatever is in flight was so before, or its delay had passed at clock reading `n`. */
    ghost predicate OnTime(before: set<NodeId>, n: nat)
      reads this`active, store
    {
      RipeAt(active.Keys - before, n)
    }

    ghost predicate RipeAt(ids: set<NodeId>, n: nat)
      reads store
    {
      var recs := NodesOf(store.Projection(), job.run);
      forall k | k in ids :: k in recs && recs[k].readyAt <= world.clock(n)
    }

    /** Building and submitting the batch: every reserved READY node, unless the deadline passes; `None` when there
        is nothing to submit. */
    method Dispatch(records: Records, reserved: set<NodeId>) returns (turn: Option<Turn>)
      requires InStep(records) && active.Keys <= reserved && WithinLimits(job.cfg, job.plan, reserved)
      requires Timely(records, reserved, tick)
      modifies this`tick, this`active, this`moments, store
      ensures Steady() && old(tick) <= tick
      ensures turn.None? ==> Board() == old(Board()) && active == old(active) && InStep(records)
      ensures turn.None? ==> forall k | k in job.plan :: !InBatch(k, records, reserved)
      ensures turn.Some? ==> turn.value == Progress || (turn.value == Aborted(LEASE_LOST) && LostLease(old(tick), tick))
      ensures turn == Some(Progress) ==>
                Late() || forall k | k in job.plan && old(InBatch(k, records, reserved)) :: k in active
      ensures Measure() <= old(Measure()) && (turn == Some(Progress) ==> Measure() < old(Measure()))
      ensures OnTime(old(active.Keys), tick)
    {
      hide Valid, InStep, Resolvable, Sum, WithinLimits, Dispatchable, Measure, Undispatched, Board, OneEach, Agrees,
           InBatch, Timely, OnTime, RipeAt, Setting;
      InStepParts(records);
      SubsetWithinLimits(job.cfg, job.plan, active.Keys, reserved);
      ghost var n := tick;
      var batch := BuildBatch(records, reserved);
      if batch == [] {
        AlreadyOnTime();
        return None;
      }
      BatchOnTime(records, reserved, batch, n);
      var now := Now();
      if now >= end {
        CancelLate(records, batch[0]);
        AlreadyOnTime();
        return Some(Progress);
      }
      var held := CheckLease();
      AlreadyOnTime();
      if !held {
        return Some(Aborted(LEASE_LOST));
      }
      StillOnTime(Ids(batch), tick - 2, tick);
      var submitted := SubmitWithin(batch, reserved);
      turn := Some(submitted);
    }

    lemma AlreadyOnTime()
      ensures OnTime(active.Keys, tick)
    {
    }

    lemma StillOnTime(ids: set<NodeId>, n: nat, m: nat)
      requires Valid() && n <= m
      requires RipeAt(ids, n)
      ensures RipeAt(ids, m)
    {
      assert Orderly(world);
    }

    lemma BatchOnTime(records: Records, reserved: set<NodeId>, batch: seq<Context>, n: nat)
      requires InStep(records) && n <= tick && Timely(records, reserved, n)
      requires forall ctx | ctx in batch :: InBatch(ctx.nodeId, records, reserved)
      ensures forall ctx | ctx in batch :: ctx.nodeId in reserved
      ensures RipeAt(Ids(batch), tick)
    {
      hide Valid, Resolvable, Certain;
      AlwaysOrderly(records, n, tick);
      forall k | k in Ids(batch)
        ensures k in Board().recs && Board().recs[k].readyAt <= world.clock(tick)
      {
        assert InBatch(k, records, reserved);
        assert records[k] == Board().recs[k];
      }
    }

    /** The deadline has passed while the batch was built: everything undispatched is cancelled. */
    method CancelLate(records: Records, ghost ctx: Context)
      requires InStep(records) && WithinLimits(job.cfg, job.plan, active.Keys)
      requires Dispatchable(job, Board(), ctx) && Late()
      modifies this`tick, this`moments, store
      ensures Steady() && old(tick) <= tick && Measure() < old(Measure()) && Late()
    {
      hide Valid, InStep, Resolvable, WithinLimits, Dispatchable, Measure, Board, Agrees, Undispatched, FailingFast,
           LateBy;
      BatchUndispatched(records, ctx);
      var records', cancelled := CancelPending(records);
      InStepParts(records');
      LateStays(records', old(tick), tick);
    }

    method SubmitWithin(batch: seq<Context>, ghost reserved: set<NodeId>) returns (turn: Turn)
      requires Valid() && Resolvable(job, Board(), {}) && OneEach(batch) && batch != []
      requires active.Keys <= reserved && WithinLimits(job.cfg, job.plan, reserved)
      requires forall ctx | ctx in batch :: Dispatchable(job, Board(), ctx) && ctx.nodeId in reserved
      requires RipeAt(Ids(batch), tick)
      modifies this`active, this`moments
      ensures Steady() && turn == Progress && Measure() < old(Measure()) && OnTime(old(active.Keys), tick)
      ensures active.Keys == old(active.Keys) + Ids(batch)
    {
      hide Valid, Resolvable, Sum, WithinLimits, Dispatchable, Measure, Board, OneEach, Ids, NodesOf;
      Admitted(batch, reserved);
      var refusal := Submit(batch);
      SubsetWithinLimits(job.cfg, job.plan, active.Keys, reserved);
      turn := Submitted(refusal);
    }

    lemma InStepParts(records: Records)
      requires InStep(records)
      ensures Valid() && Resolvable(job, Board(), {}) && Agrees(records, Board())
    {
    }

    lemma BatchUndispatched(records: Records, ctx: Context)
      requires InStep(records) && Dispatchable(job, Board(), ctx)
      ensures ctx.nodeId in records && ctx.nodeId in job.plan && Undispatched(records, active, ctx.nodeId)
    {
      PlanIsKnown(records);
    }

    /** The reservations leave room for the batch: INVALID_DISPATCH is never raised. */
    lemma Admitted(batch: seq<Context>, reserved: set<NodeId>)
      requires WithinLimits(job.cfg, job.plan, reserved) && active.Keys <= reserved && OneEach(batch)
      requires forall ctx | ctx in batch :: Dispatchable(job, Board(), ctx) && ctx.nodeId in reserved
      ensures |active| + |batch| <= job.cfg.maxParallel && Ids(batch) <= reserved
    {
      OneEachCounts(batch);
      assert Ids(batch) !! active.Keys;
      assert |active.Keys + Ids(batch)| == |active| + |batch|;
      CardinalityMonotone(active.Keys + Ids(batch), reserved);
    }

    /** Cancelling, reserving, planning, and cancelling again. */
    method PlanPhase(records: Records) returns (records': Records, budget: Budget, changed: bool, crashed: bool)
      requires InStep(records) && Steady()
      modifies this`tick, this`invalid, this`moments, store
      ensures old(invalid) <= invalid
      ensures old(tick) <= tick && InStep(records') && fresh(budget) && Budgeted(budget)
                && active.Keys <= budget.reserved
      ensures if changed then Measure() < old(Measure()) else Measure() <= old(Measure())
      ensures !crashed ==> Timely(records', budget.reserved, tick)
      ensures !changed && !crashed ==>
                && records' == records && Board() == old(Board())
                && (old(Late()) ==> NoneUndispatched(records, active))
                && (old(Late()) || NoRetries(job, records, active) ==> Idle(job, records, active, budget))
                && (active == map[] && Due(records, old(tick)) ==>
                     exists k | k in job.plan :: InBatch(k, records, budget.reserved))
      ensures crashed ==> RaisesNow()
    {
      hide Valid, InStep, Resolvable, Sum, WithinLimits, Board, NoRetries, NoneUndispatched, Plannable, RaisesNow,
           Budget.Fits, Budget.Valid, Agrees, Certain, Inv, Configured, Timely, NoneLeft, CancelledAt, NoRoom;
      var cancelled, replanned, late;
      records', cancelled := CancelPending(records);
      budget := CountActive(records');
      LaterDue(records', old(tick), tick);
      ReserveReady(records', budget);
      SomeReserved(records', budget.reserved);
      records', replanned, crashed := PlanAll(records', budget);
      changed := cancelled || replanned;
      if !crashed {
        ghost var planned, n := records', tick;
        records', late := CancelPending(records');
        TimelyAfterCancel(planned, records', budget.reserved, n);
        changed := changed || late;
      }
    }

    lemma TimelyAfterCancel(before: Records, after: Records, reserved: set<NodeId>, n: nat)
      requires InStep(after) && after.Keys == before.Keys && n <= tick && Timely(before, reserved, n)
      requires forall k | k in before && k in job.cfg.nodes :: CancelledAt(k, before, after, n, tick)
      ensures Timely(after, reserved, tick)
    {
      hide InStep, FailingFast, SuccessPath, Undispatched, LateBy;
      PlanIsKnown(after);
      AlwaysOrderly(after, n, tick);
      forall k | InBatch(k, after, reserved) ensures after[k].readyAt <= world.clock(tick) {
        assert CancelledAt(k, before, after, n, tick);
        assert InBatch(k, before, reserved);
      }
    }

    lemma LaterDue(records: Records, n: nat, m: nat)
      requires InStep(records) && n <= m
      ensures Due(records, n) ==> Due(records, m)
    {
      if Due(records, n) {
        var k :| k in records && DueAt(records, k, n);
        AlwaysOrderly(records, n, m);
        assert DueAt(records, k, m);
      }
    }

    lemma SomeReserved(records: Records, reserved: set<NodeId>)
      requires InStep(records) && Booked(records, active, reserved)
      ensures active == map[] && reserved != {} ==> exists k | k in job.plan :: InBatch(k, records, reserved)
    {
      if active == map[] && reserved != {} {
        var k :| k in reserved;
        PlanIsKnown(records);
        assert InBatch(k, records, reserved);
      }
    }

    lemma Exhausted(records: Records)
      requires InStep(records) && active == map[] && forall k | k in records :: Terminal(records[k].status)
      ensures Settled(Board().recs) && forall k | k in Board().recs :: !Board().recs[k].uncertain
    {
      assert forall k | k in Board().recs :: records[k] == Board().recs[k];
    }

    lemma NoStall(records: Records, budget: Budget)
      requires InStep(records) && Budgeted(budget) && Idle(job, records, active, budget) && active == map[]
      requires forall k | k in records :: !records[k].status.Ready?
      ensures forall k | k in records :: Terminal(records[k].status)
    {
      hide Inv, Idle, Keepable, Kept, AlwaysInOrder, SystemOk, Uncertain;
      NeverStalls(job, Board(), records, budget);
    }

    /** A lease check between two ticks failed. */
    ghost predicate LostLease(m: nat, n: nat) {
      exists i: nat | m <= i < n :: !world.leaseHeld(i)
    }

    /** Something is in flight; or something is READY, and every READY node waits for a delay that had not
        passed at clock reading `n`. */
    ghost predicate HasWork(n: nat)
      reads this`active, this`invalid, store
    {
      active != map[] ||
      (&& (exists k | k in Board().recs :: Board().recs[k].status.Ready?)
       && forall k | k in Board().recs && Board().recs[k].status.Ready? :: Board().recs[k].readyAt > world.clock(n))
    }

    /** At some tick from `n` on the run had not reached its end, or something in flight had not returned. */
    ghost predicate Unfinished(n: nat)
      reads this`active
    {
      exists i: nat | n <= i :: world.clock(i) < end || !(active.Keys <= world.returned(i))
    }

    /** What the end of an iteration, or of the loop, between ticks `m` and `n` means. */
    ghost predicate Justified(turn: Turn, m: nat, n: nat)
      reads this`active, this`invalid, store
    {
      match turn
      case Complete =>
        active == map[] && Settled(Board().recs) && forall k | k in Board().recs :: !Board().recs[k].uncertain
      case Unconfirmed => exists k | k in Board().recs :: Board().recs[k].uncertain
      case Waited => HasWork(m) && Unfinished(m)
      case Aborted(error) => (error == LEASE_LOST && LostLease(m, n)) || (error == KEY_ERROR && RaisesNow())
      case Progress => true
    }

    lemma LostIsUncertain()
      requires Steady()
      ensures forall k | k in lost :: k in Board().recs && Board().recs[k].uncertain
    {
    }

    lemma SnapshotInStep(records: Records)
      requires Steady() && records == Board().recs && forall k | k in records :: !records[k].uncertain
      ensures InStep(records)
    {
    }

    lemma ClockIsOrderly()
      requires Steady()
      ensures Orderly(world)
    {
    }

    /** A justification holds over a longer stretch. */
    lemma JustifiedLonger(turn: Turn, m: nat, m': nat, n: nat)
      requires Orderly(world) && m' <= m && Justified(turn, m, n)
      ensures Justified(turn, m', n)
    {
      hide HasWork;
      if turn.Waited? {
        WaitsLonger(m', m);
      }
    }

    lemma Waits(turn: Turn, m: nat, m': nat, n: nat)
      requires Orderly(world) && m' <= m && Justified(turn, m, n)
      ensures turn.Waited? ==> HasWork(m') && Unfinished(m')
    {
      hide HasWork;
      if turn.Waited? {
        WaitsLonger(m', m);
      }
    }

    lemma WaitsLonger(n: nat, m: nat)
      requires Orderly(world) && n <= m && HasWork(m)
      ensures HasWork(n)
    {
      assert world.clock(n) <= world.clock(m);
    }

    /** An iteration that waits has seen the run before its end, or an attempt that had not returned. */
    lemma NotYet(n: nat, reaped: nat, m: nat)
      requires n <= reaped < m && (LateBy(m) ==> active != map[])
      requires active.Keys !! world.returned(reaped)
      ensures Unfinished(n)
    {
      if active == map[] {
        assert world.clock(m - 1) < end;
      } else {
        var k :| k in active;
        assert k !in world.returned(reaped);
      }
    }

    /** Everything after the snapshot. */
    method Iterate(records: Records) returns (turn: Turn)
      requires InStep(records) && Steady()
      modifies this`tick, this`active, this`invalid, this`moments, store
      ensures old(invalid) <= invalid
      ensures Steady() && Measure() <= old(Measure()) && old(tick) <= tick
      ensures turn.Progress? ==> Measure() < old(Measure())
      ensures !turn.Unconfirmed? && (turn.Waited? ==> HasWork(old(tick)) && (old(Late()) ==> old(active) != map[]))
      ensures turn.Waited? ==> active == old(active)
      ensures !turn.Waited? ==> Justified(turn, old(tick), tick)
      ensures OnTime(old(active.Keys), tick)
    {
      hide Valid, InStep, Resolvable, Sum, WithinLimits, Board, NoRetries, Idle, RaisesNow, Settled, Budgeted,
           Timely, OnTime, RipeAt, InBatch, Due, HasWork, Configured, Inv, Kept, ValidJob, Budget.Valid, Certain,
           Agrees, Budget.Fits, NoneUndispatched, Setting, Remembered, Uncertain;
      InStepParts(records);
      var planned, retried := RetryAll(records);
      InStepParts(planned);
      if active == map[] && forall k | k in planned :: Terminal(planned[k].status) {
        Exhausted(planned);
        AlreadyOnTime();
        return Complete;
      }
      ghost var planning := tick;
      var records', budget, changed, crashed := PlanPhase(planned);
      InStepParts(records');
      if crashed {
        AlreadyOnTime();
        return Aborted(KEY_ERROR);
      }
      BudgetedParts(budget);
      var dispatched := Dispatch(records', budget.reserved);
      if dispatched.Some? {
        return dispatched.value;
      }
      if retried || changed {
        return Progress;
      }
      var stalled := active == map[] && forall k | k in records' :: !records'[k].status.Ready?;
      if stalled {
        NoStall(records', budget);
      }
      if !stalled {
        Waiting(records', old(tick), planning);
        LateStays(planned, old(tick), planning);
        ReadyIsUndispatched(records');
      }
      turn := if stalled then Aborted(Workflow("SCHEDULER_STALLED")) else Waited;
    }

    lemma ReadyIsUndispatched(records: Records)
      ensures active == map[] && NoneUndispatched(records, active) ==>
                forall k | k in records :: !records[k].status.Ready?
    {
      if exists k | k in records :: records[k].status.Ready? {
        var k :| k in records && records[k].status.Ready?;
        assert k !in active ==> Undispatched(records, active, k);
      }
    }

    lemma Waiting(records: Records, n: nat, m: nat)
      requires InStep(records) && n <= m
      requires active == map[] ==> !Due(records, m) && exists k | k in records :: records[k].status.Ready?
      ensures HasWork(n)
    {
      hide Valid, Resolvable, Certain;
      if active == map[] {
        LaterDue(records, n, m);
        var k :| k in records && records[k].status.Ready?;
        assert Board().recs[k] == records[k];
        forall j | j in Board().recs && Board().recs[j].status.Ready? ensures Board().recs[j].readyAt > world.clock(n) {
          assert !DueAt(records, j, n);
        }
      }
    }

    lemma BudgetedParts(budget: Budget)
      requires Budgeted(budget)
      ensures WithinLimits(job.cfg, job.plan, budget.reserved)
    {
    }

    // ----- The loop -----

    /** One iteration of the `while True` loop. SCHEDULER_STALLED, INVALID_DISPATCH and DUPLICATE_DISPATCH
        are not among the errors that it can end with: it waits only while there is something to wait for,
        and ends with LEASE_LOST only if a lease check failed. */
    method Round() returns (turn: Turn)
      requires Steady()
      modifies this`tick, this`active, this`invalid, this`moments, this`lost, store
      ensures old(invalid) <= invalid
      ensures Steady() && Measure() <= old(Measure()) && old(tick) < tick
      ensures turn.Progress? ==> Measure() < old(Measure())
      ensures Justified(turn, old(tick), tick)
      ensures lost == old(lost) + old(Losing(tick))
      ensures old(MustStop(tick)) ==> turn.Unconfirmed?
      ensures turn.Progress? ==> OnTime(old(active.Keys - Landed(active, tick + 1)), tick)
    {
      hide Steady, InStep, Measure, Valid, Resolvable, WithinLimits, RaisesNow, Settled, Board, Setting, Losing, Seen,
           Uncertain, Justified, HasWork, Unfinished, LostLease, Shows, Terminal, Orderly, RipeAt;
      var blocked := Reap();
      if blocked {
        BlockedWaits(old(tick), old(tick) + 1, tick);
        return Waited;
      }
      turn := Proceed(old(tick));
    }

    /** The iteration after the reap, which began at tick `n`. */
    method Proceed(ghost n: nat) returns (turn: Turn)
      requires Steady() && tick == n + 2 && active.Keys !! world.returned(n + 1)
      modifies this`tick, this`active, this`invalid, this`moments, store
      ensures old(invalid) <= invalid
      ensures Steady() && Measure() <= old(Measure()) && old(tick) < tick
      ensures turn.Progress? ==> Measure() < old(Measure())
      ensures Justified(turn, n, tick)
      ensures lost != {} && world.leaseHeld(n + 2) ==> turn.Unconfirmed?
      ensures OnTime(old(active.Keys), tick)
    {
      hide Steady, InStep, Measure, Valid, Resolvable, WithinLimits, RaisesNow, Settled, Board, Setting, Uncertain,
           Justified, HasWork, Unfinished, LostLease, Terminal, Orderly, OnTime, RipeAt;
      var held := CheckLease();
      AlreadyOnTime();
      if !held {
        LeaseIsLost(n, tick);
        return Aborted(LEASE_LOST);
      }
      LostIsUncertain();
      var records := Observe();
      LostIsUncertain();
      if exists k | k in records :: records[k].uncertain {
        IsUnconfirmed(n, tick);
        AlreadyOnTime();
        return Unconfirmed;
      }
      SnapshotInStep(records);
      ghost var m := tick;
      turn := Iterate(records);
      ClockIsOrderly();
      IterateJustifies(turn, n, n + 1, m);
    }

    lemma BlockedWaits(n: nat, reaped: nat, m: nat)
      requires Steady() && n <= reaped && active != map[] && !(active.Keys <= world.returned(reaped))
      ensures Justified(Waited, n, m)
    {
      hide Valid, Resolvable, WithinLimits, Board;
    }

    lemma LeaseIsLost(n: nat, m: nat)
      requires n < m && !world.leaseHeld(m - 1)
      ensures Justified(Aborted(LEASE_LOST), n, m)
    {
      hide Board;
    }

    lemma IsUnconfirmed(n: nat, m: nat)
      requires exists k | k in Board().recs :: Board().recs[k].uncertain
      ensures Justified(Unconfirmed, n, m)
    {
      hide Board;
    }

    /** What the iteration reports holds of the whole round. */
    lemma IterateJustifies(turn: Turn, n: nat, reaped: nat, m: nat)
      requires Orderly(world) && n <= reaped < m <= tick
      requires turn.Waited? ==> HasWork(m) && (LateBy(m) ==> active != map[]) && active.Keys !! world.returned(reaped)
      requires !turn.Waited? ==> Justified(turn, m, tick)
      ensures Justified(turn, n, tick)
    {
      hide HasWork, Unfinished, LostLease, RaisesNow;
      if turn.Waited? {
        WaitsLonger(n, m);
        NotYet(n, reaped, m);
      } else {
        JustifiedLonger(turn, m, n, tick);
      }
    }

    /** `_execute_graph`: at most `waits` iterations wait, and every other one lowers the measure. It stops
        waiting only when they are used up. */
    method ExecuteGraph(waits: nat) returns (turn: Turn, ghost rounds: nat)
      requires Steady()
      modifies this`tick, this`active, this`invalid, this`moments, this`lost, store
      ensures old(invalid) <= invalid
      ensures Steady() && old(tick) < tick
      ensures !turn.Progress? && Justified(turn, old(tick), tick)
      ensures turn.Waited? ==> HasWork(old(tick) + waits) && Unfinished(old(tick) + waits)
      ensures rounds <= old(Measure()) + waits + 1 && old(lost) <= lost
    {
      hide Steady, Measure, Justified, HasWork, Unfinished, Board, MustStop, Losing, Orderly;
      var left := waits;
      turn := Round();
      ClockIsOrderly();
      Waits(turn, old(tick), old(tick), tick);
      rounds := 1;
      while turn.Progress? || (turn.Waited? && left > 0)
        invariant Steady() && old(invalid) <= invalid && old(lost) <= lost
        invariant Justified(turn, old(tick), tick)
        invariant 0 <= left <= waits && old(tick) + (waits - left) < tick
        invariant turn.Waited? ==> HasWork(old(tick) + (waits - left)) && Unfinished(old(tick) + (waits - left))
        invariant rounds + Measure() + left <=
                  old(Measure()) + waits + if turn.Progress? then 0 else 1
        decreases left, if turn.Progress? then 1 else 0, Measure()
      {
        if turn.Waited? {
          left := left - 1;
        }
        ghost var m := tick;
        turn := Round();
        JustifiedLonger(turn, m, old(tick), tick);
        Waits(turn, m, old(tick) + (waits - left), tick);
        rounds := rounds + 1;
      }
    }
  }
}
