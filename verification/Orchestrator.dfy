/** One orchestrator over one scope: runs that start, end, crash, are reconciled and are recovered. */
module Orchestrator {
  import opened Model
  import opened ControlLog
  import Store = ControlStore
  import opened StoreInvariants
  import opened StoreHistory
  import opened Descendants
  import opened Board
  import opened RunSteps
  import opened Capacity
  import opened Potential
  import opened Planning
  import opened Recovery
  import opened Moments
  import opened Rebuild
  import opened StoreLaws
  import opened Planner
  import opened Validator
  import Scheduler

  datatype RunOutcome = Refused(error: Failure) | Raised(error: Failure) | StillRunning | Ended(status: RunStatus)

  /** The status that `_summary` gives a run. */
  function RunVerdict(records: Records): RunStatus {
    if exists k | k in records :: records[k].uncertain then RunRecoveryRequired
    else if exists k | k in records :: records[k].critical && Bad(records[k].status) then RunFailed
    else RunSucceeded
  }

  /** The verdict on the final records, in the terms of the configuration: an uncertain outcome asks for
      recovery; otherwise the critical nodes decide. */
  ghost predicate Verdict(status: RunStatus, cfg: Config, recs: Records) {
    && (status.RunRecoveryRequired? <==> exists k | k in recs :: recs[k].uncertain)
    && (status.RunFailed? <==>
          && (forall k | k in recs :: !recs[k].uncertain)
          && exists k | k in recs && k in cfg.nodes && cfg.nodes[k].critical ::
               recs[k].status in {Failed, TimedOut, Blocked, Cancelled})
    && (status.RunSucceeded? <==>
          && (forall k | k in recs :: !recs[k].uncertain)
          && forall k | k in recs && k in cfg.nodes && cfg.nodes[k].critical ::
               recs[k].status in {Succeeded, SkippedAlreadySatisfied, SkippedCondition})
  }

  lemma VerdictHolds(t: Tables, run: RunId)
    requires StoreOk(t) && run in t.runs && NodesOf(t, run).Keys == t.runs[run].common.config.nodes.Keys
    requires Settled(NodesOf(t, run)) || exists k | k in NodesOf(t, run) :: NodesOf(t, run)[k].uncertain
    ensures Verdict(RunVerdict(NodesOf(t, run)), t.runs[run].common.config, NodesOf(t, run))
  {
    hide StoreOk;
    var recs, cfg := NodesOf(t, run), t.runs[run].common.config;
    forall k | k in recs ensures recs[k].critical <==> cfg.nodes[k].critical {
      CriticalAsConfigured(t, run, k);
    }
  }

  lemma CriticalAsConfigured(t: Tables, run: RunId, k: NodeId)
    requires StoreOk(t) && run in t.runs && k in NodesOf(t, run) && k in t.runs[run].common.config.nodes
    ensures NodesOf(t, run)[k].critical <==> t.runs[run].common.config.nodes[k].critical
  {
    assert RunOk(t, run);
    assert RecordOk(t, run, k, t.nodes[run][k]);
  }

  /** `finish_run` never raises UNFINISHED_RUN on the verdict of a loop that ended. */
  lemma VerdictFinishes(t: Tables, run: RunId, owner: nat, now: real)
    requires StoreOk(t) && Runs(t, run, Some(owner))
    requires Settled(NodesOf(t, run)) || exists k | k in NodesOf(t, run) :: NodesOf(t, run)[k].uncertain
    ensures Decide(t, FinishRun(run, owner, RunVerdict(NodesOf(t, run))), now).Ok?
    ensures Conventional(t, FinishRun(run, owner, RunVerdict(NodesOf(t, run))))
  {
  }

  /** An uncertain outcome stays uncertain whatever the workers still do. */
  lemma UncertainStays(job: Job, b: Board, b': Board)
    requires Inv(job, b) && Undisturbed(b, b') && exists k | k in b.recs :: b.recs[k].uncertain
    ensures exists k | k in b'.recs :: b'.recs[k].uncertain
  {
    hide Inv;
    var k :| k in b.recs && b.recs[k].uncertain;
    Basics(job, b, k);
    assert b'.recs[k].uncertain;
  }

  lemma SettledStays(job: Job, b: Board, b': Board)
    requires Inv(job, b) && Undisturbed(b, b') && Settled(b.recs)
    ensures Settled(b'.recs)
  {
  }

  class Orchestrator {
    const store: Store.ControlStore
    const produce: Production
    var flight: Option<Flight>
    ghost var readings: Readings

    /** The scope is in order: see `SystemOk`. */
    ghost predicate Valid()
      reads this, store
    {
      store.Valid() && SystemOk(store.Projection(), produce, readings, flight)
    }

    constructor (store: Store.ControlStore, produce: Production)
      requires store.Valid() && store.log == []
      ensures Valid() && this.store == store && this.produce == produce
    {
      this.store, this.produce, flight, readings := store, produce, None, map[];
    }

    /** Another process takes over a scope in order, also one that a crash has left. */
    constructor TakeOver(store: Store.ControlStore, produce: Production, flight: Option<Flight>,
        ghost readings: Readings)
      requires store.Valid() && SystemOk(store.Projection(), produce, readings, flight)
      ensures Valid() && this.store == store && this.produce == produce
      ensures this.flight == flight && this.readings == readings
    {
      this.store, this.produce, this.flight, this.readings := store, produce, flight, readings;
    }

    /** The process dies at one of the moments of its run. What it leaves is in order: workers that were in flight
        may still call, an operator may reconcile, and another run may follow. */
    method Die(m: Moment, ghost moments: seq<Moment>) returns (next: Orchestrator)
      requires store.Valid() && AlwaysInOrder(store.log, moments, produce, readings) && m in moments
      ensures fresh(next) && fresh(next.store) && next.Valid()
      ensures m.count <= |store.log| && next.store.log == store.log[..m.count]
      ensures next.produce == produce && next.flight == Some(m.flight) && next.readings == readings
    {
      hide SystemOk, Fold;
      assert InOrder(store.log, m, produce, readings);
      var left := new Store.ControlStore.Reopen(store.log[..m.count]);
      next := new Orchestrator.TakeOver(left, produce, Some(m.flight), readings);
    }

    /** A dispatched worker, also one whose orchestrator crashed, calls the store. */
    method Work(c: Command, now: real)
      requires Valid() && flight.Some? && flight.value.job.run in store.Projection().runs
      requires Open(store.Projection().runs[flight.value.job.run].status)
      requires WorkerCall(flight.value.job, FlightBoard(store.Projection(), flight.value).recs, flight.value.active, c)
      modifies store
      ensures Valid()
      ensures store.Projection() == After(old(store.Projection()), c, now)
      ensures store.Projection().runs == old(store.Projection().runs)
    {
      hide SystemOk, After;
      ghost var log := store.log;
      WorkerMoves(store.Projection(), produce, readings, flight.value, c, now);
      match c {
        case Claim(ctx) => var _ := store.Claim(ctx, now);
        case Finish(ctx, result) => var _ := store.FinishAttempt(ctx, result, now);
        case Remote(ctx, remote) => var _ := store.RecordRemote(ctx, remote, now);
        case PutOutbox(ctx, digest, reference, operation) =>
          var _ := store.PutOutbox(ctx, digest, reference, operation, now);
      }
      StepFold(log, Call(c, now));
    }

    /** An operator, after confirming that the workers have stopped, closes an abandoned run. */
    method Reconcile(run: RunId, stopped: bool, reasoned: bool, now: real) returns (done: bool)
      requires Valid()
      modifies this`flight, store
      ensures Valid()
      ensures done <==>
                && stopped && reasoned && run in old(store.Projection().runs)
                && Open(old(store.Projection().runs)[run].status)
      ensures done ==> forall o | o in store.Projection().runs :: !Open(store.Projection().runs[o].status)
      ensures !done ==> store.Projection() == old(store.Projection())
    {
      hide SystemOk, After, Decide;
      ghost var t, log := store.Projection(), store.log;
      ghost var c := Command.Reconcile(run, stopped, reasoned);
      ReconcilesOpenRuns(t, c, now);
      var outcome := store.Reconcile(run, stopped, reasoned, now);
      StepFold(log, Call(c, now));
      done := outcome.Ok?;
      if done {
        OpenRunHasFlight(t, produce, readings, flight, c, now);
        ReconcileMoves(t, produce, readings, flight.value, c, now);
        flight := None;
      }
    }

    lemma ReconcilesOpenRuns(t: Tables, c: Command, now: real)
      requires c.Reconcile?
      ensures Decide(t, c, now).Ok? <==>
              c.workersStopped && c.reasoned && c.run in t.runs && Open(t.runs[c.run].status)
    {
    }

    /** A run can only raise for a lease check that failed, or for a condition that always raises. */
    ghost predicate RaisedFor(error: Failure, cfg: Config, world: World) {
      || (error == LEASE_LOST && exists i: nat :: !world.leaseHeld(i))
      || (error == KEY_ERROR && CrashProne(cfg))
    }

    /** The run is still open: something is in flight, or waits for a delay that had not passed at clock
        reading `n`. */
    ghost predicate WorkLeft(world: World, n: nat)
      reads this`flight, store
    {
      && flight.Some?
      && var f := flight.value;
      && f.job.run in store.Projection().runs && Open(store.Projection().runs[f.job.run].status)
      && var b := FlightBoard(store.Projection(), f);
      || b.active != map[]
      || (&& (exists k | k in b.recs :: b.recs[k].status.Ready?)
          && forall k | k in b.recs && b.recs[k].status.Ready? :: b.recs[k].readyAt > world.clock(n))
    }

    /** The run is past its deadline and the executor has returned whatever was in flight, from tick `n` on. */
    ghost predicate Ending(cfg: Config, world: World, n: nat) {
      forall i: nat | n <= i :: world.clock(i) >= world.clock(0) + cfg.runTimeout && cfg.nodes.Keys <= world.returned(i)
    }

    /** The job of a run that begins on `t`. */
    ghost function NewJob(
      t: Tables, request: RunRequest, cfg: Config, plan: seq<NodeId>, canRead: Reads, now: real
    ): Job {
      var run := NewRun(t, request, cfg, plan, now).common;
      Job(cfg, plan, run.runId, run.businessKey, run.mode,
          if run.parent.Some? then NodesOf(t, run.parent.value) else map[], produce, canRead)
    }

    /** Every set of results that are still good and outside the closure of the seeds has been reused. */
    ghost predicate Rebuilt(job: Job, origin: Option<NodeId>, world: World)
      reads store
    {
      var recs := NodesOf(store.Projection(), job.run);
      forall keep: set<NodeId>, k: NodeId |
        && Keepable(world, job, world.clock(0) + job.cfg.runTimeout, keep) && k in keep
        && keep !! Closure(job.cfg.nodes, Seeds(job.cfg, job.previous, job.mode, origin)) ::
        k in recs && recs[k].status.SkippedAlreadySatisfied?
    }

    /** What the run wrote after `first`, and where it could have died: at each of its moments, and so between
        any two of its events, it left the scope in order. */
    ghost predicate Survives(first: seq<Event>, moments: seq<Moment>)
      reads this, store
    {
      && first <= store.log && AlwaysInOrder(store.log, moments, produce, readings) && moments[0].count == |first|
      && forall n | |first| <= n <= |store.log| :: LeftInOrder(store.log, n, produce, readings)
    }

    lemma SurvivesCrashes(first: seq<Event>, moments: seq<Moment>)
      requires first <= store.log && AlwaysInOrder(store.log, moments, produce, readings)
      requires moments[0].count == |first|
      ensures Survives(first, moments)
    {
      hide AlwaysInOrder, LeftInOrder;
      forall n | |first| <= n <= |store.log| ensures LeftInOrder(store.log, n, produce, readings) {
        CrashesAreInOrder(store.log, moments, produce, readings, n);
      }
    }

    /** `run`: begin, execute the graph, summarise, finish. Whatever the outcome, the scope stays in order, and
        it was in order wherever the process could have died. The only errors after a run has begun are a lost
        lease and the KeyError of a condition on parameters that are one reference; the iterations that do not
        wait are bounded by the plan, and once the run is past its deadline and nothing stays in flight it ends. */
    method Run(request: RunRequest, cfg: Config, plan: seq<NodeId>, world: World, waits: nat, now: real,
               canRead: Reads)
      returns (outcome: RunOutcome, ghost rounds: nat, ghost moments: seq<Moment>, ghost lost: set<NodeId>)
      requires Valid() && ValidConfig(cfg, plan) && Orderly(world) && Respects(world, canRead)
      modifies this`flight, this`readings, store
      ensures Valid()
      ensures outcome.Refused? <==> !Admits(old(store.Projection()), request)
      ensures outcome.Refused? ==>
                && outcome.error == Objection(old(store.Projection()), request)
                && store.log == old(store.log) && rounds == 0
      ensures !outcome.Refused? ==> Survives(Step(old(store.log), Call(Begin(request, cfg, plan), now)), moments)
      ensures outcome.Raised? ==> RaisedFor(outcome.error, cfg, world)
      ensures outcome.StillRunning? ==> WorkLeft(world, waits) && !Ending(cfg, world, waits)
      ensures outcome.Ended? && lost != {} ==> outcome.status.RunRecoveryRequired?
      ensures var job := NewJob(old(store.Projection()), request, cfg, plan, canRead, now);
              && (!outcome.Refused? ==> flight.Some? && flight.value.job == job)
              && (outcome.Ended? ==> EndsWell(outcome.status))
              && (outcome.Ended? && !outcome.status.RunRecoveryRequired? ==> Rebuilt(job, request.origin, world))
      ensures rounds <= Bound(cfg.nodes, plan) + waits + 1
    {
      hide SystemOk, After, Decide, ValidConfig, Orderly, Respects, RaisedFor, WorkLeft, EndsWell, Bound, Ending,
           NewJob, Rebuilt, Survives, Fold, Admits, Objection;
      SystemIsOk(store.Projection(), produce, readings, flight);
      ghost var t, log := store.Projection(), store.log;
      ghost var c := Begin(request, cfg, plan);
      BeginsExactly(t, request, cfg, plan, now);
      var begun := store.BeginRun(request, cfg, plan, now);
      StepFold(log, Call(c, now));
      if begun.Err? {
        return Refused(begun.error), 0, [], {};
      }
      ghost var run := BegunTables(t, c, now);
      outcome, rounds, moments, lost := RunBegun(begun.value, request, cfg, plan, world, waits, canRead, t, now);
    }

    /** The run, once its records are in the store. */
    method RunBegun(
      run: RunRecord, request: RunRequest, cfg: Config, plan: seq<NodeId>, world: World, waits: nat, canRead: Reads,
      ghost t: Tables, ghost now: real
    ) returns (outcome: RunOutcome, ghost rounds: nat, ghost moments: seq<Moment>, ghost lost: set<NodeId>)
      requires store.Valid() && SystemOk(t, produce, readings, flight)
      requires Decide(t, Begin(request, cfg, plan), now).Ok? && run == NewRun(t, request, cfg, plan, now)
      requires store.Projection() == After(t, Begin(request, cfg, plan), now)
      requires ValidConfig(cfg, plan) && Orderly(world) && Respects(world, canRead)
      modifies this`flight, this`readings, store
      ensures Valid() && !outcome.Refused? && Survives(old(store.log), moments)
      ensures outcome.Raised? ==> RaisedFor(outcome.error, cfg, world)
      ensures outcome.StillRunning? ==> WorkLeft(world, waits) && !Ending(cfg, world, waits)
      ensures outcome.Ended? && lost != {} ==> outcome.status.RunRecoveryRequired?
      ensures var job := NewJob(t, request, cfg, plan, canRead, now);
              && flight.Some? && flight.value.job == job
              && (outcome.Ended? ==> EndsWell(outcome.status))
              && (outcome.Ended? && !outcome.status.RunRecoveryRequired? ==> Rebuilt(job, run.common.origin, world))
      ensures rounds <= Bound(cfg.nodes, plan) + waits + 1
    {
      hide SystemOk, After, Decide, ValidConfig, Orderly, Respects, RaisedFor, WorkLeft, EndsWell, Configured,
           ParentSound, Closure, AllPending, Bound, NewRun, Ending, Rebuilt, Survives;
      var previous: Records := map[];
      if run.common.parent.Some? {
        previous := store.NodesOfRun(run.common.parent.value);
      }
      var attempted := store.AttemptedNodes();
      var invalid := DescendantsOf(cfg.nodes, Seeds(cfg, previous, run.common.mode, run.common.origin));
      var job := Job(cfg, plan, run.common.runId, run.common.businessKey, run.common.mode, previous, produce, canRead);
      SystemIsOk(t, produce, readings, flight);
      SameParent(t, request, cfg, plan, now, run);
      BeginMoves(t, produce, readings, flight, Begin(request, cfg, plan), now, Flight(job, map[], invalid), run);
      flight, readings := Some(Flight(job, map[], invalid)), readings[job.run := canRead];
      ghost var parentConfig := if run.common.parent.Some? && run.common.parent.value in t.runs
                                then t.runs[run.common.parent.value].common.config else cfg;
      BeginConfigured(store.Projection(), produce, readings, flight.value, run, world, parentConfig);
      outcome, rounds, moments, lost := Conduct(job, run, invalid, attempted, request.approved, world, waits,
                                          parentConfig);
    }

    /** Beginning a run leaves the records of its parent as they were. */
    lemma SameParent(t: Tables, request: RunRequest, cfg: Config, plan: seq<NodeId>, now: real, run: RunRecord)
      requires StoreOk(t) && Decide(t, Begin(request, cfg, plan), now).Ok? && run == NewRun(t, request, cfg, plan, now)
      ensures run.common.parent.Some? ==>
                NodesOf(After(t, Begin(request, cfg, plan), now), run.common.parent.value) ==
                NodesOf(t, run.common.parent.value)
    {
      hide StoreOk, Decide, After, NewRun;
      var _ := BegunTables(t, Begin(request, cfg, plan), now);
    }

    /** The run that just ended is recorded with the verdict on its records, which are within the protocol. */
    ghost predicate EndsWell(status: RunStatus)
      reads this, store
    {
      && flight.Some?
      && var f, t := flight.value, store.Projection();
      && f.job.run in t.runs && t.runs[f.job.run].status == status
      && f.job.cfg == t.runs[f.job.run].common.config
      && Inv(f.job, FlightBoard(t, f))
      && Verdict(status, f.job.cfg, NodesOf(t, f.job.run))
      && (status.RunRecoveryRequired? || Settled(NodesOf(t, f.job.run)))
      && Closure(f.job.cfg.nodes, Seeds(f.job.cfg, f.job.previous, f.job.mode, t.runs[f.job.run].common.origin))
         <= f.invalid
    }

    /** `Orchestrator(config).run(request)`: the configuration is validated first. */
    method ValidateAndRun(
      request: RunRequest, cfg: Config, listed: seq<NodeDef>, sparkCapacity: nat, world: World, waits: nat, now: real,
      canRead: Reads
    ) returns (
      outcome: RunOutcome, ghost rounds: nat, ghost plan: seq<NodeId>, ghost moments: seq<Moment>,
      ghost lost: set<NodeId>
    )
      requires Valid() && SchemaValid(cfg, listed) && Orderly(world) && Respects(world, canRead)
      modifies this`flight, this`readings, store
      ensures Valid()
      ensures outcome.Refused? <==>
                || !WellFormed(cfg, listed, sparkCapacity) || !Acyclic(cfg.nodes) || cfg.entries != Roots(cfg.nodes)
                || !Admits(old(store.Projection()), request)
      ensures outcome.Refused? ==> store.log == old(store.log) && rounds == 0
      ensures outcome.Refused? && WellFormed(cfg, listed, sparkCapacity) ==>
                outcome.error == if !Acyclic(cfg.nodes) then DAG_CYCLE
                                 else if cfg.entries != Roots(cfg.nodes) then UNREACHABLE_NODE
                                 else Objection(old(store.Projection()), request)
      ensures !outcome.Refused? ==>
                && ValidConfig(cfg, plan) && Greedy(cfg.nodes, plan) && Planner.Complete(cfg.nodes, plan)
                && rounds <= Bound(cfg.nodes, plan) + waits + 1
                && Survives(Step(old(store.log), Call(Begin(request, cfg, plan), now)), moments)
      ensures outcome.Raised? ==> RaisedFor(outcome.error, cfg, world)
      ensures outcome.StillRunning? ==> WorkLeft(world, waits) && !Ending(cfg, world, waits)
      ensures outcome.Ended? && lost != {} ==> outcome.status.RunRecoveryRequired?
      ensures var job := NewJob(old(store.Projection()), request, cfg, plan, canRead, now);
              && (!outcome.Refused? ==> flight.Some? && flight.value.job == job)
              && (outcome.Ended? ==> EndsWell(outcome.status))
              && (outcome.Ended? && !outcome.status.RunRecoveryRequired? ==> Rebuilt(job, request.origin, world))
    {
      hide SystemOk, ValidConfig, WellFormed, Acyclic, SchemaValid, EndsWell, RaisedFor, WorkLeft, Orderly, Respects,
           Greedy, Planner.Complete, Ending, Survives, Rebuilt, NewJob, Step, Admits, Objection;
      var validated := ValidateDag(cfg, listed, sparkCapacity);
      if validated.Err? {
        return Refused(validated.error), 0, [], [], {};
      }
      plan := validated.value;
      outcome, rounds, moments, lost := Run(request, cfg, validated.value, world, waits, now, canRead);
    }

    /** From a run that has begun to its end. */
    method Conduct(
      job: Job, run: RunRecord, invalid: set<NodeId>, attempted: set<NodeId>, approved: set<NodeId>, world: World,
      waits: nat, ghost parentConfig: Config
    ) returns (outcome: RunOutcome, ghost rounds: nat, ghost moments: seq<Moment>, ghost lost: set<NodeId>)
      requires Valid() && flight == Some(Flight(job, map[], invalid))
      requires AllPending(FlightBoard(store.Projection(), Flight(job, map[], invalid)), job.cfg)
      requires job.run in store.Projection().runs && store.Projection().runs[job.run] == run
      requires run.status.RunRunning? && job.produce == produce && job.mode == run.common.mode
      requires invalid == Closure(job.cfg.nodes, Seeds(job.cfg, job.previous, job.mode, run.common.origin))
      requires Configured(store.Projection(), job, world, run.owner, run.common.parent, parentConfig,
                          store.Projection())
      modifies this`flight, store
      ensures Valid() && Survives(old(store.log), moments) && flight.Some? && flight.value.job == job
      ensures outcome.Raised? ==> RaisedFor(outcome.error, job.cfg, world)
      ensures outcome.StillRunning? ==> WorkLeft(world, waits) && !Ending(job.cfg, world, waits)
      ensures outcome.Ended? && lost != {} ==> outcome.status.RunRecoveryRequired?
      ensures !outcome.Refused?
      ensures outcome.Ended? ==> EndsWell(outcome.status)
      ensures outcome.Ended? && !outcome.status.RunRecoveryRequired? ==> Rebuilt(job, run.common.origin, world)
      ensures rounds <= Bound(job.cfg.nodes, job.plan) + waits + 1
    {
      hide Configured, Inv, Resolvable, RaisedFor, WorkLeft, EndsWell, SystemOk, Closure, Bound, Settled, AllPending,
           Ending, Survives, Rebuilt, Keep;
      FlightHolds(store.Projection(), flight.value);
      var sched, turn;
      sched, turn, rounds := Engage(job, run, invalid, attempted, approved, world, waits, parentConfig);
      sched.FlightIsKnown();
      Stopped(sched, turn, waits);
      moments, lost := sched.moments, sched.lost;
      if turn.Aborted? {
        SurvivesCrashes(sched.first, moments);
        return Raised(turn.error), rounds, moments, lost;
      }
      if turn.Waited? {
        SurvivesCrashes(sched.first, moments);
        return StillRunning, rounds, moments, lost;
      }
      outcome, moments := Close(run, sched, invalid);
    }

    /** The scheduler of a run that has begun, before its loop. */
    method Hire(
      job: Job, run: RunRecord, invalid: set<NodeId>, attempted: set<NodeId>, approved: set<NodeId>, world: World,
      ghost parentConfig: Config
    ) returns (sched: Scheduler.Scheduler)
      requires Valid() && flight == Some(Flight(job, map[], invalid)) && job.produce == produce
      requires AllPending(FlightBoard(store.Projection(), Flight(job, map[], invalid)), job.cfg)
      requires job.run in store.Projection().runs && Open(store.Projection().runs[job.run].status)
      requires Configured(store.Projection(), job, world, run.owner, run.common.parent, parentConfig,
                          store.Projection())
      ensures fresh(sched) && Hired(sched, job, run, world, invalid)
      ensures sched.start == store.Projection() && sched.first == store.log
      ensures sched.tick == 0 && sched.active == map[] && sched.invalid == invalid
      ensures sched.Steady() && sched.Measure() <= Bound(job.cfg.nodes, job.plan)
    {
      hide Configured, Inv, Resolvable, WithinLimits, ClosedSound, OpenInFlight, StoreOk, ValidJob, Sum, Runs, Framed,
           InFlight, Bound, SystemOk, Keepable, Kept, Keep, AlwaysInOrder;
      ghost var t, f := store.Projection(), flight.value;
      var end := world.clock(0) + job.cfg.runTimeout;
      ghost var keep := Keep(world, job, end, invalid);
      FlightHolds(t, f);
      PendingBoard(job, FlightBoard(t, f), world, end);
      sched := new Scheduler.Scheduler(job, world, store, run.owner, run.common.parent, attempted, approved, end,
                                       invalid, parentConfig, readings, keep);
      EmptyWithinLimits(job.cfg, job.plan);
      assert sched.active.Keys == {} && sched.Board() == FlightBoard(t, f);
      SumBounded(job.cfg.nodes, job.plan, sched.Board());
    }

    /** A scheduler for this run of this scope. */
    ghost predicate Hired(sched: Scheduler.Scheduler, job: Job, run: RunRecord, world: World, invalid: set<NodeId>)
      reads this`readings
    {
      && sched.store == store && sched.job == job && sched.world == world && sched.owner == run.owner
      && sched.readings == readings && sched.end == world.clock(0) + job.cfg.runTimeout
      && sched.keep == Keep(world, job, sched.end, invalid)
    }

    lemma PendingBoard(job: Job, b: Board, world: World, end: real)
      requires AllPending(b, job.cfg) && b.active == map[]
      ensures Resolvable(job, b, {})
      ensures var keep := Keep(world, job, end, b.invalid); Keepable(world, job, end, keep) && Kept(job, b, keep)
    {
      hide Keepable, Kept;
      KeepIsKeepable(world, job, end, b.invalid);
      PendingKept(job, b, Keep(world, job, end, b.invalid));
    }

    /** The scheduler of a run that has begun, after its loop. */
    method Engage(
      job: Job, run: RunRecord, invalid: set<NodeId>, attempted: set<NodeId>, approved: set<NodeId>, world: World,
      waits: nat, ghost parentConfig: Config
    ) returns (sched: Scheduler.Scheduler, turn: Turn, ghost rounds: nat)
      requires Valid() && flight == Some(Flight(job, map[], invalid)) && job.produce == produce
      requires AllPending(FlightBoard(store.Projection(), Flight(job, map[], invalid)), job.cfg)
      requires job.run in store.Projection().runs && Open(store.Projection().runs[job.run].status)
      requires Configured(store.Projection(), job, world, run.owner, run.common.parent, parentConfig,
                          store.Projection())
      modifies this`flight, store
      ensures fresh(sched) && Hired(sched, job, run, world, invalid) && sched.first == old(store.log)
      ensures Valid() && flight == Some(Flight(job, sched.active, sched.invalid))
      ensures store.Projection().runs == old(store.Projection().runs) && invalid <= sched.invalid
      ensures sched.Valid() && Resolvable(job, sched.Board(), {})
      ensures !turn.Progress? && sched.Justified(turn, 0, sched.tick)
      ensures turn.Waited? ==> sched.HasWork(waits) && sched.Unfinished(waits)
      ensures rounds <= Bound(job.cfg.nodes, job.plan) + waits + 1
    {
      hide Configured, Inv, Resolvable, WithinLimits, ClosedSound, OpenInFlight, StoreOk, ValidJob, Sum, Runs, Framed,
           InFlight, Bound, SystemOk, AllPending, Planned, Keepable, Kept, Keep, AlwaysInOrder;
      sched := Hire(job, run, invalid, attempted, approved, world, parentConfig);
      turn, rounds := sched.ExecuteGraph(waits);
      sched.PresentInOrder();
      SameRuns(sched);
      flight := Some(Flight(job, sched.active, sched.invalid));
    }

    lemma SameRuns(sched: Scheduler.Scheduler)
      requires sched.Valid()
      ensures sched.store.Projection().runs == sched.start.runs
    {
    }

    /** What the scheduler's last turn means for the run. */
    lemma Stopped(sched: Scheduler.Scheduler, turn: Turn, waits: nat)
      requires sched.Justified(turn, 0, sched.tick) && sched.store == store
      requires sched.active.Keys <= sched.job.cfg.nodes.Keys
      requires flight == Some(Flight(sched.job, sched.active, sched.invalid))
      requires sched.end == sched.world.clock(0) + sched.job.cfg.runTimeout
      requires sched.job.run in store.Projection().runs && Open(store.Projection().runs[sched.job.run].status)
      requires turn.Waited? ==> sched.HasWork(waits) && sched.Unfinished(waits)
      ensures turn.Aborted? ==> RaisedFor(turn.error, sched.job.cfg, sched.world)
      ensures turn.Waited? ==> WorkLeft(sched.world, waits) && !Ending(sched.job.cfg, sched.world, waits)
    {
      assert sched.Board() == FlightBoard(store.Projection(), flight.value);
    }

    lemma FlightHolds(t: Tables, f: Flight)
      requires SystemOk(t, produce, readings, Some(f)) && f.job.run in t.runs && Open(t.runs[f.job.run].status)
      ensures Inv(f.job, FlightBoard(t, f)) && ValidJob(f.job)
      ensures f.job.cfg == t.runs[f.job.run].common.config
    {
    }

    lemma EmptyWithinLimits(cfg: Config, plan: seq<NodeId>)
      ensures WithinLimits(cfg, plan, {})
    {
      forall g {
        EmptyLoad(cfg.nodes, plan, g);
      }
    }

    /** The session waits for what it dispatched; the summary is read and recorded. */
    method Close(run: RunRecord, sched: Scheduler.Scheduler, ghost invalid: set<NodeId>)
      returns (outcome: RunOutcome, ghost moments: seq<Moment>)
      requires Valid() && sched.store == store && flight == Some(Flight(sched.job, sched.active, sched.invalid))
      requires Closing(run, sched, invalid)
      requires Settled(sched.Board().recs) || exists k | k in sched.Board().recs :: sched.Board().recs[k].uncertain
      modifies store, sched
      ensures Valid() && outcome.Ended? && EndsWell(outcome.status) && Survives(sched.first, moments)
      ensures flight.value.job == sched.job && (old(sched.lost) != {} ==> outcome.status.RunRecoveryRequired?)
      ensures !outcome.status.RunRecoveryRequired? ==> Rebuilt(sched.job, run.common.origin, sched.world)
    {
      hide Configured, Inv, Resolvable, StoreOk, ValidJob, Closure, Kept, Keepable, Keep, AlwaysInOrder, Undisturbed,
           SystemOk, Fold, EndsWell, Survives, Rebuilt;
      ghost var b := sched.Board();
      sched.Parts();
      sched.Interfere({});
      sched.Parts();
      if Settled(b.recs) {
        SettledStays(sched.job, b, sched.Board());
      } else {
        UncertainStays(sched.job, b, sched.Board());
      }
      SameRuns(sched);
      outcome, moments := Record(run, sched, invalid);
    }

    /** The run is over, up to its last event. */
    ghost predicate Closing(run: RunRecord, sched: Scheduler.Scheduler, invalid: set<NodeId>)
      reads this, store, sched
      requires sched.store == store
    {
      && sched.Valid() && Resolvable(sched.job, sched.Board(), {})
      && Hired(sched, sched.job, run, sched.world, invalid) && sched.job.produce == produce
      && sched.job.run in store.Projection().runs && store.Projection().runs[sched.job.run] == run
      && invalid ==
         Closure(sched.job.cfg.nodes, Seeds(sched.job.cfg, sched.job.previous, sched.job.mode, run.common.origin))
      && invalid <= sched.invalid && sched.job.cfg == run.common.config && run.status.RunRunning?
    }

    /** `_summary` and `finish_run`. */
    method Record(run: RunRecord, sched: Scheduler.Scheduler, ghost invalid: set<NodeId>)
      returns (outcome: RunOutcome, ghost moments: seq<Moment>)
      requires sched.store == store && flight == Some(Flight(sched.job, sched.active, sched.invalid))
      requires Closing(run, sched, invalid)
      requires Settled(sched.Board().recs) || exists k | k in sched.Board().recs :: sched.Board().recs[k].uncertain
      modifies store, sched`tick
      ensures Valid() && outcome.Ended? && EndsWell(outcome.status) && Survives(sched.first, moments)
      ensures sched.lost != {} ==> outcome.status.RunRecoveryRequired?
      ensures !outcome.status.RunRecoveryRequired? ==> Rebuilt(sched.job, run.common.origin, sched.world)
    {
      hide Configured, Inv, Resolvable, StoreOk, ValidJob, Closure, EndsWell, After, Decide, RunVerdict, Kept,
           Keepable, Keep, AlwaysInOrder, Survives, Rebuilt, SystemOk, Fold;
      ghost var t, log, f := store.Projection(), store.log, flight.value;
      sched.Parts();
      sched.PresentInOrder();
      var records := store.NodesOfRun(sched.job.run);
      var status := RunVerdict(records);
      var now := sched.Now();
      VerdictFinishes(t, sched.job.run, run.owner, now);
      ghost var c := Command.FinishRun(sched.job.run, run.owner, status);
      FinishMoves(t, produce, readings, f, c, now);
      FinishTables(t, c, now);
      var finished := store.FinishRun(sched.job.run, run.owner, status, now);
      StepFold(log, Call(c, now));
      OneEventAtMost(log, c, now);
      ghost var last := Moment(|store.log|, f);
      outcome, moments := Ended(status), sched.moments + [last];
      OneMomentMore(log, store.log, sched.moments, last, produce, readings);
      sched.MomentsGrow(sched.moments, last);
      SurvivesCrashes(sched.first, moments);
      Closes(t, f, run, c, now);
      CertainIsSettled(records);
      LostNeedsRecovery(sched, records);
      Reused(sched, t, run, invalid);
    }

    /** What an executor gave up as unconfirmed shows in the verdict. */
    lemma LostNeedsRecovery(sched: Scheduler.Scheduler, records: Records)
      requires Uncertain(records, sched.lost)
      ensures sched.lost != {} ==> RunVerdict(records).RunRecoveryRequired?
    {
      if k :| k in sched.lost {
        assert records[k].uncertain;
      }
    }

    lemma CertainIsSettled(records: Records)
      requires Settled(records) || exists k | k in records :: records[k].uncertain
      ensures !RunVerdict(records).RunRecoveryRequired? ==> Settled(records)
    {
    }

    /** What the scheduler was to keep is reused, and it was to keep as much as possible. */
    lemma Reused(sched: Scheduler.Scheduler, t: Tables, run: RunRecord, invalid: set<NodeId>)
      requires Kept(sched.job, BoardOf(t, sched.job, sched.active, sched.invalid), sched.keep)
      requires Hired(sched, sched.job, run, sched.world, invalid) && store.Projection().nodes == t.nodes
      requires invalid ==
               Closure(sched.job.cfg.nodes, Seeds(sched.job.cfg, sched.job.previous, sched.job.mode, run.common.origin))
      ensures Settled(NodesOf(t, sched.job.run)) ==> Rebuilt(sched.job, run.common.origin, sched.world)
    {
      hide Keepable, Keep, Kept, Closure;
      if Settled(NodesOf(t, sched.job.run)) {
        SettledIsReused(sched.job, BoardOf(t, sched.job, sched.active, sched.invalid), sched.keep);
        KeepIsKeepable(sched.world, sched.job, sched.end, invalid);
      }
    }

    lemma Closes(t: Tables, f: Flight, run: RunRecord, c: Command, now: real)
      requires f.job.run in t.runs && t.runs[f.job.run] == run
                 && c == FinishRun(f.job.run, run.owner, RunVerdict(NodesOf(t, f.job.run)))
      requires store.Projection().nodes == t.nodes && flight == Some(f) && Inv(f.job, FlightBoard(t, f))
      requires store.Projection().runs == t.runs[c.run := t.runs[c.run].(status := c.runStatus, endedAt := Some(now))]
      requires Settled(NodesOf(t, f.job.run))
               || exists k | k in NodesOf(t, f.job.run) :: NodesOf(t, f.job.run)[k].uncertain
      requires Closure(f.job.cfg.nodes, Seeds(f.job.cfg, f.job.previous, f.job.mode, run.common.origin)) <= f.invalid
      requires f.job.cfg == run.common.config && StoreOk(t)
      ensures EndsWell(c.runStatus)
    {
      VerdictHolds(t, f.job.run);
      assert FlightBoard(store.Projection(), f) == FlightBoard(t, f);
    }
  }
}
