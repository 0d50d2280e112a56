/** `run_child`: the claim / revalidate / execute / commit sequence of one attempt, while other workers
    of the run call the store between its steps. */
module Worker {
  import opened Model
  import opened ControlLog
  import opened StoreInvariants
  import opened StoreHistory
  import opened Board
  import opened RunSteps
  import opened Recovery
  import Orchestrator

  datatype Produced = Produced(outputs: map<string, Reference>, counts: Counts)

  /** What a worker cannot control; each access consumes one tick. */
  datatype Surroundings = Surroundings(
    deployed: Config,
    clock: nat -> real,
    read: (nat, Json) -> Outcome<Json>,
    valid: (nat, map<string, Reference>) -> Outcome<bool>,
    execute: Context -> Outcome<Produced>,
    others: nat -> seq<Command>)

  /** Digests and row counts are a function of the fingerprinted content. */
  ghost predicate Faithful(produce: Production, execute: Context -> Outcome<Produced>) {
    forall ctx | execute(ctx).Ok? :: Proofs(execute(ctx).value.outputs) == produce(ctx.inputs)
  }

  /** Why the body of the attempt raised: the worker's own consistency checks, or anything else. */
  datatype Fault = ContextChanged | UnknownNode | Other(error: Failure)

  function ErrorOf(fault: Fault): Failure {
    match fault
    case ContextChanged => Workflow("INPUT_CONTEXT_CHANGED")
    case UnknownNode => Workflow("UNKNOWN_NODE")
    case Other(error) => error
  }

  const CONFIGURATION_CHANGED := Workflow("CONFIGURATION_CHANGED")
  const INVALID_REFERENCE := Workflow("INVALID_REFERENCE")
  const MISSING_CHECKPOINT := Workflow("MISSING_CHECKPOINT")
  const UPSTREAM_OUTPUT_INVALID := Failure("UPSTREAM_OUTPUT_INVALID", DataQuality, false)
  const INPUT_CHANGED := Failure("INPUT_CHANGED", DataQuality, false)
  const OUTPUT_INVALID := Failure("OUTPUT_INVALID", DataQuality, false)

  /** Statuses and outputs determine the proofs in a fingerprint. */
  lemma ViewsDetermineProofs(recs: Records, recs': Records, deps: seq<NodeId>)
    requires Statuses(recs, deps) == Statuses(recs', deps) && UpstreamOf(recs, deps) == UpstreamOf(recs', deps)
    ensures DependencyProofs(recs, deps) == DependencyProofs(recs', deps)
  {
    forall d | d in deps ensures d in recs <==> d in recs' {
      assert d in Statuses(recs, deps) <==> d in recs;
      assert d in Statuses(recs', deps) <==> d in recs';
    }
    forall d | d in deps && d in recs
      ensures recs[d].status == recs'[d].status && recs[d].outputs == recs'[d].outputs
    {
      assert Statuses(recs, deps)[d] == Statuses(recs', deps)[d];
      assert UpstreamOf(recs, deps)[d] == UpstreamOf(recs', deps)[d];
    }
  }

  /** As long as its context is in flight, a worker reads the same dependency statuses, outputs and
      parameters that it was given, whatever the scheduler and the other workers did meanwhile. */
  lemma ContextStays(job: Job, b: Board, k: NodeId)
    requires Inv(job, b) && k in b.active
    ensures k in job.cfg.nodes && k in b.recs
    ensures var node, ctx := job.cfg.nodes[k], b.active[k];
            && ctx.nodeId == k && ctx.config == job.cfg && ctx.runId == job.run
            && UpstreamOf(b.recs, node.dependencies) == ctx.upstream
            && Statuses(b.recs, node.dependencies) == ctx.dependencyStatus
            && ParametersOf(job, k, ctx.attempt, b.recs) == Some(ctx.parameters)
            && forall d | d in node.dependencies :: d in b.recs && d in job.cfg.nodes
  {
    assert NodeInv(job, b, k);
    forall d | d in job.cfg.nodes[k].dependencies ensures d in b.recs && d in job.cfg.nodes {
      assert Final(job, b, d);
    }
  }

  /** The same, between two moments of the same flight. */
  lemma ContextStable(job: Job, b: Board, b': Board, k: NodeId)
    requires Inv(job, b) && Inv(job, b') && k in b.active && k in b'.active && b.active[k] == b'.active[k]
    ensures k in job.cfg.nodes
    ensures DependencyProofs(b.recs, job.cfg.nodes[k].dependencies)
         == DependencyProofs(b'.recs, job.cfg.nodes[k].dependencies)
  {
    ContextStays(job, b, k);
    ContextStays(job, b', k);
    ViewsDetermineProofs(b.recs, b'.recs, job.cfg.nodes[k].dependencies);
  }

  function Report(status: Status, error: Failure): Result {
    Result(status, map[], None, Some(error), NoCounts, false, false)
  }

  /** The report of a caught error. */
  function FailureReport(error: Failure): Result {
    Report(if error.category.Timeout? then TimedOut else Failed, error)
  }

  class Child {
    const system: Orchestrator.Orchestrator
    const job: Job
    const ctx: Context
    const s: Surroundings
    var tick: nat

    constructor (system: Orchestrator.Orchestrator, job: Job, ctx: Context, s: Surroundings)
      ensures this.system == system && this.job == job && this.ctx == ctx && this.s == s && tick == 0
    {
      this.system, this.job, this.ctx, this.s, tick := system, job, ctx, s, 0;
    }

    ghost function Tables(): Tables
      reads system.store
    {
      system.store.Projection()
    }

    /** The attempt is in flight in the open run. */
    ghost predicate Flying()
      reads system, system.store
    {
      && system.Valid() && system.flight.Some?
      && var f := system.flight.value;
      && f.job == job && job.run in Tables().runs && Open(Tables().runs[job.run].status)
      && ctx.nodeId in f.active && f.active[ctx.nodeId] == ctx
    }

    ghost function Board(): Board
      reads system, system.store
      requires system.flight.Some?
    {
      FlightBoard(Tables(), system.flight.value)
    }

    lemma FlyingBoard()
      requires Flying()
      ensures Inv(job, Board()) && ctx.nodeId in Board().active && Board().active[ctx.nodeId] == ctx
      ensures ValidJob(job) && job.produce == system.produce
    {
    }

    method Now() returns (now: real)
      modifies this`tick
      ensures tick == old(tick) + 1 && now == s.clock(old(tick))
    {
      now := s.clock(tick);
      tick := tick + 1;
    }

    /** The others' calls at tick `n`, and what they leave. */
    ghost function ServedAt(n: nat): Tables
      reads system, system.store
    {
      if system.flight.None? then Tables()
      else Served(Tables(), job, system.flight.value.active, s.others(n), s.clock(n))
    }

    /** No other process reports with this worker's context between two ticks. */
    ghost predicate Alone(m: nat, n: nat) {
      forall i: nat, c | m <= i < n && c in s.others(i) :: !(c.Finish? && c.ctx == ctx)
    }

    ghost predicate Claimed()
      reads system.store
    {
      Started(Tables(), ctx)
    }

    /** Claimed, and not finished. */
    ghost predicate Unfinished()
      reads system.store
    {
      Claimed() && NodesOf(Tables(), ctx.runId)[ctx.nodeId].status.Running?
    }

    /** What other workers of the run do between two steps. */
    method Others()
      requires Flying()
      modifies this`tick, system.store
      ensures Flying() && tick == old(tick) + 1 && Tables() == old(ServedAt(tick))
      ensures old(Claimed()) ==> Claimed() && (Alone(old(tick), tick) && old(Unfinished()) ==> Unfinished())
    {
      hide Inv, WorkerCall, SystemOk, After, Started;
      var calls := s.others(tick);
      var now := Now();
      for i := 0 to |calls|
        invariant Flying() && tick == old(tick) + 1
        invariant Tables() == Served(old(Tables()), job, system.flight.value.active, calls[..i], now)
        invariant old(Claimed()) ==> Claimed() && (Alone(old(tick), tick) && old(Unfinished()) ==> Unfinished())
      {
        assert calls[..i + 1][..i] == calls[..i];
        var recs := system.store.NodesOfRun(job.run);
        if WorkerCall(job, recs, system.flight.value.active, calls[i]) {
          StaysClaimed(calls[i], now);
          system.Work(calls[i], now);
        }
      }
      assert calls[..|calls|] == calls;
    }

    lemma StaysClaimed(c: Command, now: real)
      requires Flying() && WorkerCall(job, NodesOf(Tables(), job.run), system.flight.value.active, c)
      ensures Claimed() ==>
                && (After(Tables(), c, now).runs == Tables().runs ==> Started(After(Tables(), c, now), ctx))
                && (Unfinished() && !(c.Finish? && c.ctx == ctx) ==>
                      && ctx.nodeId in NodesOf(After(Tables(), c, now), ctx.runId)
                      && NodesOf(After(Tables(), c, now), ctx.runId)[ctx.nodeId].status.Running?)
    {
      hide Inv, WorkerCall, After, Started, InFlight, ClosedSound;
      if Claimed() {
        StartedStays(Tables(), job, system.flight.value.active, ctx, c, now);
      }
    }

    /** A call that this worker may make keeps the system in order. */
    lemma MayServe(c: Command, now: real)
      requires Flying() && ctx.nodeId in job.cfg.nodes && (c.Claim? || c.Finish?) && c.ctx == ctx
      requires c.Finish? ==> MayReport(job, Board().recs, ctx, c.result)
      ensures SystemOk(After(Tables(), c, now), system.produce, system.readings, system.flight)
      ensures After(Tables(), c, now).runs == Tables().runs && StoreOk(Tables())
    {
      hide After, Inv, MayReport, InFlight, ClosedSound;
      FlyingBoard();
      WorkerMoves(Tables(), system.produce, system.readings, system.flight.value, c, now);
    }

    /** The store would accept the claim. */
    ghost predicate Claimable(t: Tables, now: real) {
      Decide(t, Command.Claim(ctx), now).Ok?
    }

    method ClaimAttempt() returns (claimed: Outcome<NodeRecord>)
      requires Flying() && ctx.nodeId in job.cfg.nodes
      modifies this`tick, system.store
      ensures Flying() && tick == old(tick) + 1
      ensures claimed.Ok? <==> old(Claimable(Tables(), s.clock(tick)))
      ensures claimed.Ok? ==> Claimed() && Unfinished()
      ensures claimed.Err? ==> claimed.error == CLAIM_COLLISION && Tables() == old(Tables())
    {
      hide SystemOk, Inv, Started;
      var now := Now();
      ghost var t, log, c := Tables(), system.store.log, Command.Claim(ctx);
      MayServe(c, now);
      if Decide(t, c, now).Ok? {
        ClaimStarts(t, ctx, now);
      }
      claimed := system.store.Claim(ctx, now);
      StepFold(log, Call(c, now));
    }

    lemma Described()
      requires Flying()
      ensures ctx.nodeId in job.cfg.nodes && ctx.runId == job.run && ctx.config == job.cfg
    {
      FlyingBoard();
      ContextStays(job, Board(), ctx.nodeId);
    }

    /** `finish_attempt` with a report that this worker may make. */
    method Finish(result: Result) returns (final: Outcome<NodeRecord>)
      requires Flying() && ctx.nodeId in job.cfg.nodes && MayReport(job, Board().recs, ctx, result) && Claimed()
      requires result.status.Succeeded? ==> CheckpointCommits(result)
      modifies this`tick, system.store
      ensures Flying() && tick == old(tick) + 1 && final.Ok? && Settles(final.value)
      ensures old(Unfinished()) ==> Reported(final.value, result, s.clock(old(tick)))
    {
      hide SystemOk, After, Inv, MayReport, Decide, Started, ControlLog.Finished, Reported, CheckpointCommits;
      var now := Now();
      ghost var t, log, c := Tables(), system.store.log, Command.Finish(ctx, result);
      MayServe(c, now);
      ReportLands(result, now);
      final := system.store.FinishAttempt(ctx, result, now);
      StepFold(log, Call(c, now));
    }

    /** The store accepts the report, and the record is terminal then; it is the report's if the attempt was
        still running. */
    ghost predicate Lands(t: Tables, result: Result, now: real, running: bool) {
      var c := Command.Finish(ctx, result);
      && Decide(t, c, now).Ok? && ctx.nodeId in NodesOf(After(t, c, now), ctx.runId)
      && var r := NodesOf(After(t, c, now), ctx.runId)[ctx.nodeId];
      && Terminal(r.status) && (running ==> Reported(r, result, now))
      && (if Decide(t, c, now).value == [] then After(t, c, now) == t && !running
          else Decide(t, c, now).value[0].payload == NodePayload(r))
    }

    lemma ReportLands(result: Result, now: real)
      requires Flying() && ctx.nodeId in job.cfg.nodes && MayReport(job, Board().recs, ctx, result) && Claimed()
      requires result.status.Succeeded? ==> CheckpointCommits(result)
      ensures Lands(Tables(), result, now, Unfinished())
    {
      hide After, Inv, MayReport, Decide, ControlLog.Finished, Reported, InFlight, ClosedSound, CheckpointCommits;
      ReportStatus(result);
      StartedFinishes(Tables(), ctx, result, now);
      ReportShape(NodesOf(Tables(), ctx.runId)[ctx.nodeId], result, now);
    }

    lemma ReportStatus(result: Result)
      requires ctx.nodeId in job.cfg.nodes && system.flight.Some? && MayReport(job, Board().recs, ctx, result)
      ensures result.status.Failed? || result.status.TimedOut? || result.status.Succeeded?
    {
    }

    /** The record says what the report said at that time; a success after the deadline is a timeout. */
    ghost predicate Reported(r: NodeRecord, result: Result, now: real) {
      && r.uncertain == result.uncertain && r.counts == result.counts
      && if result.status.Succeeded? && now > ctx.deadline then
        r.status.TimedOut? && r.error == Some(DEADLINE_EXCEEDED)
      else
        && r.status == result.status && r.error == result.error
        && r.outputs == (if result.status.Succeeded? then result.outputs else map[])
    }

    lemma ReportShape(r: NodeRecord, result: Result, now: real)
      ensures Reported(ControlLog.Finished(r, result, now > ctx.deadline, now), result, now)
    {
    }

    /** The attempt's record in the store, which is terminal. */
    ghost predicate Settles(r: NodeRecord)
      reads system.store
    {
      && ctx.nodeId in NodesOf(Tables(), ctx.runId) && NodesOf(Tables(), ctx.runId)[ctx.nodeId] == r
      && Terminal(r.status)
    }

    // ----- Why an attempt fails -----

    /** A check failed, in what the worker was answered between two ticks. `snapshot` is what it read before it
        claimed the attempt. */
    ghost predicate Cause(error: Failure, snapshot: Records, m: nat, n: nat) {
      && ctx.nodeId in job.cfg.nodes
      && (|| (error == DEADLINE_EXCEEDED && exists i: nat | m <= i < n :: s.clock(i) >= ctx.deadline)
          || (exists d | d in job.cfg.nodes[ctx.nodeId].dependencies :: UpstreamCause(error, snapshot, d, m, n))
          || InputCause(error, snapshot, m, n)
          || OutputCause(error, m, n))
    }

    /** A committed output of a successful dependency is not valid any more, or cannot be checked. */
    ghost predicate UpstreamCause(error: Failure, snapshot: Records, d: NodeId, m: nat, n: nat) {
      && d in snapshot && Success(snapshot[d].status)
      && exists i: nat | m <= i < n ::
           || s.valid(i, snapshot[d].outputs) == Err(error)
           || (s.valid(i, snapshot[d].outputs) == Ok(false) && error == UPSTREAM_OUTPUT_INVALID)
    }

    /** The sources cannot be read, or no longer hold what the attempt was planned on. */
    ghost predicate InputCause(error: Failure, snapshot: Records, m: nat, n: nat)
      requires ctx.nodeId in job.cfg.nodes
    {
      exists i: nat | m <= i < n ::
        || s.read(i, ctx.parameters) == Err(error)
        || (&& error == INPUT_CHANGED && s.read(i, ctx.parameters).Ok?
            && ctx.inputs != InputFingerprint(job.cfg, job.cfg.nodes[ctx.nodeId], ctx.parameters,
                                              s.read(i, ctx.parameters).value, snapshot))
    }

    /** The component raised; or its outputs are not the expected ones, not valid, or cannot be checked. */
    ghost predicate OutputCause(error: Failure, m: nat, n: nat)
      requires ctx.nodeId in job.cfg.nodes
    {
      var produced, expected := s.execute(ctx), job.cfg.nodes[ctx.nodeId].expectedOutputs;
      || produced == Err(error)
      || (&& produced.Ok?
          && var outputs := produced.value.outputs;
          || (error == OUTPUT_INVALID && outputs.Keys != expected)
          || (error == MISSING_CHECKPOINT && expected == {})
          || (exists i: nat | m <= i < n ::
                || s.valid(i, outputs) == Err(error)
                || (s.valid(i, outputs) == Ok(false) && error == OUTPUT_INVALID)))
    }

    /** More answers leave a cause what it is. */
    lemma WiderCause(error: Failure, snapshot: Records, m: nat, n: nat, m': nat, n': nat)
      requires ctx.nodeId in job.cfg.nodes && m' <= m && n <= n'
      ensures Cause(error, snapshot, m, n) ==> Cause(error, snapshot, m', n')
    {
      hide InputFingerprint;
      if exists d | d in job.cfg.nodes[ctx.nodeId].dependencies :: UpstreamCause(error, snapshot, d, m, n) {
        var d :| d in job.cfg.nodes[ctx.nodeId].dependencies && UpstreamCause(error, snapshot, d, m, n);
        assert UpstreamCause(error, snapshot, d, m', n');
      }
    }

    /** The checks before the component runs, on the snapshot taken before the claim. */
    method Revalidate(snapshot: Records, node: NodeDef, ghost b: Board) returns (fault: Option<Fault>)
      requires Inv(job, b) && ctx.nodeId in b.active && b.active[ctx.nodeId] == ctx && snapshot == b.recs
      requires ctx.nodeId in job.cfg.nodes && node == job.cfg.nodes[ctx.nodeId]
      modifies this`tick
      ensures old(tick) <= tick
      ensures fault.Some? ==> fault.value.Other? && Cause(fault.value.error, snapshot, old(tick), tick)
      ensures fault.None? ==>
                ctx.inputs.Inputs? && ctx.inputs ==
                    InputFingerprint(job.cfg, node, ctx.parameters, ctx.inputs.contents, snapshot)
    {
      hide Inv, InputFingerprint, UpstreamCause, InputCause, OutputCause, ParametersOf;
      ContextStays(job, b, ctx.nodeId);
      OutputsAreExpected(b);
      var now := Now();
      if now >= ctx.deadline {
        return Some(Other(DEADLINE_EXCEEDED));
      }
      if exists d | d in node.dependencies :: d !in snapshot {
        return Some(UnknownNode);
      }
      ghost var m := tick;
      fault := CheckUpstream(snapshot, node.dependencies);
      if fault.Some? {
        WiderCause(fault.value.error, snapshot, m, tick, old(tick), tick);
        return;
      }
      var parameters := ParametersOf(job, ctx.nodeId, ctx.attempt, snapshot);
      if parameters.None? {
        return Some(Other(INVALID_REFERENCE));
      }
      if || parameters.value != ctx.parameters
         || UpstreamOf(snapshot, node.dependencies) != ctx.upstream
         || Statuses(snapshot, node.dependencies) != ctx.dependencyStatus
      {
        return Some(ContextChanged);
      }
      ghost var n := tick;
      fault := CheckInputs(snapshot, node, parameters.value);
      if fault.Some? {
        WiderCause(fault.value.error, snapshot, n, tick, old(tick), tick);
      }
    }

    /** A success in the run has exactly the outputs that its node declares. */
    lemma OutputsAreExpected(b: Board)
      requires Inv(job, b)
      ensures forall d | d in b.recs && Success(b.recs[d].status) ::
                d in job.cfg.nodes && b.recs[d].outputs.Keys == job.cfg.nodes[d].expectedOutputs
    {
      forall d | d in b.recs && Success(b.recs[d].status)
        ensures d in job.cfg.nodes && b.recs[d].outputs.Keys == job.cfg.nodes[d].expectedOutputs
      {
        NodeHolds(job, b, d);
      }
    }

    /** Every committed output of a successful dependency is still valid. */
    method CheckUpstream(snapshot: Records, dependencies: seq<NodeId>) returns (fault: Option<Fault>)
      requires ctx.nodeId in job.cfg.nodes && dependencies == job.cfg.nodes[ctx.nodeId].dependencies
      requires forall d | d in dependencies :: d in snapshot && d in job.cfg.nodes
      requires forall d | d in dependencies && Success(snapshot[d].status) ::
                 snapshot[d].outputs.Keys == job.cfg.nodes[d].expectedOutputs
      modifies this`tick
      ensures old(tick) <= tick
      ensures fault.Some? ==> fault.value.Other? && Cause(fault.value.error, snapshot, old(tick), tick)
    {
      hide InputCause, OutputCause;
      for i := 0 to |dependencies|
        invariant old(tick) <= tick
      {
        var record := snapshot[dependencies[i]];
        if Success(record.status) {
          if record.outputs.Keys != job.cfg.nodes[dependencies[i]].expectedOutputs {
            return Some(Other(UPSTREAM_OUTPUT_INVALID));
          }
          var valid := s.valid(tick, record.outputs);
          tick := tick + 1;
          ghost var error := if valid.Err? then valid.error else UPSTREAM_OUTPUT_INVALID;
          assert !valid.Ok? || !valid.value ==> UpstreamCause(error, snapshot, dependencies[i], old(tick), tick);
          if valid.Err? {
            return Some(Other(valid.error));
          }
          if !valid.value {
            return Some(Other(UPSTREAM_OUTPUT_INVALID));
          }
        }
      }
      fault := None;
    }

    /** The fingerprint recomputed from the sources as they are now. */
    method CheckInputs(snapshot: Records, node: NodeDef, parameters: Json) returns (fault: Option<Fault>)
      requires ctx.nodeId in job.cfg.nodes && node == job.cfg.nodes[ctx.nodeId] && parameters == ctx.parameters
      modifies this`tick
      ensures tick == old(tick) + 1
      ensures fault.None? <==>
                && s.read(old(tick), parameters).Ok?
                && ctx.inputs == InputFingerprint(job.cfg, node, parameters, s.read(old(tick), parameters).value,
                     snapshot)
      ensures fault.Some? ==> fault.value.Other? && Cause(fault.value.error, snapshot, old(tick), tick)
      ensures fault.None? ==>
                ctx.inputs.Inputs? && ctx.inputs ==
                    InputFingerprint(job.cfg, node, parameters, ctx.inputs.contents, snapshot)
    {
      hide UpstreamCause, OutputCause;
      var contents := s.read(tick, parameters);
      tick := tick + 1;
      if contents.Err? {
        return Some(Other(contents.error));
      }
      if InputFingerprint(job.cfg, node, parameters, contents.value, snapshot) != ctx.inputs {
        return Some(Other(INPUT_CHANGED));
      }
      fault := None;
    }

    /** A second look at the deadline, the component, and the checks after it. */
    method Produce(snapshot: Records, node: NodeDef) returns (result: Option<Result>, fault: Option<Fault>)
      requires Faithful(system.produce, s.execute)
      requires ctx.nodeId in job.cfg.nodes && node == job.cfg.nodes[ctx.nodeId]
      requires ctx.inputs.Inputs?
                 && ctx.inputs == InputFingerprint(job.cfg, node, ctx.parameters, ctx.inputs.contents, snapshot)
      modifies this`tick
      ensures old(tick) <= tick
      ensures result.Some? <==> fault.None?
      ensures fault.Some? ==> fault.value.Other? && Cause(fault.value.error, snapshot, old(tick), tick)
      ensures result.Some? ==>
                && result.value.status.Succeeded? && !result.value.uncertain && result.value.error.None?
                && s.execute(ctx).Ok? && result.value.outputs == s.execute(ctx).value.outputs
                && result.value.counts == s.execute(ctx).value.counts && !result.value.uncertain
                && result.value.outputs.Keys == node.expectedOutputs
                && Proofs(result.value.outputs) == system.produce(ctx.inputs)
                && (node.expectedOutputs != {} ==> CheckpointCommits(result.value))
    {
      hide InputFingerprint, UpstreamCause, InputCause;
      var now := Now();
      if now >= ctx.deadline {
        return None, Some(Other(DEADLINE_EXCEEDED));
      }
      var produced := s.execute(ctx);
      if produced.Err? {
        return None, Some(Other(produced.error));
      }
      var outputs := produced.value.outputs;
      var valid := s.valid(tick, outputs);
      tick := tick + 1;
      if valid.Err? {
        return None, Some(Other(valid.error));
      }
      if outputs.Keys != node.expectedOutputs || !valid.value {
        return None, Some(Other(OUTPUT_INVALID));
      }
      ghost var n := tick;
      fault := CheckInputs(snapshot, node, ctx.parameters);
      if fault.Some? {
        WiderCause(fault.value.error, snapshot, n, tick, old(tick), tick);
        return None, fault;
      }
      var proof := Checkpoint(node.checkpointName, ctx.inputs, Outputs(outputs));
      result := Some(Result(Succeeded, outputs, Some(proof), None, produced.value.counts, false, false));
    }

    /** `run_child`. It claims the attempt exactly when the deployment is unchanged and the store accepts the
        claim, and then always ends it: with the component's outputs, or with a failure that has a cause. The
        system stays in order, so the success that a worker commits is proven; and with an unchanged
        configuration neither INPUT_CONTEXT_CHANGED nor UNKNOWN_NODE nor INVALID_REFERENCE can be the cause. */
    method RunChild() returns (final: Outcome<NodeRecord>, fault: Option<Fault>)
      requires Flying() && Faithful(system.produce, s.execute)
      modifies this`tick, system.store
      ensures Flying() && old(tick) <= tick
      ensures s.deployed != ctx.config ==> final == Err(CONFIGURATION_CHANGED) && Tables() == old(Tables())
      ensures s.deployed == ctx.config ==>
                (final.Ok? <==> old(Claimable(ServedAt(tick), s.clock(tick + 1))))
      ensures s.deployed == ctx.config && final.Err? ==>
                final == Err(CLAIM_COLLISION) && Tables() == old(ServedAt(tick))
      ensures final.Ok? ==> Settles(final.value)
      ensures fault.Some? ==>
                fault.value.Other? && Cause(fault.value.error, NodesOf(old(Tables()), ctx.runId), old(tick), tick)
      ensures final.Ok? && Alone(old(tick), tick) ==> old(tick) < tick && Ends(final.value, fault, tick - 1)
    {
      hide Inv, Faithful, MayReport, SystemOk, Settles, Decide, Cause, Started, Alone, Ends, Claimable, Served,
           Reported, InFlight, ClosedSound, OpenInFlight, StoreOk, ValidJob, NodesOf;
      FlyingBoard();
      Described();
      fault := None;
      if s.deployed != ctx.config {
        return Err(CONFIGURATION_CHANGED), None;
      }
      var snapshot := system.store.NodesOfRun(ctx.runId);
      ghost var b, n := Board(), tick;
      Others();
      var claimed := ClaimAttempt();
      if claimed.Err? {
        return Err(claimed.error), None;
      }
      final, fault := Complete(snapshot, b, n);
    }

    /** From the claim to the report. */
    method Complete(snapshot: Records, ghost b: Board, ghost n: nat)
      returns (final: Outcome<NodeRecord>, fault: Option<Fault>)
      requires Flying() && Faithful(system.produce, s.execute) && ctx.nodeId in job.cfg.nodes && n <= tick
      requires Inv(job, b) && ctx.nodeId in b.active && b.active[ctx.nodeId] == ctx && snapshot == b.recs
      requires Claimed() && Unfinished()
      modifies this`tick, system.store
      ensures Flying() && n < tick && final.Ok? && Settles(final.value)
      ensures fault.Some? ==> fault.value.Other? && Cause(fault.value.error, snapshot, n, tick)
      ensures Alone(n, tick) ==> Ends(final.value, fault, tick - 1)
    {
      hide Inv, Faithful, MayReport, SystemOk, Settles, Cause, Started, Alone;
      var result;
      result, fault := Attempt(snapshot, b, n);
      ghost var m := tick;
      if fault.None? {
        if job.cfg.nodes[ctx.nodeId].expectedOutputs != {} {
          final := Finish(result.value);
          StillAlone(n, m, tick);
          return;
        }
        fault := Some(Other(MISSING_CHECKPOINT));
        NoCheckpoint(snapshot, n, tick);
      }
      FailureIsReportable(ErrorOf(fault.value));
      WiderCause(fault.value.error, snapshot, n, tick, n, tick + 1);
      final := Finish(FailureReport(ErrorOf(fault.value)));
      StillAlone(n, m, tick);
    }

    /** How the attempt ends when nobody else ends it: as the fault says, or, without one, with what the
        component produced. `n` is the tick of the report. */
    ghost predicate Ends(r: NodeRecord, fault: Option<Fault>, n: nat) {
      if fault.Some? then
        && fault.value.Other? && r.error == Some(fault.value.error) && !r.uncertain && r.outputs == map[]
        && r.status == if fault.value.error.category == Timeout then TimedOut else Failed
      else
        && s.execute(ctx).Ok?
        && ((r.status.TimedOut? && s.clock(n) > ctx.deadline)
            || (&& r.status.Succeeded? && r.outputs == s.execute(ctx).value.outputs
                && r.counts == s.execute(ctx).value.counts && !r.uncertain))
    }

    lemma StillAlone(n: nat, m: nat, m': nat)
      requires m <= m'
      ensures Alone(n, m') ==> Alone(n, m)
    {
    }

    /** A node without outputs has nothing to commit to, and its success is refused. */
    lemma NoCheckpoint(snapshot: Records, m: nat, n: nat)
      requires ctx.nodeId in job.cfg.nodes && job.cfg.nodes[ctx.nodeId].expectedOutputs == {} && s.execute(ctx).Ok?
      ensures Cause(MISSING_CHECKPOINT, snapshot, m, n)
    {
    }

    /** The guarded body, up to the report. */
    method Attempt(
      snapshot: Records, ghost b: Board, ghost n: nat
    ) returns (result: Option<Result>, fault: Option<Fault>)
      requires Flying() && Faithful(system.produce, s.execute) && ctx.nodeId in job.cfg.nodes && n <= tick
      requires Inv(job, b) && ctx.nodeId in b.active && b.active[ctx.nodeId] == ctx && snapshot == b.recs
      requires Claimed() && Unfinished()
      modifies this`tick, system.store
      ensures Flying() && Claimed() && n <= tick && (Alone(n, tick) ==> Unfinished())
      ensures result.Some? <==> fault.None?
      ensures fault.Some? ==> fault.value.Other? && Cause(fault.value.error, snapshot, n, tick)
      ensures result.Some? ==>
                && MayReport(job, Board().recs, ctx, result.value) && result.value.status.Succeeded?
                && s.execute(ctx).Ok? && result.value.outputs == s.execute(ctx).value.outputs
                && result.value.counts == s.execute(ctx).value.counts && !result.value.uncertain
                && (job.cfg.nodes[ctx.nodeId].expectedOutputs != {} ==> CheckpointCommits(result.value))
    {
      hide Inv, Faithful, InputFingerprint, SystemOk, MayReport, Cause, Started, Alone, InFlight, ClosedSound,
           OpenInFlight, StoreOk, ValidJob, NodesOf, Served, CheckpointCommits;
      var node := job.cfg.nodes[ctx.nodeId];
      Others();
      ghost var m := tick;
      StillAlone(n, m, m);
      fault := Revalidate(snapshot, node, b);
      if fault.Some? {
        WiderCause(fault.value.error, snapshot, m, tick, n, tick);
        AloneBetween(n, m - 1, m, tick);
        return None, fault;
      }
      ghost var p := tick;
      result, fault := Produce(snapshot, node);
      ghost var q := tick;
      Others();
      AloneBetween(n, m - 1, m, tick);
      AloneBetween(n, q, tick, tick);
      if fault.None? {
        SuccessIsReportable(b, result.value);
      } else {
        WiderCause(fault.value.error, snapshot, p, q, n, tick);
      }
    }

    lemma AloneBetween(n: nat, m: nat, m': nat, n': nat)
      requires n <= m && m' <= n'
      ensures Alone(n, n') ==> Alone(m, m')
    {
    }

    lemma SuccessIsReportable(b: Board, result: Result)
      requires Flying() && ctx.nodeId in job.cfg.nodes
      requires Inv(job, b) && ctx.nodeId in b.active && b.active[ctx.nodeId] == ctx
      requires var node := job.cfg.nodes[ctx.nodeId];
               && ctx.inputs.Inputs? && ctx.inputs ==
                    InputFingerprint(job.cfg, node, ctx.parameters, ctx.inputs.contents, b.recs)
               && result.status.Succeeded? && !result.uncertain && result.error.None?
               && result.outputs.Keys == node.expectedOutputs && Proofs(result.outputs) == system.produce(ctx.inputs)
      ensures MayReport(job, Board().recs, ctx, result)
    {
      hide Inv, SystemOk, SignatureOf, Proofs, DependencyProofs, ValidJob;
      FlyingBoard();
      ContextStable(job, b, Board(), ctx.nodeId);
    }

    lemma FailureIsReportable(error: Failure)
      requires ctx.nodeId in job.cfg.nodes && system.flight.Some?
      ensures MayReport(job, Board().recs, ctx, FailureReport(error))
    {
    }
  }
}
