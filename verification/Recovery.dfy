/** What holds of a scope across any chain of runs, crashes, orphaned workers and reconciliations. */
module Recovery {
  import opened Model
  import opened ControlLog
  import opened StoreInvariants
  import opened StoreHistory
  import opened Parameters
  import opened Descendants
  import opened Board
  import opened RunSteps
  import opened Planning

  /** The job, the contexts in flight and the `invalid` set of the open run. They outlive a crash of
      its orchestrator: workers that were dispatched may still report. */
  datatype Flight = Flight(job: Job, active: map<NodeId, Context>, invalid: set<NodeId>)

  function FlightBoard(t: Tables, f: Flight): Board {
    BoardOf(t, f.job, f.active, f.invalid)
  }

  /** What each run of the scope may have read. */
  type Readings = map<RunId, Reads>

  /** Every success of the run was computed from contents that the run may have read. */
  ghost predicate ReadOnly(canRead: Reads, recs: Records) {
    forall k | k in recs && Success(recs[k].status) :: WasRead(canRead, recs[k].inputs)
  }

  /** The records of a run, as later runs and readers may rely on them. */
  ghost predicate Trusted(cfg: Config, produce: Production, canRead: Reads, recs: Records) {
    RunSound(cfg, produce, recs) && ReadOnly(canRead, recs)
  }

  /** The records of the run's parent. */
  function ParentRecords(t: Tables, run: RunId): Records
    requires run in t.runs
  {
    if t.runs[run].common.parent.Some? then NodesOf(t, t.runs[run].common.parent.value) else map[]
  }

  /** Whatever the run reused was earned in its parent run. */
  ghost predicate ReuseEarned(t: Tables, run: RunId)
    requires run in t.runs
  {
    var common, recs := t.runs[run].common, NodesOf(t, run);
    forall k | k in recs && recs[k].status == SkippedAlreadySatisfied ::
      Earned(common.config, common.businessKey, ParentRecords(t, run), k, recs[k])
  }

  ghost predicate InFlight(t: Tables, produce: Production, readings: Readings, f: Flight) {
    && f.job.run in t.runs && Open(t.runs[f.job.run].status)
    && f.job.cfg == t.runs[f.job.run].common.config && f.job.produce == produce
    && f.job.businessKey == t.runs[f.job.run].common.businessKey && f.job.previous == ParentRecords(t, f.job.run)
    && f.job.run in readings && readings[f.job.run] == f.job.canRead
    && ValidJob(f.job) && Inv(f.job, FlightBoard(t, f))
  }

  ghost predicate ClosedSound(t: Tables, produce: Production, readings: Readings) {
    forall run | run in t.runs && !Open(t.runs[run].status) ::
      && run in readings && Trusted(t.runs[run].common.config, produce, readings[run], NodesOf(t, run))
      && ReuseEarned(t, run)
  }

  ghost predicate OpenInFlight(t: Tables, produce: Production, readings: Readings, flight: Option<Flight>) {
    forall run | run in t.runs && Open(t.runs[run].status) ::
      flight.Some? && flight.value.job.run == run && InFlight(t, produce, readings, flight.value)
  }

  /** Every closed run of the scope is sound, and the open run, if any, is within the protocol. */
  ghost predicate SystemOk(t: Tables, produce: Production, readings: Readings, flight: Option<Flight>) {
    StoreOk(t) && ClosedSound(t, produce, readings) && OpenInFlight(t, produce, readings, flight)
  }

  /** A run in progress is sound as it stands: the protocol's invariant includes it. */
  lemma InFlightIsSound(job: Job, b: Board)
    requires Inv(job, b)
    ensures Trusted(job.cfg, job.produce, job.canRead, b.recs)
  {
    forall k | k in b.recs && Success(b.recs[k].status)
      ensures Proven(job.cfg, job.produce, b.recs, k, b.recs[k]) && WasRead(job.canRead, b.recs[k].inputs)
    {
      assert NodeInv(job, b, k);
    }
  }

  /** What a run in progress has reused was earned. */
  lemma InFlightEarns(t: Tables, produce: Production, readings: Readings, f: Flight)
    requires InFlight(t, produce, readings, f)
    ensures ReuseEarned(t, f.job.run)
  {
    hide Earned;
    forall k | k in NodesOf(t, f.job.run) && NodesOf(t, f.job.run)[k].status == SkippedAlreadySatisfied
      ensures Earned(f.job.cfg, f.job.businessKey, f.job.previous, k, NodesOf(t, f.job.run)[k])
    {
      RecordIsRuled(f.job, FlightBoard(t, f), k);
    }
  }

  lemma RecordIsRuled(job: Job, b: Board, k: NodeId)
    requires Inv(job, b) && k in b.recs
    ensures k in job.cfg.nodes && Ruled(job, b.recs, k, b.recs[k])
  {
    hide Ruled, Proven, Shape, ContextHolds;
    assert NodeInv(job, b, k);
  }

  /** The parent of a run is an older, closed run. */
  lemma OlderParent(t: Tables, run: RunId)
    requires StoreOk(t) && run in t.runs && t.runs[run].common.parent.Some?
    ensures var p := t.runs[run].common.parent.value; p in t.runs && p in t.nodes && p != run && !Open(t.runs[p].status)
  {
    hide RunOk;
    var i :| 0 <= i < |t.runOrder| && t.runOrder[i] == run;
    assert Link(t, i);
    assert Link(t, i - 1);
  }

  /** Reuse stays earned as long as neither the run nor its parent changes. */
  lemma SameEarnings(t: Tables, t': Tables, run: RunId)
    requires run in t.runs && run in t'.runs && ReuseEarned(t, run) && t'.runs[run].common == t.runs[run].common
    requires forall k | k in NodesOf(t', run) && NodesOf(t', run)[k].status == SkippedAlreadySatisfied ::
               k in NodesOf(t, run) && NodesOf(t, run)[k] == NodesOf(t', run)[k]
    requires ParentRecords(t', run) == ParentRecords(t, run)
    ensures ReuseEarned(t', run)
  {
    hide Earned;
  }

  lemma SameParentRecords(t: Tables, t': Tables, run: RunId)
    requires StoreOk(t) && run in t.runs && run in t'.runs && t'.runs[run].common == t.runs[run].common
    requires ClosedKept(t, t')
    ensures ParentRecords(t', run) == ParentRecords(t, run)
  {
    hide StoreOk;
    if t.runs[run].common.parent.Some? {
      OlderParent(t, run);
    }
  }

  /** A step that changes only the open run keeps every closed run sound. */
  lemma OthersStaySound(t: Tables, t': Tables, produce: Production, readings: Readings, run: RunId)
    requires StoreOk(t) && ClosedSound(t, produce, readings) && ClosedKept(t, t')
    requires forall o | o in t'.runs && o != run && !Open(t'.runs[o].status) :: o in t.runs && !Open(t.runs[o].status)
    requires run in t'.runs && !Open(t'.runs[run].status) ==>
               && run in readings && Trusted(t'.runs[run].common.config, produce, readings[run], NodesOf(t', run))
               && ReuseEarned(t', run)
    ensures ClosedSound(t', produce, readings)
  {
    hide StoreOk, Trusted, ReuseEarned;
    ClosedHaveNodes(t);
    forall o | o in t'.runs && !Open(t'.runs[o].status)
      ensures o in readings && Trusted(t'.runs[o].common.config, produce, readings[o], NodesOf(t', o))
      ensures ReuseEarned(t', o)
    {
      if o != run {
        assert NodesOf(t', o) == NodesOf(t, o);
        SameParentRecords(t, t', o);
        SameEarnings(t, t', o);
      }
    }
  }

  lemma ClosedHaveNodes(t: Tables)
    requires StoreOk(t)
    ensures forall o | o in t.runs :: o in t.nodes
  {
  }

  lemma OnlyOneOpen(t: Tables, run: RunId, other: RunId)
    requires StoreOk(t) && run in t.runs && other in t.runs && Open(t.runs[run].status) && Open(t.runs[other].status)
    ensures run == other
  {
    OpenIsLast(t, run);
    OpenIsLast(t, other);
  }

  lemma FramedParent(t: Tables, t': Tables, open: RunId, run: RunId)
    requires StoreOk(t) && Framed(t, t', open) && run in t.runs && open in t.runs && Open(t.runs[open].status)
    ensures ParentRecords(t', run) == ParentRecords(t, run)
  {
    hide StoreOk;
    if t.runs[run].common.parent.Some? {
      OlderParent(t, run);
    }
  }

  /** Whatever the scheduler or its workers did within the run. */
  lemma RunMoves(t: Tables, t': Tables, produce: Production, readings: Readings, f: Flight, f': Flight)
    requires SystemOk(t, produce, readings, Some(f)) && StoreOk(t') && Framed(t, t', f.job.run)
    requires f.job.run in t.runs && Open(t.runs[f.job.run].status)
    requires f'.job == f.job && Inv(f.job, FlightBoard(t', f'))
    ensures SystemOk(t', produce, readings, Some(f'))
  {
    hide Inv, ValidJob, Trusted, ReuseEarned, StoreOk, ParentRecords;
    forall run | run in t'.runs && !Open(t'.runs[run].status)
      ensures run in readings && Trusted(t'.runs[run].common.config, produce, readings[run], NodesOf(t', run))
      ensures ReuseEarned(t', run)
    {
      assert run != f.job.run;
      assert NodesOf(t', run) == NodesOf(t, run);
      FramedParent(t, t', f.job.run, run);
      SameEarnings(t, t', run);
    }
    FramedParent(t, t', f.job.run, f.job.run);
    forall run | run in t'.runs && Open(t'.runs[run].status) ensures run == f'.job.run {
      OnlyOneOpen(t, run, f.job.run);
    }
  }

  /** The parameters of what is in flight resolve, whatever else was going on when the run was left. */
  lemma FlightResolves(job: Job, b: Board)
    requires ValidJob(job) && Inv(job, b)
    ensures Resolvable(job, b, b.recs.Keys - b.active.Keys)
  {
    hide Inv;
    forall k | k in b.recs && k in b.active ensures k in job.cfg.nodes && ResolvableAt(job, b, k) {
      ActiveContext(job, b, k);
    }
  }

  /** A worker that was dispatched by the run, alive or orphaned. */
  lemma WorkerMoves(t: Tables, produce: Production, readings: Readings, f: Flight, c: Command, now: real)
    requires SystemOk(t, produce, readings, Some(f)) && f.job.run in t.runs && Open(t.runs[f.job.run].status)
    requires WorkerCall(f.job, FlightBoard(t, f).recs, f.active, c)
    ensures SystemOk(After(t, c, now), produce, readings, Some(f)) && After(t, c, now).runs == t.runs
  {
    hide Inv, Resolvable, ValidJob, After, WorkerCall, StoreOk;
    var b := FlightBoard(t, f);
    FlightResolves(f.job, b);
    WorkerCallKeeps(t, f.job, b, b.recs.Keys - f.active.Keys, c, now);
    RunMoves(t, After(t, c, now), produce, readings, f, f);
  }

  /** `finish_run` closes a run, or marks it RECOVERY_REQUIRED. */
  lemma FinishMoves(t: Tables, produce: Production, readings: Readings, f: Flight, c: Command, now: real)
    requires SystemOk(t, produce, readings, Some(f)) && f.job.run in t.runs && Open(t.runs[f.job.run].status)
    requires c.FinishRun? && c.run == f.job.run && Conventional(t, c) && Decide(t, c, now).Ok?
    ensures SystemOk(After(t, c, now), produce, readings, Some(f))
  {
    hide Inv, Resolvable, ValidJob, Trusted;
    var t' := After(t, c, now);
    CallKeeps(t, c, now);
    StepFreezes(t, c, now);
    FinishTables(t, c, now);
    InFlightIsSound(f.job, FlightBoard(t, f));
    InFlightEarns(t, produce, readings, f);
    SameParentRecords(t, t', c.run);
    SameEarnings(t, t', c.run);
    OthersStaySound(t, t', produce, readings, c.run);
    forall run | run in t'.runs && Open(t'.runs[run].status) ensures run == f.job.run {
      OnlyOneOpen(t, run, f.job.run);
    }
    assert FlightBoard(t', f) == FlightBoard(t, f);
  }

  lemma FinishTables(t: Tables, c: Command, now: real)
    requires StoreOk(t) && c.FinishRun? && Decide(t, c, now).Ok?
    ensures After(t, c, now).nodes == t.nodes
    ensures After(t, c, now).runs == t.runs[c.run := t.runs[c.run].(status := c.runStatus, endedAt := Some(now))]
  {
    var es := Decide(t, c, now).value;
    assert es == [es[0]];
    EvolveOne(t, es[0]);
    assert RunOk(t, c.run);
  }

  /** Reconciliation cancels what is not finished or not certain; proven successes stay proven. */
  lemma ReconciledSound(job: Job, b: Board, keys: seq<NodeId>, now: real)
    requires Inv(job, b)
    ensures Trusted(job.cfg, job.produce, job.canRead, ReconcileAll(b.recs, keys, now))
  {
    var recs := ReconcileAll(b.recs, keys, now);
    forall k | k in recs && Success(recs[k].status)
      ensures Proven(job.cfg, job.produce, recs, k, recs[k]) && WasRead(job.canRead, recs[k].inputs)
    {
      assert NodeInv(job, b, k);
      assert recs[k] == b.recs[k];
      var deps := job.cfg.nodes[k].dependencies;
      forall d | d in deps ensures d in recs && recs[d] == b.recs[d] {
        assert Final(job, b, d);
      }
      SameViews(b.recs, recs, deps);
    }
  }

  lemma OpenRunHasFlight(
    t: Tables, produce: Production, readings: Readings, flight: Option<Flight>, c: Command, now: real
  )
    requires SystemOk(t, produce, readings, flight) && c.Reconcile? && Decide(t, c, now).Ok?
    ensures flight.Some?
  {
  }

  /** Reconciliation leaves reused records as they are. */
  lemma ReconciledReuse(recs: Records, keys: seq<NodeId>, now: real)
    ensures forall k | k in ReconcileAll(recs, keys, now) &&
              ReconcileAll(recs, keys, now)[k].status == SkippedAlreadySatisfied ::
              k in recs && ReconcileAll(recs, keys, now)[k] == recs[k]
  {
  }

  lemma ReconcileMoves(t: Tables, produce: Production, readings: Readings, f: Flight, c: Command, now: real)
    requires SystemOk(t, produce, readings, Some(f)) && c.Reconcile? && Decide(t, c, now).Ok?
    ensures SystemOk(After(t, c, now), produce, readings, None)
    ensures forall run | run in After(t, c, now).runs :: !Open(After(t, c, now).runs[run].status)
  {
    hide Inv, Resolvable, ValidJob, Trusted, ReconcileAll, Decide, After, StoreOk;
    var t' := After(t, c, now);
    CallKeeps(t, c, now);
    StepFreezes(t, c, now);
    ReconciledRun(t, c, now);
    assert c.run == f.job.run;
    ReconciledSound(f.job, FlightBoard(t, f), t.runs[c.run].plan, now);
    InFlightEarns(t, produce, readings, f);
    ReconciledReuse(NodesOf(t, c.run), t.runs[c.run].plan, now);
    SameParentRecords(t, t', c.run);
    SameEarnings(t, t', c.run);
    OthersStaySound(t, t', produce, readings, c.run);
    forall run | run in t'.runs ensures !Open(t'.runs[run].status) {
      if run != c.run && Open(t'.runs[run].status) {
        OnlyOneOpen(t, run, c.run);
      }
    }
  }

  // ----- Beginning a run -----

  /** What `_execute_graph` may not reuse at the start: prior failures, the forced origin, or everything. */
  function Seeds(cfg: Config, previous: Records, mode: Mode, origin: Option<NodeId>): set<NodeId> {
    if mode.ForceRerun? then cfg.nodes.Keys
    else
      (set k | k in previous && !Success(previous[k].status)) +
      if mode.ForceRestart? && origin.Some? then {origin.value} else {}
  }

  ghost predicate AllPending(b: Board, cfg: Config) {
    b.recs.Keys == cfg.nodes.Keys && forall k | k in b.recs :: b.recs[k].status.Pending? && b.recs[k].attempt == 0
  }

  /** A new run is within the protocol. */
  lemma InitialInv(job: Job, b: Board, common: Common, seeds: set<NodeId>)
    requires ValidJob(job) && b.recs == CreateAll(common, job.plan) && b.active == map[]
    requires b.invalid == Closure(job.cfg.nodes, seeds)
    requires forall k | k in job.previous && !Success(job.previous[k].status) :: k in job.cfg.nodes ==> k in seeds
    ensures Inv(job, b) && Resolvable(job, b, {}) && AllPending(b, job.cfg)
  {
    hide NodeInv, ResolvableAt, Closure, ValidJob, AllPending, CreateAll;
    PendingRecords(job, b, common);
    forall k | k in b.recs ensures NodeInv(job, b, k) && ResolvableAt(job, b, k) {
      PendingNode(job, b, common, k);
    }
  }

  lemma PendingRecords(job: Job, b: Board, common: Common)
    requires ValidJob(job) && b.recs == CreateAll(common, job.plan)
    ensures AllPending(b, job.cfg) && b.recs.Keys == job.cfg.nodes.Keys
    ensures forall k | k in b.recs :: b.recs[k] == NewNode(common, k)
  {
  }

  lemma PendingNode(job: Job, b: Board, common: Common, k: NodeId)
    requires k in b.recs && k in job.cfg.nodes && b.recs[k] == NewNode(common, k) && k !in b.active
    requires k !in b.invalid && k in job.previous ==> Success(job.previous[k].status)
    ensures NodeInv(job, b, k) && ResolvableAt(job, b, k)
  {
    hide Proven, ContextHolds, Final, Statuses, OutputsPresent;
  }

  /** What `begin_run` leaves in the store. */
  lemma BegunTables(t: Tables, c: Command, now: real) returns (run: RunRecord)
    requires StoreOk(t) && c.Begin? && Decide(t, c, now).Ok?
    ensures run == NewRun(t, c.request, c.cfg, c.plan, now)
    ensures Decide(t, c, now).value != [] && Decide(t, c, now).value[0].payload == RunPayload(run)
    ensures var t', id := After(t, c, now), run.common.runId;
            && t'.runs == t.runs[id := run] && id !in t.runs
            && NodesOf(t', id) == CreateAll(run.common, c.plan)
            && (forall o | o != id :: NodesOf(t', o) == NodesOf(t, o))
    ensures forall o | o in t.runs :: !Open(t.runs[o].status)
    ensures run.common.parent.Some? ==> run.common.parent.value in t.runs
    ensures run.common.parent == if t.runOrder == [] then None else Some(t.runOrder[|t.runOrder| - 1])
  {
    hide RunOk;
    FreshRun(t);
    BeginParent(t, c.request, c.cfg, c.plan, now);
    var t';
    t', run := BeginTables(t, c.request, c.cfg, c.plan, now);
    assert run.common == BeginCommon(t, c.request, c.cfg);
  }

  /** A run that begins on a system in order is in order. */
  lemma BeginMoves(
    t: Tables, produce: Production, readings: Readings, flight: Option<Flight>, c: Command, now: real, f: Flight,
    run: RunRecord
  )
    requires SystemOk(t, produce, readings, flight) && c.Begin? && Decide(t, c, now).Ok?
    requires run == NewRun(t, c.request, c.cfg, c.plan, now)
    requires f.job.cfg == c.cfg && f.job.plan == c.plan && f.job.run == run.common.runId && f.job.produce == produce
    requires f.job.businessKey == run.common.businessKey
    requires f.active == map[] && ValidConfig(c.cfg, c.plan)
    requires f.job.previous ==
             if run.common.parent.Some? then NodesOf(After(t, c, now), run.common.parent.value) else map[]
    requires f.invalid == Closure(c.cfg.nodes, Seeds(c.cfg, f.job.previous, run.common.mode, run.common.origin))
    ensures SystemOk(After(t, c, now), produce, readings[f.job.run := f.job.canRead], Some(f))
    ensures f.job.run in After(t, c, now).runs && After(t, c, now).runs[f.job.run] == run
    ensures run.common.config == c.cfg && run.status.RunRunning?
    ensures AllPending(FlightBoard(After(t, c, now), f), c.cfg)
    ensures run.common.parent != Some(f.job.run)
    ensures ParentSound(f.job, if run.common.parent.Some? && run.common.parent.value in t.runs
                               then t.runs[run.common.parent.value].common.config else c.cfg)
  {
    hide Inv, Resolvable, RunSound, ReadOnly, StoreOk, ValidConfig, Decide, After, Closure, CreateAll, ReuseEarned;
    var t' := After(t, c, now);
    var run' := BegunTables(t, c, now);
    CallKeeps(t, c, now);
    InitialInv(f.job, FlightBoard(t', f), run.common, Seeds(c.cfg, f.job.previous, run.common.mode, run.common.origin));
    NothingIsSound(c.cfg, produce);
    ClosedStaySound(t, t', produce, readings, run, f.job.canRead);
  }

  /** The closed runs of a scope in which another run begins. */
  lemma ClosedStaySound(
    t: Tables, t': Tables, produce: Production, readings: Readings, run: RunRecord, canRead: Reads
  )
    requires StoreOk(t) && ClosedSound(t, produce, readings) && run.status.RunRunning?
    requires run.common.runId !in t.runs && t'.runs == t.runs[run.common.runId := run]
    requires forall o | o != run.common.runId :: NodesOf(t', o) == NodesOf(t, o)
    ensures ClosedSound(t', produce, readings[run.common.runId := canRead])
  {
    hide StoreOk, Trusted, ReuseEarned, ParentRecords;
    forall o | o in t'.runs && !Open(t'.runs[o].status) ensures ReuseEarned(t', o) {
      assert o in t.runs;
      ParentStays(t, t', run.common.runId, o);
      SameEarnings(t, t', o);
    }
  }

  lemma ParentStays(t: Tables, t': Tables, id: RunId, o: RunId)
    requires StoreOk(t) && o in t.runs && o in t'.runs && t'.runs[o] == t.runs[o] && id !in t.runs
    requires forall q | q != id :: NodesOf(t', q) == NodesOf(t, q)
    ensures ParentRecords(t', o) == ParentRecords(t, o)
  {
    hide StoreOk;
    if t.runs[o].common.parent.Some? {
      OlderParent(t, o);
    }
  }

  lemma NothingIsSound(cfg: Config, produce: Production)
    ensures RunSound(cfg, produce, map[])
  {
  }

  /** Whatever any run of the scope reused, closed or not, it earned in its parent run. */
  lemma EveryReuseIsEarned(
    t: Tables, produce: Production, readings: Readings, flight: Option<Flight>, run: RunId, k: NodeId
  )
    requires SystemOk(t, produce, readings, flight) && run in t.runs
    requires k in NodesOf(t, run) && NodesOf(t, run)[k].status == SkippedAlreadySatisfied
    ensures t.runs[run].common.parent.Some?
    ensures var common := t.runs[run].common;
            Earned(common.config, common.businessKey, NodesOf(t, common.parent.value), k, NodesOf(t, run)[k])
  {
    hide Earned, Inv, StoreOk, Trusted, ValidJob;
    if Open(t.runs[run].status) {
      InFlightEarns(t, produce, readings, flight.value);
    }
    assert Earned(t.runs[run].common.config, t.runs[run].common.businessKey, ParentRecords(t, run), k,
                  NodesOf(t, run)[k]);
    EarnedSomewhere(t.runs[run].common.config, t.runs[run].common.businessKey, ParentRecords(t, run), k,
                    NodesOf(t, run)[k]);
  }

  lemma EarnedSomewhere(cfg: Config, businessKey: string, previous: Records, k: NodeId, r: NodeRecord)
    requires Earned(cfg, businessKey, previous, k, r)
    ensures k in previous
  {
  }

  /** Every run of the scope can be trusted, whether closed, open, uncertain or abandoned. */
  lemma EveryRunIsTrusted(t: Tables, produce: Production, readings: Readings, flight: Option<Flight>, run: RunId)
    requires SystemOk(t, produce, readings, flight) && run in t.runs
    ensures run in readings && Trusted(t.runs[run].common.config, produce, readings[run], NodesOf(t, run))
  {
    if Open(t.runs[run].status) {
      InFlightIsSound(flight.value.job, FlightBoard(t, flight.value));
    }
  }

  lemma SystemIsOk(t: Tables, produce: Production, readings: Readings, flight: Option<Flight>)
    requires SystemOk(t, produce, readings, flight)
    ensures StoreOk(t)
  {
  }

  /** A run that has begun is one that the scheduler can work on. */
  lemma BeginConfigured(
    t: Tables, produce: Production, readings: Readings, f: Flight, run: RunRecord, world: World, parentConfig: Config
  )
    requires SystemOk(t, produce, readings, Some(f)) && f.job.run in t.runs && t.runs[f.job.run] == run
               && run.status.RunRunning?
    requires ParentSound(f.job, parentConfig) && Orderly(world) && Respects(world, f.job.canRead)
    requires run.common.parent != Some(f.job.run)
    requires f.job.previous == if run.common.parent.Some? then NodesOf(t, run.common.parent.value) else map[]
    ensures Configured(t, f.job, world, run.owner, run.common.parent, parentConfig, t)
  {
    hide Inv, Resolvable, StoreOk, ValidJob, ParentSound, Orderly, Respects, ClosedSound;
  }
}
