/** The control store as it runs: a transaction object that replays the log, is changed by `Put`, and
    is appended as a whole; and one method per transition, each proved to do what `Decide` says. */
module ControlStore {
  import opened Model
  import opened ControlLog

  const AUDIT_CORRUPTION := Workflow("AUDIT_CORRUPTION")

  /** The constructor loop of `Transaction`: replay the events, refusing a gap or a duplicate. */
  method Replay(events: seq<Event>) returns (r: Outcome<Tables>)
    ensures r.Ok? <==> Numbered(events)
    ensures r.Ok? ==> r.value == Fold(events)
    ensures r.Err? ==> r.error == AUDIT_CORRUPTION
  {
    var latest := EmptyTables;
    var sequence := 0;
    for i := 0 to |events|
      invariant sequence == i
      invariant Numbered(events[..i])
      invariant latest == Fold(events[..i])
    {
      if events[i].sequence != sequence + 1 {
        return Err(AUDIT_CORRUPTION);
      }
      sequence := events[i].sequence;
      assert events[..i + 1][..i] == events[..i];
      latest := Evolve(latest, events[i].entry);
    }
    assert events[..|events|] == events;
    return Ok(latest);
  }

  class Transaction {
    const events: seq<Event>
    var sequence: nat
    var latest: Tables
    var pending: seq<Event>

    ghost predicate Valid()
      reads this
    {
      && Numbered(events + pending)
      && sequence == |events + pending|
      && latest == Fold(events + pending)
      && latest.sequence == sequence
    }

    constructor (events: seq<Event>, latest: Tables)
      requires Numbered(events) && latest == Fold(events)
      ensures Valid() && this.events == events && pending == []
      ensures this.latest == latest && sequence == |events|
    {
      this.events := events;
      this.latest := latest;
      sequence := |events|;
      pending := [];
      FoldSequence(events);
      assert events + [] == events;
    }

    /** `put`: number the event, update the projection, and queue the event for the append. */
    method Put(kind: EventType, payload: Payload)
      requires Valid()
      modifies this
      ensures Valid()
      ensures pending == old(pending) + [Event(old(sequence) + 1, Entry(kind, payload))]
      ensures latest == Evolve(old(latest), Entry(kind, payload))
      ensures events + pending == Commit(events + old(pending), [Entry(kind, payload)])
    {
      var entry := Entry(kind, payload);
      ghost var before := events + pending;
      sequence := sequence + 1;
      pending := pending + [Event(sequence, entry)];
      latest := Evolve(latest, entry);
      assert events + pending == before + [Event(sequence, entry)];
      assert (events + pending)[..|before|] == before;
    }

    /** The creation loop of `begin_run`. */
    method PutCreated(common: Common, plan: seq<NodeId>)
      requires Valid()
      modifies this
      ensures Valid()
      ensures pending == old(pending) + Stamp(old(sequence), CreateEntries(common, plan))
    {
      ghost var es := CreateEntries(common, plan);
      for i := 0 to |plan|
        invariant Valid() && sequence == old(sequence) + i
        invariant pending == old(pending) + Stamp(old(sequence), es[..i])
      {
        Put(NodeCreated, NodePayload(NewNode(common, plan[i])));
      }
      assert es[..|plan|] == es;
    }

    /** The loop of `reconcile` over the run's nodes. */
    method PutReconciled(recs: map<NodeId, NodeRecord>, keys: seq<NodeId>, now: real)
      requires Valid()
      modifies this
      ensures Valid()
      ensures pending == old(pending) + Stamp(old(sequence), ReconcileEntries(recs, keys, now))
      ensures sequence == old(sequence) + |ReconcileEntries(recs, keys, now)|
    {
      ReconcileNone(recs, now);
      assert keys[..0] == [];
      hide ReconcileEntries, Fold, Evolve;
      for i := 0 to |keys|
        invariant Valid() && sequence == old(sequence) + |ReconcileEntries(recs, keys[..i], now)|
        invariant pending == old(pending) + Stamp(old(sequence), ReconcileEntries(recs, keys[..i], now))
      {
        var k := keys[i];
        ReconcileOneMore(recs, keys, i, now);
        if k in recs && (!Terminal(recs[k].status) || recs[k].uncertain) {
          StampConcat(old(sequence), ReconcileEntries(recs, keys[..i], now),
                      [Entry(AttemptReconciled, NodePayload(Reconciled(recs[k], now)))]);
          Put(AttemptReconciled, NodePayload(Reconciled(recs[k], now)));
        }
      }
      assert keys[..|keys|] == keys;
    }

    static lemma ReconcileNone(recs: map<NodeId, NodeRecord>, now: real)
      ensures ReconcileEntries(recs, [], now) == []
    {
    }

    static lemma ReconcileOneMore(recs: map<NodeId, NodeRecord>, keys: seq<NodeId>, i: nat, now: real)
      requires i < |keys|
      ensures ReconcileEntries(recs, keys[..i + 1], now) == ReconcileEntries(recs, keys[..i], now) +
              if keys[i] in recs && (!Terminal(recs[keys[i]].status) || recs[keys[i]].uncertain)
              then [Entry(AttemptReconciled, NodePayload(Reconciled(recs[keys[i]], now)))] else []
      ensures ReconcileEntries(recs, keys[..i], now) + [] == ReconcileEntries(recs, keys[..i], now)
    {
      assert keys[..i + 1][..i] == keys[..i];
    }

    method PutReconciliation(recs: map<NodeId, NodeRecord>, keys: seq<NodeId>, closing: Entry, now: real)
      requires Valid() && pending == []
      modifies this
      ensures Valid()
      ensures pending == Stamp(old(sequence), ReconcileEntries(recs, keys, now) + [closing])
    {
      ghost var es := ReconcileEntries(recs, keys, now);
      PutReconciled(recs, keys, now);
      Put(closing.kind, closing.payload);
      StampConcat(old(sequence), es, [closing]);
    }
  }

  lemma SkipDecided(
    t: Tables, run: RunId, node: NodeId, owner: nat, status: Status, deps: map<NodeId, Status>,
    prior: Option<NodeRecord>, inputs: Option<Fingerprint>, now: real
  )
    ensures var d, recs := Decide(t, Skip(run, node, owner, status, deps, prior, inputs), now), NodesOf(t, run);
            if !Runs(t, run, Some(owner)) || node !in recs then d == Err(CLAIM_COLLISION)
            else if recs[node].status != Pending && !(status == Cancelled && recs[node].status == Ready) then
              d == Err(CLAIM_COLLISION)
            else if status == SkippedAlreadySatisfied && (prior.None? || !Success(prior.value.status)) then
              d == Err(Workflow("UNPROVEN_SKIP"))
            else
              d == NodeEntry(if status == Blocked || status == Cancelled then NodeBlocked else NodeSkipped,
                             Skipped(recs[node], status, deps, prior, inputs, now))
  {
  }

  /** A committed transaction appends exactly the decided entries; a raised one appends nothing. */
  predicate Transition(before: seq<Event>, decision: Outcome<seq<Entry>>, after: seq<Event>) {
    after == match decision case Ok(es) => Commit(before, es) case Err(_) => before
  }

  class ControlStore {
    var log: seq<Event>

    ghost predicate Valid()
      reads this
    {
      Numbered(log)
    }

    ghost function Projection(): Tables
      reads this
    {
      Fold(log)
    }

    constructor ()
      ensures Valid() && log == []
    {
      log := [];
    }

    /** Another process opens a scope that already has events. */
    constructor Reopen(log: seq<Event>)
      requires Numbered(log)
      ensures Valid() && this.log == log
    {
      this.log := log;
    }

    /** BEGIN IMMEDIATE and the read of the scope. */
    method Open() returns (tx: Transaction)
      requires Valid()
      ensures fresh(tx) && tx.Valid() && tx.events == log && tx.pending == []
      ensures tx.latest == Projection() && tx.sequence == |log|
    {
      var tables := Replay(log);
      tx := new Transaction(log, tables.value);
    }

    method NodesOfRun(run: RunId) returns (recs: map<NodeId, NodeRecord>)
      requires Valid()
      ensures recs == NodesOf(Projection(), run)
    {
      var tx := Open();
      recs := NodesOf(tx.latest, run);
    }

    /** The nodes that any run of the scope has attempted. */
    method AttemptedNodes() returns (attempted: set<NodeId>)
      requires Valid()
      ensures forall k: NodeId :: k in attempted <==>
                exists run: RunId :: k in NodesOf(Projection(), run) && NodesOf(Projection(), run)[k].attempt > 0
    {
      var tx := Open();
      var nodes: map<RunId, map<NodeId, NodeRecord>> := tx.latest.nodes;
      attempted := set run, k | run in nodes && k in nodes[run] && nodes[run][k].attempt > 0 :: k;
      forall k: NodeId, run: RunId | k in NodesOf(Projection(), run) && NodesOf(Projection(), run)[k].attempt > 0
        ensures k in attempted
      {
        assert run in nodes && k in nodes[run];
      }
      forall k: NodeId | k in attempted
        ensures exists run: RunId :: k in NodesOf(Projection(), run) && NodesOf(Projection(), run)[k].attempt > 0
      {
        var run: RunId :| run in nodes && k in nodes[run] && nodes[run][k].attempt > 0;
        assert k in NodesOf(Projection(), run);
      }
    }

    method BeginRun(request: RunRequest, cfg: Config, plan: seq<NodeId>, now: real) returns (r: Outcome<RunRecord>)
      requires Valid()
      modifies this
      ensures Valid()
      ensures var d := Decide(old(Projection()), Begin(request, cfg, plan), now);
              && Transition(old(log), d, log)
              && (r.Ok? <==> d.Ok?) && (r.Err? ==> r.error == d.error)
              && (r.Ok? ==> d.value[0].payload == RunPayload(r.value))
    {
      var tx := Open();
      var refusal := BeginRefusal(tx.latest, request);
      if refusal.Some? {
        return Err(refusal.value);
      }
      var run := NewRun(tx.latest, request, cfg, plan, now);
      ghost var es := [Entry(RunStarted, RunPayload(run))] + CreateEntries(run.common, plan);
      tx.Put(RunStarted, RunPayload(run));
      tx.PutCreated(run.common, plan);
      StampConcat(|log|, [es[0]], CreateEntries(run.common, plan));
      log := log + tx.pending;
      return Ok(run);
    }

    method Prepare(
      run: RunId, node: NodeId, owner: nat, inputs: Fingerprint, deps: map<NodeId, Status>, delay: real, now: real
    ) returns (r: Outcome<NodeRecord>)
      requires Valid()
      modifies this
      ensures Valid()
      ensures var d := Decide(old(Projection()), Command.Prepare(run, node, owner, inputs, deps, delay), now);
              && Transition(old(log), d, log)
              && (r.Ok? <==> d.Ok?) && (r.Err? ==> r.error == d.error)
              && (r.Ok? ==> d.value[0].payload == NodePayload(r.value))
    {
      hide Evolve, Fold, Numbered;
      var tx := Open();
      var recs := NodesOf(tx.latest, run);
      if !Runs(tx.latest, run, Some(owner)) || node !in recs {
        return Err(CLAIM_COLLISION);
      }
      var record := recs[node];
      if record.status != Pending && record.status != Failed && record.status != TimedOut {
        return Err(CLAIM_COLLISION);
      }
      if record.uncertain {
        return Err(Workflow("RECONCILIATION_REQUIRED"));
      }
      var prepared := Prepared(record, inputs, deps, now + delay, tx.sequence + 1);
      tx.Put(if record.attempt > 0 then RetryScheduled else NodeReady, NodePayload(prepared));
      log := log + tx.pending;
      return Ok(prepared);
    }

    method Claim(ctx: Context, now: real) returns (r: Outcome<NodeRecord>)
      requires Valid()
      modifies this
      ensures Valid()
      ensures var d := Decide(old(Projection()), Command.Claim(ctx), now);
              && Transition(old(log), d, log)
              && (r.Ok? <==> d.Ok?) && (r.Err? ==> r.error == d.error)
              && (r.Ok? ==> d.value[0].payload == NodePayload(r.value))
    {
      var tx := Open();
      var recs := NodesOf(tx.latest, ctx.runId);
      if !Runs(tx.latest, ctx.runId, None) || ctx.nodeId !in recs {
        return Err(CLAIM_COLLISION);
      }
      var record := recs[ctx.nodeId];
      if || record.status != Ready || record.claim != Some(ctx.claim) || record.attempt != ctx.attempt
         || record.inputs != Some(ctx.inputs) || record.common.config != ctx.config
      {
        return Err(CLAIM_COLLISION);
      }
      var claimed := Claimed(record, now);
      tx.Put(AttemptClaimed, NodePayload(claimed));
      log := log + tx.pending;
      return Ok(claimed);
    }

    /** Finishing twice returns the record that the first finish committed. */
    method FinishAttempt(ctx: Context, res: Result, now: real) returns (r: Outcome<NodeRecord>)
      requires Valid()
      modifies this
      ensures Valid()
      ensures var d := Decide(old(Projection()), Finish(ctx, res), now);
              && Transition(old(log), d, log)
              && (r.Ok? <==> d.Ok?) && (r.Err? ==> r.error == d.error)
              && (r.Ok? && d.value != [] ==> d.value[0].payload == NodePayload(r.value))
              && (r.Ok? && d.value == [] ==>
                    && ctx.nodeId in NodesOf(old(Projection()), ctx.runId)
                    && r.value == NodesOf(old(Projection()), ctx.runId)[ctx.nodeId]
                    && Terminal(r.value.status))
    {
      var tx := Open();
      var recs := NodesOf(tx.latest, ctx.runId);
      if !Runs(tx.latest, ctx.runId, None) || ctx.nodeId !in recs || !Holds(recs[ctx.nodeId], ctx) {
        return Err(CLAIM_COLLISION);
      }
      var record := recs[ctx.nodeId];
      if Terminal(record.status) {
        log := log + tx.pending;
        return Ok(record);
      }
      if record.status != Running && !(res.allowReady && record.status == Ready) {
        return Err(CLAIM_COLLISION);
      }
      if res.status.Succeeded? && !CheckpointCommits(res) {
        return Err(Workflow("MISSING_CHECKPOINT"));
      }
      var finished := Finished(record, res, now > ctx.deadline, now);
      tx.Put(AttemptFinished, NodePayload(finished));
      log := log + tx.pending;
      return Ok(finished);
    }

    method Skip(
      run: RunId, node: NodeId, owner: nat, status: Status, deps: map<NodeId, Status>,
      prior: Option<NodeRecord>, inputs: Option<Fingerprint>, now: real
    ) returns (r: Outcome<NodeRecord>)
      requires Valid()
      modifies this
      ensures Valid()
      ensures var d := Decide(old(Projection()), Command.Skip(run, node, owner, status, deps, prior, inputs), now);
              && Transition(old(log), d, log)
              && (r.Ok? <==> d.Ok?) && (r.Err? ==> r.error == d.error)
              && (r.Ok? ==> d.value[0].payload == NodePayload(r.value))
    {
      hide Evolve, Fold, Numbered, Skipped, Runs, Decide;
      var tx := Open();
      SkipDecided(tx.latest, run, node, owner, status, deps, prior, inputs, now);
      var recs := NodesOf(tx.latest, run);
      if !Runs(tx.latest, run, Some(owner)) || node !in recs {
        return Err(CLAIM_COLLISION);
      }
      var record := recs[node];
      if record.status != Pending && !(status == Cancelled && record.status == Ready) {
        return Err(CLAIM_COLLISION);
      }
      if status == SkippedAlreadySatisfied && (prior.None? || !Success(prior.value.status)) {
        return Err(Workflow("UNPROVEN_SKIP"));
      }
      var skipped := Skipped(record, status, deps, prior, inputs, now);
      var kind := if status == Blocked || status == Cancelled then NodeBlocked else NodeSkipped;
      tx.Put(kind, NodePayload(skipped));
      log := log + tx.pending;
      return Ok(skipped);
    }

    method RecordRemote(ctx: Context, remote: int, now: real) returns (r: Outcome<NodeRecord>)
      requires Valid()
      modifies this
      ensures Valid()
      ensures var d := Decide(old(Projection()), Remote(ctx, remote), now);
              && Transition(old(log), d, log)
              && (r.Ok? <==> d.Ok?) && (r.Err? ==> r.error == d.error)
    {
      var tx := Open();
      var recs := NodesOf(tx.latest, ctx.runId);
      if !Runs(tx.latest, ctx.runId, None) || ctx.nodeId !in recs || recs[ctx.nodeId].claim != Some(ctx.claim) {
        return Err(CLAIM_COLLISION);
      }
      var updated := recs[ctx.nodeId].(remote := Some(remote));
      tx.Put(RemoteRunSubmitted, NodePayload(updated));
      log := log + tx.pending;
      return Ok(updated);
    }

    /** An identical retry returns the same receipt; other content under the same identity is a conflict. */
    method PutOutbox(ctx: Context, digest: string, reference: Reference, operation: string, now: real)
      returns (r: Outcome<Reference>)
      requires Valid()
      modifies this
      ensures Valid()
      ensures var d := Decide(old(Projection()), Command.PutOutbox(ctx, digest, reference, operation), now);
              && Transition(old(log), d, log)
              && (r.Ok? <==> d.Ok?) && (r.Err? ==> r.error == d.error)
              && (r.Ok? ==> r.value == Receipt(EffectId(ctx.nodeId, operation), digest))
    {
      if !ValidOperation(operation) {
        return Err(INVALID_OPERATION);
      }
      var effect := EffectId(ctx.nodeId, operation);
      var tx := Open();
      var recs := NodesOf(tx.latest, ctx.runId);
      if || !Runs(tx.latest, ctx.runId, None) || ctx.nodeId !in recs
         || recs[ctx.nodeId].status != Running || recs[ctx.nodeId].claim != Some(ctx.claim)
      {
        return Err(CLAIM_COLLISION);
      }
      if effect in tx.latest.outbox && tx.latest.outbox[effect].payloadDigest != digest {
        return Err(Failure("SIDE_EFFECT_CONFLICT", Business, false));
      }
      if effect !in tx.latest.outbox {
        tx.Put(OutboxCommitted, OutboxPayload(OutboxRecord(effect, ctx.runId, digest, reference, true)));
      } else {
        var existing := tx.latest.outbox[effect];
        if existing.pendingDispatch && existing.reference != reference {
          tx.Put(OutboxReferenceRefreshed, OutboxPayload(existing.(reference := reference)));
        }
      }
      log := log + tx.pending;
      return Ok(Receipt(effect, digest));
    }

    method FinishRun(run: RunId, owner: nat, status: RunStatus, now: real) returns (r: Outcome<RunRecord>)
      requires Valid()
      modifies this
      ensures Valid()
      ensures var d := Decide(old(Projection()), Command.FinishRun(run, owner, status), now);
              && Transition(old(log), d, log)
              && (r.Ok? <==> d.Ok?) && (r.Err? ==> r.error == d.error)
              && (r.Ok? ==> d.value[0].payload == RunPayload(r.value))
    {
      var tx := Open();
      if !Runs(tx.latest, run, Some(owner)) {
        return Err(CLAIM_COLLISION);
      }
      var recs := NodesOf(tx.latest, run);
      var unfinished := exists k | k in recs :: !Terminal(recs[k].status);
      if status != RunRecoveryRequired && unfinished {
        return Err(Workflow("UNFINISHED_RUN"));
      }
      var closed := tx.latest.runs[run].(status := status, endedAt := Some(now));
      tx.Put(RunFinished, RunPayload(closed));
      log := log + tx.pending;
      return Ok(closed);
    }

    method Reconcile(run: RunId, workersStopped: bool, reasoned: bool, now: real) returns (r: Outcome<RunRecord>)
      requires Valid()
      modifies this
      ensures Valid()
      ensures var d := Decide(old(Projection()), Command.Reconcile(run, workersStopped, reasoned), now);
              && Transition(old(log), d, log)
              && (r.Ok? <==> d.Ok?) && (r.Err? ==> r.error == d.error)
    {
      if !workersStopped || !reasoned {
        return Err(Workflow("RECONCILIATION_REQUIRED"));
      }
      var tx := Open();
      if run !in tx.latest.runs || !Model.Open(tx.latest.runs[run].status) {
        return Err(Workflow("INVALID_RECONCILIATION"));
      }
      var recs, record := NodesOf(tx.latest, run), tx.latest.runs[run];
      var closing := ClosedByReconcile(record, now);
      tx.PutReconciliation(recs, record.plan, closing, now);
      log := log + tx.pending;
      return Ok(closing.payload.run);
    }
  }

  lemma StampConcat(from: nat, a: seq<Entry>, b: seq<Entry>)
    ensures Stamp(from, a + b) == Stamp(from, a) + Stamp(from + |a|, b)
  {
  }
}
