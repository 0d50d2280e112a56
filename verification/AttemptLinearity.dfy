/** Attempts of a node are linear: one claim, one finish, and no effect of a superseded context. */
module AttemptLinearity {
  import opened Model
  import opened ControlLog
  import opened StoreInvariants
  import opened StoreHistory

  // ----- Attempts and claim tokens only grow -----

  predicate Grows(r: NodeRecord, r': NodeRecord) {
    && r.attempt <= r'.attempt
    && (r.attempt == r'.attempt ==> r'.claim == r.claim)
    && (r.attempt < r'.attempt ==>
          r'.claim.Some? && (r.claim.Some? ==> r.claim.value < r'.claim.value))
  }

  ghost predicate AllGrow(t: Tables, t': Tables) {
    forall run, k | run in t.nodes && k in t.nodes[run] ::
      run in t'.nodes && k in t'.nodes[run] && Grows(t.nodes[run][k], t'.nodes[run][k])
  }

  /** `prepare` alone opens a new attempt, and opens exactly one. */
  lemma MoveGrows(t: Tables, c: Command, now: real) returns (kind: EventType, r: NodeRecord)
    requires StoreOk(t) && OnNode(c)
    requires Decide(t, c, now).Ok? && Decide(t, c, now).value != []
    ensures var run, k := TargetRun(c), TargetNode(c);
            && run in t.nodes && k in t.nodes[run]
            && After(t, c, now) == WithNodes(t, run, t.nodes[run][k := r], 1)
            && Grows(t.nodes[run][k], r)
            && r.attempt == t.nodes[run][k].attempt + (if c.Prepare? then 1 else 0)
  {
    hide StoreOk, Provenance, Carrying, Settled, RunOk, Chained, Link;
    kind, r := NodeStep(t, c, now);
  }

  lemma OneRecordGrows(t: Tables, t': Tables, run: RunId, k: NodeId, r: NodeRecord)
    requires run in t.nodes && k in t.nodes[run] && Grows(t.nodes[run][k], r)
    requires t' == WithNodes(t, run, t.nodes[run][k := r], 1)
    ensures AllGrow(t, t')
  {
  }

  lemma StepGrows(t: Tables, c: Command, now: real)
    requires StoreOk(t)
    ensures AllGrow(t, After(t, c, now))
  {
    if Decide(t, c, now).Ok? && Decide(t, c, now).value != [] {
      if OnNode(c) {
        var _, r := MoveGrows(t, c, now);
        OneRecordGrows(t, After(t, c, now), TargetRun(c), TargetNode(c), r);
      } else if c.Begin? {
        BeginGrows(t, c, now);
      } else if c.Reconcile? {
        ReconcileGrows(t, c, now);
      } else {
        OneEntryKeepsNodes(t, c, now);
      }
    }
  }

  lemma BeginGrows(t: Tables, c: Command, now: real)
    requires StoreOk(t) && c.Begin? && Decide(t, c, now).Ok?
    ensures AllGrow(t, After(t, c, now))
  {
    hide StoreOk, Decide, After;
    var _ := BegunRun(t, c, now);
  }

  lemma ReconcileGrows(t: Tables, c: Command, now: real)
    requires StoreOk(t) && c.Reconcile? && Decide(t, c, now).Ok?
    ensures AllGrow(t, After(t, c, now))
  {
    hide StoreOk, Decide, After;
    ReconciledRun(t, c, now);
  }

  lemma OneEntryKeepsNodes(t: Tables, c: Command, now: real)
    requires StoreOk(t) && (c.FinishRun? || c.PutOutbox?)
    ensures After(t, c, now).nodes == t.nodes
  {
    if Decide(t, c, now).Ok? {
      var es := Decide(t, c, now).value;
      if es != [] {
        assert es == [es[0]];
        EvolveOne(t, es[0]);
        if c.FinishRun? {
          assert RunOk(t, c.run);
        }
      }
    }
  }

  lemma {:induction false} ExecGrows(log: seq<Event>, calls: seq<Call>)
    requires Numbered(log) && StoreOk(Fold(log)) && Lawful(log, calls)
    ensures AllGrow(Fold(log), Fold(Exec(log, calls)))
  {
    if calls != [] {
      var init, call := calls[..|calls| - 1], calls[|calls| - 1];
      ExecGrows(log, init);
      ReachableOk(log, init);
      StepFold(Exec(log, init), call);
      StepGrows(Fold(Exec(log, init)), call.command, call.now);
    }
  }

  predicate Uses(c: Command, ctx: Context) {
    (c.Claim? || c.Finish? || c.Remote? || c.PutOutbox?) && c.ctx == ctx
  }

  /** A context that once held a node's record is powerless after a newer attempt was prepared, or
      after its run left RUNNING: every call with it raises and appends nothing. */
  lemma SupersededContextIsPowerless(
    log: seq<Event>, calls: seq<Call>, ctx: Context, c: Command, now: real
  )
    requires Numbered(log) && StoreOk(Fold(log)) && Lawful(log, calls)
    requires ctx.nodeId in NodesOf(Fold(log), ctx.runId)
    requires Holds(NodesOf(Fold(log), ctx.runId)[ctx.nodeId], ctx)
    requires Uses(c, ctx)
    requires var t' := Fold(Exec(log, calls));
             || (ctx.nodeId in NodesOf(t', ctx.runId) && NodesOf(t', ctx.runId)[ctx.nodeId].attempt > ctx.attempt)
             || !Runs(t', ctx.runId, None)
    ensures Decide(Fold(Exec(log, calls)), c, now)
         == Err(if c.PutOutbox? && !ValidOperation(c.operation) then INVALID_OPERATION else CLAIM_COLLISION)
  {
    ExecGrows(log, calls);
    var t, t' := Fold(log), Fold(Exec(log, calls));
    assert Grows(t.nodes[ctx.runId][ctx.nodeId], t'.nodes[ctx.runId][ctx.nodeId]);
  }

  /** Within one attempt, a terminal record is final for its own worker: no call can change its
      status, outputs or checkpoint, nor write the outbox. (`record_remote` may still store a
      remote run id.) */
  lemma TerminalIsFinalForItsWorker(t: Tables, ctx: Context, c: Command, now: real)
    requires StoreOk(t) && Uses(c, ctx)
    requires ctx.nodeId in NodesOf(t, ctx.runId) && Terminal(NodesOf(t, ctx.runId)[ctx.nodeId].status)
    ensures var t' := After(t, c, now);
            && t'.outbox == t.outbox && t'.runs == t.runs
            && ctx.nodeId in NodesOf(t', ctx.runId)
            && var r, r' := t.nodes[ctx.runId][ctx.nodeId], t'.nodes[ctx.runId][ctx.nodeId];
            && r' == r.(remote := r'.remote)
            && (t' != t ==> c.Remote? && Decide(t, c, now).Ok?)
  {
    if c.Remote? && Decide(t, c, now).Ok? {
      var _, _ := NodeStep(t, c, now);
    }
  }

  // ----- At most one claim and one finish per attempt -----

  predicate Matches(e: Entry, kind: EventType, run: RunId, node: NodeId, attempt: nat) {
    && e.kind == kind
    && e.payload.NodePayload?
    && e.payload.node.common.runId == run
    && e.payload.node.nodeId == node
    && e.payload.node.attempt == attempt
  }

  function Count(log: seq<Event>, kind: EventType, run: RunId, node: NodeId, attempt: nat): nat {
    if log == [] then 0
    else Count(log[..|log| - 1], kind, run, node, attempt) +
         if Matches(log[|log| - 1].entry, kind, run, node, attempt) then 1 else 0
  }

  lemma {:induction false} CountCommit(
    log: seq<Event>, es: seq<Entry>, kind: EventType, run: RunId, node: NodeId, attempt: nat
  )
    requires forall e | e in es :: !Matches(e, kind, run, node, attempt)
    ensures Count(Commit(log, es), kind, run, node, attempt) == Count(log, kind, run, node, attempt)
  {
    if es == [] {
      assert Commit(log, es) == log;
    } else {
      var init := es[..|es| - 1];
      CountCommit(log, init, kind, run, node, attempt);
      assert Commit(log, es)[..|log| + |init|] == Commit(log, init);
    }
  }

  lemma CountOne(log: seq<Event>, e: Entry, kind: EventType, run: RunId, node: NodeId, attempt: nat)
    ensures Count(Commit(log, [e]), kind, run, node, attempt)
         == Count(log, kind, run, node, attempt) + if Matches(e, kind, run, node, attempt) then 1 else 0
  {
    assert Commit(log, [e])[..|log|] == log;
  }

  /** What the log holds of attempt `a`, given the node's current record (if any). */
  ghost predicate Tally(log: seq<Event>, recs: map<NodeId, NodeRecord>, run: RunId, k: NodeId, a: nat) {
    var claims := Count(log, AttemptClaimed, run, k, a);
    var finishes := Count(log, AttemptFinished, run, k, a);
    if k !in recs || a > recs[k].attempt then claims == 0 && finishes == 0
    else if a < recs[k].attempt then claims <= 1 && finishes <= 1
    else if recs[k].status.Pending? || recs[k].status.Ready? then claims == 0 && finishes == 0
    else if recs[k].status.Running? then claims <= 1 && finishes == 0
    else claims <= 1 && finishes <= 1
  }

  ghost predicate Tallied(log: seq<Event>) {
    forall run, k, a: nat :: Tally(log, NodesOf(Fold(log), run), run, k, a)
  }

  /** Neither a claim nor a finish. */
  lemma QuietKeeps(log: seq<Event>, es: seq<Entry>, run: RunId, k: NodeId, a: nat)
    requires forall e | e in es :: !e.kind.AttemptClaimed? && !e.kind.AttemptFinished?
    ensures Count(Commit(log, es), AttemptClaimed, run, k, a) == Count(log, AttemptClaimed, run, k, a)
    ensures Count(Commit(log, es), AttemptFinished, run, k, a) == Count(log, AttemptFinished, run, k, a)
  {
    CountCommit(log, es, AttemptClaimed, run, k, a);
    CountCommit(log, es, AttemptFinished, run, k, a);
  }

  /** How the event kind of a record change relates the two statuses. */
  predicate Traced(kind: EventType, r: NodeRecord, r': NodeRecord) {
    match kind
    case AttemptClaimed => r.status.Ready? && r'.status.Running? && r'.attempt == r.attempt
    case AttemptFinished => !Terminal(r.status) && Terminal(r'.status) && r'.attempt == r.attempt
    case _ =>
      || (r'.attempt == r.attempt + 1 && r'.status.Ready?)
      || (r'.attempt == r.attempt && (r'.status == r.status || Terminal(r'.status)))
  }

  lemma MoveTraced(t: Tables, c: Command, now: real) returns (kind: EventType, r: NodeRecord)
    requires StoreOk(t) && OnNode(c) && Conventional(t, c)
    requires Decide(t, c, now).Ok? && Decide(t, c, now).value != []
    ensures Decide(t, c, now).value == [Entry(kind, NodePayload(r))]
    ensures var run, k := TargetRun(c), TargetNode(c);
            && run in t.nodes && k in t.nodes[run] && r.common.runId == run && r.nodeId == k
            && After(t, c, now).nodes == t.nodes[run := t.nodes[run][k := r]]
            && Traced(kind, t.nodes[run][k], r)
  {
    hide StoreOk, Provenance, Carrying, Settled, RunOk, Chained, Link;
    kind, r := NodeStep(t, c, now);
  }

  lemma NodeStepTallies(log: seq<Event>, c: Command, now: real, run: RunId, k: NodeId, a: nat)
    requires StoreOk(Fold(log)) && OnNode(c) && Conventional(Fold(log), c)
    requires Decide(Fold(log), c, now).Ok?
    requires Tally(log, NodesOf(Fold(log), run), run, k, a)
    ensures Tally(Step(log, Call(c, now)), NodesOf(After(Fold(log), c, now), run), run, k, a)
  {
    hide StoreOk, Decide, Fold, Traced;
    var t := Fold(log);
    var es := Decide(t, c, now).value;
    if es == [] {
      assert Commit(log, es) == log;
    } else {
      var kind, r := MoveTraced(t, c, now);
      TracedTallies(log, t.nodes[TargetRun(c)], Entry(kind, NodePayload(r)), run, k, a);
    }
  }

  lemma TracedTallies(log: seq<Event>, recs: map<NodeId, NodeRecord>, e: Entry, run: RunId, k: NodeId, a: nat)
    requires e.payload.NodePayload? && e.payload.node.nodeId in recs
    requires Traced(e.kind, recs[e.payload.node.nodeId], e.payload.node)
    requires e.payload.node.common.runId == run ==> Tally(log, recs, run, k, a)
    ensures e.payload.node.common.runId == run ==>
              Tally(Commit(log, [e]), recs[e.payload.node.nodeId := e.payload.node], run, k, a)
    ensures e.payload.node.common.runId != run || e.payload.node.nodeId != k ==>
              && Count(Commit(log, [e]), AttemptClaimed, run, k, a) == Count(log, AttemptClaimed, run, k, a)
              && Count(Commit(log, [e]), AttemptFinished, run, k, a) == Count(log, AttemptFinished, run, k, a)
  {
    CountOne(log, e, AttemptClaimed, run, k, a);
    CountOne(log, e, AttemptFinished, run, k, a);
  }

  lemma {:induction false} ReconcileIsQuiet(recs: map<NodeId, NodeRecord>, keys: seq<NodeId>, now: real)
    ensures forall e | e in ReconcileEntries(recs, keys, now) :: e.kind.AttemptReconciled?
  {
    if keys != [] {
      ReconcileIsQuiet(recs, keys[..|keys| - 1], now);
    }
  }

  lemma OtherStepTallies(log: seq<Event>, c: Command, now: real, run: RunId, k: NodeId, a: nat)
    requires StoreOk(Fold(log)) && !OnNode(c)
    requires Decide(Fold(log), c, now).Ok?
    requires Tally(log, NodesOf(Fold(log), run), run, k, a)
    ensures Tally(Step(log, Call(c, now)), NodesOf(After(Fold(log), c, now), run), run, k, a)
  {
    var t := Fold(log);
    QuietStep(t, c, now);
    QuietKeeps(log, Decide(t, c, now).value, run, k, a);
    if c.Begin? {
      BeginTallies(log, c, now, run, k, a);
    } else if c.Reconcile? {
      ReconcileTallies(log, c, now, run, k, a);
    } else {
      OneEntryKeepsNodes(t, c, now);
    }
  }

  lemma QuietStep(t: Tables, c: Command, now: real)
    requires StoreOk(t) && !OnNode(c) && Decide(t, c, now).Ok?
    ensures forall e | e in Decide(t, c, now).value :: !e.kind.AttemptClaimed? && !e.kind.AttemptFinished?
  {
    if c.Reconcile? {
      ReconcileIsQuiet(NodesOf(t, c.run), t.runs[c.run].plan, now);
    }
  }

  lemma BeginTallies(log: seq<Event>, c: Command, now: real, run: RunId, k: NodeId, a: nat)
    requires StoreOk(Fold(log)) && c.Begin? && Decide(Fold(log), c, now).Ok?
    requires Tally(log, NodesOf(Fold(log), run), run, k, a)
    ensures Tally(log, NodesOf(After(Fold(log), c, now), run), run, k, a)
  {
    hide StoreOk, Decide, After, Fold;
    var _ := BegunRun(Fold(log), c, now);
  }

  lemma ReconcileTallies(log: seq<Event>, c: Command, now: real, run: RunId, k: NodeId, a: nat)
    requires StoreOk(Fold(log)) && c.Reconcile? && Decide(Fold(log), c, now).Ok?
    requires Tally(log, NodesOf(Fold(log), run), run, k, a)
    ensures Tally(log, NodesOf(After(Fold(log), c, now), run), run, k, a)
  {
    hide StoreOk, Decide, After, Fold;
    ReconciledRun(Fold(log), c, now);
  }

  lemma {:induction false} ReachableTallied(calls: seq<Call>)
    requires Lawful([], calls)
    ensures Tallied(Exec([], calls))
  {
    if calls != [] {
      var init, call := calls[..|calls| - 1], calls[|calls| - 1];
      ReachableTallied(init);
      ReachableOk([], init);
      var log := Exec([], init);
      StepFold(log, call);
      forall run, k, a: nat
        ensures Tally(Step(log, call), NodesOf(Fold(Step(log, call)), run), run, k, a)
      {
        assert Tally(log, NodesOf(Fold(log), run), run, k, a);
        if Decide(Fold(log), call.command, call.now).Ok? {
          if OnNode(call.command) {
            NodeStepTallies(log, call.command, call.now, run, k, a);
          } else {
            OtherStepTallies(log, call.command, call.now, run, k, a);
          }
        }
      }
    }
  }

  /** Under any interleaving, each attempt of each node is claimed at most once and finished at most once. */
  lemma AttemptsAreLinear(calls: seq<Call>, run: RunId, k: NodeId, a: nat)
    requires Lawful([], calls)
    ensures Count(Exec([], calls), AttemptClaimed, run, k, a) <= 1
    ensures Count(Exec([], calls), AttemptFinished, run, k, a) <= 1
  {
    ReachableTallied(calls);
    assert Tally(Exec([], calls), NodesOf(Fold(Exec([], calls)), run), run, k, a);
  }
}
