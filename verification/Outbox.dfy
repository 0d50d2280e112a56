/** Outbox intents: committed once per business operation, never re-addressed to other content. */
module Outbox {
  import opened Model
  import opened ControlLog
  import opened StoreHistory

  /** The outbox case of `validate`: the intent exists and carries the receipt's digest. */
  predicate ReceiptValid(t: Tables, r: Reference) {
    && r.Receipt?
    && r.effect in t.outbox
    && t.outbox[r.effect].payloadDigest == r.digest
  }

  /** What `put_outbox` returns when it does not raise. */
  function ReceiptOf(c: Command): Reference
    requires c.PutOutbox?
  {
    Receipt(EffectId(c.ctx.nodeId, c.operation), c.digest)
  }

  function Commits(log: seq<Event>, effect: EffectId): nat {
    if log == [] then 0
    else
      var e := log[|log| - 1].entry;
      Commits(log[..|log| - 1], effect) +
      if e.kind.OutboxCommitted? && e.payload.OutboxPayload? && e.payload.outbox.effect == effect then 1 else 0
  }

  lemma {:induction false} CommitsAppend(log: seq<Event>, es: seq<Entry>, effect: EffectId)
    requires forall e | e in es :: !e.kind.OutboxCommitted?
    ensures Commits(Commit(log, es), effect) == Commits(log, effect)
  {
    if es == [] {
      assert Commit(log, es) == log;
    } else {
      var init := es[..|es| - 1];
      CommitsAppend(log, init, effect);
      assert Commit(log, es)[..|log| + |init|] == Commit(log, init);
    }
  }

  ghost predicate Filed(t: Tables) {
    forall e | e in t.outbox :: t.outbox[e].effect == e
  }

  /** No call drops an intent or changes its payload digest. */
  ghost predicate EffectsKept(t: Tables, t': Tables) {
    forall e | e in t.outbox :: e in t'.outbox && t'.outbox[e].payloadDigest == t.outbox[e].payloadDigest
  }

  lemma {:induction false} NodeEntriesKeepOutbox(t: Tables, es: seq<Entry>)
    requires forall e | e in es :: !e.payload.OutboxPayload?
    ensures EvolveAll(t, es).outbox == t.outbox
  {
    if es != [] {
      NodeEntriesKeepOutbox(t, es[..|es| - 1]);
    }
  }

  lemma {:induction false} ReconcileEntriesAreNodes(recs: map<NodeId, NodeRecord>, keys: seq<NodeId>, now: real)
    ensures forall e | e in ReconcileEntries(recs, keys, now) :: e.payload.NodePayload? && !e.kind.OutboxCommitted?
  {
    if keys != [] {
      ReconcileEntriesAreNodes(recs, keys[..|keys| - 1], now);
    }
  }

  lemma OtherCallsKeepOutbox(t: Tables, c: Command, now: real)
    requires !c.PutOutbox? && Decide(t, c, now).Ok?
    ensures After(t, c, now).outbox == t.outbox
    ensures forall e | e in Decide(t, c, now).value :: !e.kind.OutboxCommitted?
  {
    var es := Decide(t, c, now).value;
    if c.Reconcile? {
      ReconcileEntriesAreNodes(NodesOf(t, c.run), t.runs[c.run].plan, now);
    }
    NodeEntriesKeepOutbox(t, es);
  }

  lemma OutboxStep(t: Tables, c: Command, now: real)
    requires Filed(t) && c.PutOutbox? && Decide(t, c, now).Ok?
    ensures var t', effect := After(t, c, now), EffectId(c.ctx.nodeId, c.operation);
            && Filed(t')
            && effect in t'.outbox && t'.outbox[effect].payloadDigest == c.digest
            && t'.outbox == t.outbox[effect := t'.outbox[effect]]
            && (t'.outbox[effect].reference == c.reference || (effect in t.outbox && t'.outbox == t.outbox))
            && (Decide(t, c, now).value == [] ==> t' == t && effect in t.outbox)
            && (Decide(t, c, now).value != [] ==>
                  && |Decide(t, c, now).value| == 1
                  && Decide(t, c, now).value[0].payload.OutboxPayload?
                  && Decide(t, c, now).value[0].payload.outbox.effect == effect
                  && (Decide(t, c, now).value[0].kind.OutboxCommitted? <==> effect !in t.outbox))
  {
    var es := Decide(t, c, now).value;
    if es != [] {
      assert es == [es[0]];
      EvolveOne(t, es[0]);
    }
  }

  lemma StepKeepsEffects(t: Tables, c: Command, now: real)
    requires Filed(t)
    ensures Filed(After(t, c, now)) && EffectsKept(t, After(t, c, now))
  {
    if Decide(t, c, now).Ok? {
      if c.PutOutbox? {
        OutboxStep(t, c, now);
        assert EffectId(c.ctx.nodeId, c.operation) in t.outbox ==>
                 t.outbox[EffectId(c.ctx.nodeId, c.operation)].payloadDigest == c.digest;
      } else {
        OtherCallsKeepOutbox(t, c, now);
      }
    }
  }

  lemma {:induction false} EffectsArePermanent(log: seq<Event>, calls: seq<Call>)
    requires Filed(Fold(log))
    ensures Filed(Fold(Exec(log, calls))) && EffectsKept(Fold(log), Fold(Exec(log, calls)))
  {
    if calls != [] {
      var init, call := calls[..|calls| - 1], calls[|calls| - 1];
      EffectsArePermanent(log, init);
      StepFold(Exec(log, init), call);
      StepKeepsEffects(Fold(Exec(log, init)), call.command, call.now);
    }
  }

  /** A receipt that `put_outbox` returned keeps validating, whatever happens later. */
  lemma ReceiptsStayValid(log: seq<Event>, c: Command, now: real, calls: seq<Call>)
    requires Filed(Fold(log))
    requires c.PutOutbox? && Decide(Fold(log), c, now).Ok?
    ensures ReceiptValid(Fold(Exec(Step(log, Call(c, now)), calls)), ReceiptOf(c))
  {
    StepFold(log, Call(c, now));
    OutboxStep(Fold(log), c, now);
    EffectsArePermanent(Step(log, Call(c, now)), calls);
  }

  /** Right after a call only the receipt with its digest validates; an artifact never does, nor a receipt for an
      intent that was never committed. */
  lemma ReceiptsValidateExactly(t: Tables, c: Command, now: real, digest: string)
    requires Filed(t) && c.PutOutbox? && Decide(t, c, now).Ok?
    ensures ReceiptValid(After(t, c, now), Receipt(EffectId(c.ctx.nodeId, c.operation), digest)) <==> digest == c.digest
    ensures forall effect | effect !in t.outbox :: !ReceiptValid(t, Receipt(effect, digest))
    ensures forall path, rows, schema :: !ReceiptValid(t, Artifact(path, digest, rows, schema))
  {
    OutboxStep(t, c, now);
  }

  /** Over all runs, retries and repeated calls, an operation has one OUTBOX_COMMITTED event or none. */
  lemma {:induction false} IntentIsCommittedOnce(calls: seq<Call>, effect: EffectId)
    ensures var log := Exec([], calls);
            Commits(log, effect) == if effect in Fold(log).outbox then 1 else 0
  {
    if calls != [] {
      var init, call := calls[..|calls| - 1], calls[|calls| - 1];
      IntentIsCommittedOnce(init, effect);
      EffectsArePermanent([], init);
      StepCommits(Exec([], init), call.command, call.now, effect);
    }
  }

  lemma StepCommits(log: seq<Event>, c: Command, now: real, effect: EffectId)
    requires Filed(Fold(log)) && Commits(log, effect) == if effect in Fold(log).outbox then 1 else 0
    ensures var log' := Step(log, Call(c, now));
            Commits(log', effect) == if effect in Fold(log').outbox then 1 else 0
  {
    StepFold(log, Call(c, now));
    if Decide(Fold(log), c, now).Ok? {
      var es := Decide(Fold(log), c, now).value;
      if c.PutOutbox? && es != [] {
        OutboxStep(Fold(log), c, now);
        assert Commit(log, es)[..|log|] == log;
      } else {
        if c.PutOutbox? {
          OutboxStep(Fold(log), c, now);
        } else {
          OtherCallsKeepOutbox(Fold(log), c, now);
        }
        CommitsAppend(log, es, effect);
      }
    }
  }

  /** Callers that, like `request_receipts`, pass a reference with the digest they declare. */
  ghost predicate Addressed(calls: seq<Call>, effect: EffectId) {
    forall i | 0 <= i < |calls| ::
      var c := calls[i].command;
      c.PutOutbox? && EffectId(c.ctx.nodeId, c.operation) == effect ==> c.reference.digest == c.digest
  }

  /** However often the reference is refreshed, the stored one carries the committed digest. */
  lemma {:induction false} ReferenceCarriesDigest(calls: seq<Call>, effect: EffectId)
    requires Addressed(calls, effect)
    ensures var t := Fold(Exec([], calls));
            effect in t.outbox ==> t.outbox[effect].reference.digest == t.outbox[effect].payloadDigest
  {
    if calls != [] {
      var init, call := calls[..|calls| - 1], calls[|calls| - 1];
      ReferenceCarriesDigest(init, effect);
      EffectsArePermanent([], init);
      StepFold(Exec([], init), call);
      var t, c := Fold(Exec([], init)), call.command;
      if Decide(t, c, call.now).Ok? {
        if c.PutOutbox? {
          assert calls[|calls| - 1].command == c;
          OutboxStep(t, c, call.now);
        } else {
          OtherCallsKeepOutbox(t, c, call.now);
        }
      }
    }
  }
}
