/** The rules that the configuration states for its nodes, in the terms of statuses and settings alone: what the
    committed records of every run obey, and when the scheduler's own tests hold. */
module Rules {
  import opened Model
  import opened ControlLog
  import opened StoreInvariants
  import opened Parameters
  import opened Board
  import opened Planning
  import opened Recovery

  // ----- Triggers and conditions -----

  /** The trigger of a node with these dependencies is met by their final statuses. */
  ghost predicate Met(kind: TriggerKind, deps: seq<NodeId>, s: map<NodeId, Status>) {
    && (forall d | d in deps :: d in s)
    && match kind
       case AllSuccess => forall d | d in deps :: s[d] in {Succeeded, SkippedAlreadySatisfied}
       case AnySuccess => exists d | d in deps :: s[d] in {Succeeded, SkippedAlreadySatisfied}
       case AllDone => true
       case AnyFailed => exists d | d in deps :: s[d] in {Failed, TimedOut, Blocked}
       case AnyTimedOut => exists d | d in deps :: s[d] == TimedOut
  }

  /** A dependency of a node on the success path went bad. */
  ghost predicate Stopped(kind: TriggerKind, deps: seq<NodeId>, s: map<NodeId, Status>) {
    && kind in {AllSuccess, AnySuccess}
    && exists d | d in deps :: d in s && s[d] in {Failed, TimedOut, Blocked, Cancelled}
  }

  /** The resolved parameters have a value other than the one that the node's condition asks for. */
  ghost predicate ConditionDenied(job: Job, recs: Records, k: NodeId)
    requires k in job.cfg.nodes
  {
    && job.cfg.nodes[k].condition.Some?
    && var condition, parameters := job.cfg.nodes[k].condition.value, ParametersOf(job, k, 1, recs);
    && parameters.Some? && parameters.value.Object? && condition.parameter in parameters.value.fields
    && parameters.value.fields[condition.parameter] != condition.equals
  }

  /** In every run, whatever happened: what was attempted or reused had its trigger met and its condition not
      denied; what is BLOCKED had its trigger not met, on the success path, with a dependency gone bad; and what
      is SKIPPED_CONDITION either had its trigger not met otherwise, or its condition denied. */
  lemma RecordsObeyTriggers(job: Job, b: Board, k: NodeId)
    requires Inv(job, b) && k in b.recs
    ensures k in job.cfg.nodes
    ensures var node, r := job.cfg.nodes[k], b.recs[k];
            var met := Met(node.trigger, node.dependencies, r.dependencyStatus);
            var stopped := Stopped(node.trigger, node.dependencies, r.dependencyStatus);
            match r.status
            case Ready => met && !ConditionDenied(job, b.recs, k)
            case Running => met && !ConditionDenied(job, b.recs, k)
            case Succeeded => met && !ConditionDenied(job, b.recs, k)
            case Failed => met && !ConditionDenied(job, b.recs, k)
            case TimedOut => met && !ConditionDenied(job, b.recs, k)
            case SkippedAlreadySatisfied => met && !ConditionDenied(job, b.recs, k)
            case Blocked => !met && stopped
            case SkippedCondition => if met then ConditionDenied(job, b.recs, k) else !stopped
            case Pending => true
            case Cancelled => true
  {
    hide Inv, Met, Stopped, ConditionDenied, Proven, ContextHolds, Shape, VerdictOf;
    RecordIsRuled(job, b, k);
    if Decided(b.recs[k]) {
      RecordedStatuses(job, b, k);
      VerdictObeys(job, b.recs, k);
    }
  }

  lemma RecordedStatuses(job: Job, b: Board, k: NodeId)
    requires Inv(job, b) && k in b.recs && Decided(b.recs[k])
    ensures k in job.cfg.nodes && b.recs[k].dependencyStatus == Statuses(b.recs, job.cfg.nodes[k].dependencies)
    ensures forall d | d in job.cfg.nodes[k].dependencies :: d in b.recs
  {
    hide Ruled, Proven, ContextHolds, Shape;
    assert NodeInv(job, b, k);
    forall d | d in job.cfg.nodes[k].dependencies ensures d in b.recs {
      assert Final(job, b, d);
    }
  }

  lemma VerdictObeys(job: Job, recs: Records, k: NodeId)
    requires k in job.cfg.nodes && forall d | d in job.cfg.nodes[k].dependencies :: d in recs
    ensures var node := job.cfg.nodes[k];
            var s := Statuses(recs, node.dependencies);
            match VerdictOf(job, recs, k)
            case Fires => Met(node.trigger, node.dependencies, s) && !ConditionDenied(job, recs, k)
            case Skips(Blocked) =>
              !Met(node.trigger, node.dependencies, s) && Stopped(node.trigger, node.dependencies, s)
            case Skips(SkippedCondition) =>
              if Met(node.trigger, node.dependencies, s) then ConditionDenied(job, recs, k)
              else !Stopped(node.trigger, node.dependencies, s)
            case _ => true
  {
    hide Resolve, RuntimeOf;
    var node := job.cfg.nodes[k];
    var s := Statuses(recs, node.dependencies);
    forall d | d in node.dependencies
      ensures Success(s[d]) <==> s[d] in {Succeeded, SkippedAlreadySatisfied}
      ensures Bad(s[d]) <==> s[d] in {Failed, TimedOut, Blocked, Cancelled}
    {
    }
  }

  // ----- Retries -----

  /** An attempt is repeated in the same run exactly when it failed or timed out for certain, with an error that may
      be retried and is of a category that the node retries, within the node's budget, and when repeating the node
      is safe and allowed. */
  lemma RetriesExactly(t: Tables, run: RunId, k: NodeId, node: NodeDef)
    requires StoreOk(t) && run in t.runs && k in NodesOf(t, run)
    ensures var r := NodesOf(t, run)[k];
            Retryable(node, r) <==>
              && r.status in {Failed, TimedOut} && !r.uncertain
              && r.error.Some? && r.error.value.retryable && r.error.value.category in node.retry.categories
              && r.attempt <= node.retry.maxRetries
              && node.strategy in {Natural, Overwrite, Merge, Deduplicate, CheckpointReuse} && node.eligible
  {
    hide Provenance, Carrying, Chained;
    assert RunOk(t, run);
    assert RecordOk(t, run, k, t.nodes[run][k]);
  }

  /** The delay before the second attempt is the configured one, and each further delay is the previous one times
      the backoff; none is longer than the ceiling. */
  lemma BackoffGrows(retry: Retry, attempt: nat)
    requires attempt >= 1 && retry.backoff >= 1.0 && retry.delay >= 0.0 && retry.maxDelay >= 0.0
    ensures Backoff(retry, 1) == if retry.delay <= retry.maxDelay then retry.delay else retry.maxDelay
    ensures var next := retry.backoff * Backoff(retry, attempt);
            Backoff(retry, attempt + 1) == if next <= retry.maxDelay then next else retry.maxDelay
  {
    assert Power(retry.backoff, 0) == 1.0;
    var wait := retry.delay * Power(retry.backoff, attempt - 1);
    assert Power(retry.backoff, attempt) == retry.backoff * Power(retry.backoff, attempt - 1);
    Reorder(retry.delay, retry.backoff, Power(retry.backoff, attempt - 1));
    if wait >= retry.maxDelay {
      Scaled(retry.backoff, wait);
      Scaled(retry.backoff, retry.maxDelay);
    }
  }

  lemma Reorder(a: real, b: real, c: real)
    ensures a * (b * c) == b * (a * c)
  {
  }

  lemma Scaled(factor: real, x: real)
    requires factor >= 1.0 && x >= 0.0
    ensures factor * x >= x
  {
  }

  // ----- Fail-fast -----

  /** Fail-fast sets in once a critical node that is not in flight has ended badly and will not be retried. */
  lemma FailsFastExactly(job: Job, records: Records, active: map<NodeId, Context>)
    ensures FailingFast(job, records, active) <==>
            && job.cfg.failFast
            && exists k | k in records && k in job.cfg.nodes && k !in active ::
                 && records[k].critical && records[k].status in {Failed, TimedOut, Blocked, Cancelled}
                 && !Retryable(job.cfg.nodes[k], records[k])
    ensures forall node :: SuccessPath(node) <==> node.trigger in {AllSuccess, AnySuccess}
  {
    forall k | k in records
      ensures Bad(records[k].status) <==> records[k].status in {Failed, TimedOut, Blocked, Cancelled}
    {
    }
  }

  // ----- Repeating a node in a recovery run -----

  /** In a recovery run a node that some run has attempted is repeated only if it is eligible, and, when repeating
      it is not safe, only with approval; and a compensated node only once its companion has succeeded in the
      parent run, with the outputs that it declares, found valid. */
  lemma RepeatsExactly(
    w: World, m: nat, n: nat, job: Job, attempted: set<NodeId>, approved: set<NodeId>, k: NodeId
  )
    requires k in job.cfg.nodes
    ensures var node := job.cfg.nodes[k];
            Allowed(w, m, n, job, attempted, approved, k) <==>
              || job.mode == Normal || k !in attempted
              || (&& node.eligible
                  && (node.strategy in {Compensation, Manual} ==> k in approved)
                  && (node.strategy == Compensation ==>
                        && node.compensationNode in job.previous && node.compensationNode in job.cfg.nodes
                        && var companion := job.previous[node.compensationNode];
                        && companion.status in {Succeeded, SkippedAlreadySatisfied}
                        && companion.outputs.Keys == job.cfg.nodes[node.compensationNode].expectedOutputs
                        && exists i: nat | m <= i < n :: w.valid(i, companion.outputs) == Ok(true)))
  {
  }

  // ----- What a recovery run may not reuse at its start -----

  /** Nothing, in a first run; everything, in a forced rerun; otherwise what did not succeed in the parent run, and
      the node from which a restart is forced. */
  lemma SeedsExactly(cfg: Config, previous: Records, mode: Mode, origin: Option<NodeId>, k: NodeId)
    ensures k in Seeds(cfg, previous, mode, origin) <==>
            match mode
            case Normal => k in previous && previous[k].status !in {Succeeded, SkippedAlreadySatisfied}
            case Resume => k in previous && previous[k].status !in {Succeeded, SkippedAlreadySatisfied}
            case ForceRestart =>
              (k in previous && previous[k].status !in {Succeeded, SkippedAlreadySatisfied}) || origin == Some(k)
            case ForceRerun => k in cfg.nodes
  {
    if k in previous {
      assert Success(previous[k].status) <==> previous[k].status in {Succeeded, SkippedAlreadySatisfied};
    }
  }

  // ----- Fingerprints -----

  /** The settings of a node and its configuration that may change the node's result: application, DAG,
      environment, code, storage settings and notebook definition, and the node's identity, notebook, parameters,
      outputs, idempotency, checkpoint, trigger and condition. */
  ghost predicate SameSettings(cfg: Config, node: NodeDef, cfg': Config, node': NodeDef) {
    && cfg.applicationId == cfg'.applicationId && cfg.dagId == cfg'.dagId && cfg.environment == cfg'.environment
    && cfg.codeFingerprint == cfg'.codeFingerprint && cfg.codeVersion == cfg'.codeVersion
    && cfg.settings == cfg'.settings && Definition(cfg, node) == Definition(cfg', node')
    && node.id == node'.id && node.notebook == node'.notebook && node.parameters == node'.parameters
    && node.expectedOutputs == node'.expectedOutputs && node.strategy == node'.strategy
    && node.compensationNode == node'.compensationNode && node.checkpointName == node'.checkpointName
    && node.trigger == node'.trigger && node.condition == node'.condition
  }

  /** The same dependencies have records, and these offer the same. */
  ghost predicate SameOffers(recs: Records, deps: seq<NodeId>, recs': Records, deps': seq<NodeId>) {
    && (forall d :: Offered(recs, deps, d) <==> Offered(recs', deps', d))
    && (forall d | Offered(recs, deps, d) && Offered(recs', deps', d) :: SameOffer(recs[d], recs'[d]))
  }

  /** Two fingerprints agree exactly when everything agrees that may change a node's result: its settings, the
      resolved parameters and the contents of their sources, and for each dependency whether it succeeded (or how it
      ended) and the digests and row counts of its outputs. Nothing else matters: not the run, the attempt, timeouts,
      retries, groups or resources. */
  lemma FingerprintsAgree(
    cfg: Config, node: NodeDef, resolved: Json, contents: Json, recs: Records,
    cfg': Config, node': NodeDef, resolved': Json, contents': Json, recs': Records
  )
    ensures var left := InputFingerprint(cfg, node, resolved, contents, recs);
            var right := InputFingerprint(cfg', node', resolved', contents', recs');
            left == right <==>
              && SameSettings(cfg, node, cfg', node') && resolved == resolved' && contents == contents'
              && SameOffers(recs, node.dependencies, recs', node'.dependencies)
  {
    hide SignatureOf, SameSettings, DependencyProofs, SameOffers;
    SettingsAgree(cfg, node, cfg', node');
    AllOffersAgree(recs, node.dependencies, recs', node'.dependencies);
  }

  lemma SettingsAgree(cfg: Config, node: NodeDef, cfg': Config, node': NodeDef)
    ensures (SignatureOf(cfg, node) == SignatureOf(cfg', node')) <==> SameSettings(cfg, node, cfg', node')
  {
  }

  lemma AllOffersAgree(recs: Records, deps: seq<NodeId>, recs': Records, deps': seq<NodeId>)
    ensures (DependencyProofs(recs, deps) == DependencyProofs(recs', deps')) <==> SameOffers(recs, deps, recs', deps')
  {
    hide SameOffer, Proofs, Normalised;
    var left, right := DependencyProofs(recs, deps), DependencyProofs(recs', deps');
    forall d ensures d in left <==> Offered(recs, deps, d) {
    }
    forall d ensures d in right <==> Offered(recs', deps', d) {
    }
    forall d | d in left && d in right ensures left[d] == right[d] <==> SameOffer(recs[d], recs'[d]) {
      OffersAgree(recs[d], recs'[d]);
    }
    if (forall d :: d in left <==> d in right) && (forall d | d in left && d in right :: left[d] == right[d]) {
      assert left == right;
    }
  }

  function Definition(cfg: Config, node: NodeDef): Option<Json> {
    if node.notebook in cfg.definitions then Some(cfg.definitions[node.notebook]) else None
  }

  ghost predicate Offered(recs: Records, deps: seq<NodeId>, d: NodeId) {
    d in deps && d in recs
  }

  /** The two records offer the same to a dependent: they both succeeded, or ended alike, and their outputs have the
      same digests and row counts. */
  ghost predicate SameOffer(r: NodeRecord, r': NodeRecord) {
    && (r.status == r'.status
        || (r.status in {Succeeded, SkippedAlreadySatisfied} && r'.status in {Succeeded, SkippedAlreadySatisfied}))
    && r.outputs.Keys == r'.outputs.Keys
    && forall name | name in r.outputs ::
         && r.outputs[name].digest == r'.outputs[name].digest
         && RowCount(r.outputs[name]) == RowCount(r'.outputs[name])
  }

  /** An artifact has its rows; a receipt counts as one. */
  function RowCount(r: Reference): nat {
    match r
    case Artifact(_, _, rows, _) => rows
    case Receipt(_, _) => 1
  }

  lemma OffersAgree(r: NodeRecord, r': NodeRecord)
    ensures var left := DependencyProof(Normalised(r.status), Proofs(r.outputs));
            var right := DependencyProof(Normalised(r'.status), Proofs(r'.outputs));
            left == right <==> SameOffer(r, r')
  {
    var left, right := Proofs(r.outputs), Proofs(r'.outputs);
    assert left.Keys == r.outputs.Keys && right.Keys == r'.outputs.Keys;
    if r.outputs.Keys == r'.outputs.Keys {
      assert forall name | name in r.outputs :: left[name] == Proof(r.outputs[name]);
      assert forall name | name in r.outputs :: right[name] == Proof(r'.outputs[name]);
      if forall name | name in r.outputs :: left[name] == right[name] {
        assert left == right;
      }
    }
  }
}
