# Verification model of the restartable DAG runtime

The runtime schedules a DAG of notebook components, records every step in an event-sourced control
store, and recovers failed runs by reusing proven results. This project models its core in Dafny and
proves what that core promises, on any run, interleaving and chain of recoveries.

The modules follow the program:

- `Model`, `Parameters`, `Triggers`: configuration, records, parameter references, trigger rules.
- `ControlLog`, `ControlStore`, `StoreInvariants`, `StoreLaws`, `StoreHistory`, `AttemptLinearity`,
  `Outbox`: the control store. `ControlLog` says what each guarded transaction decides, the class `ControlStore` does
  it on a log, `StoreLaws` spells each call out, and the others prove what every history of calls keeps.
- `LogProtocol`, `DeltaEvents`: the Delta event store under several writers, with its caches and its lease.
- `Descendants`, `Planner`, `Validator`: the graph algorithms and the configuration checks.
- `Board`, `RunSteps`, `Capacity`, `Potential`, `Planning`, `Scheduler`: the scheduling protocol of one run. `Board`
  holds the run invariant and its moves; the class `Scheduler` is the loop, on the real control store, with the
  workers' calls between its steps.
- `Rules`, `References`: what the rules of a run mean, in the terms of statuses, settings and places in a parameter tree.
- `Rebuild`: the results that a run keeps, because they are still good.
- `Recovery`, `Moments`, `Orchestrator`, `Worker`, `Restart`: runs that follow, crash at any moment, are reconciled and
  are resumed; the child attempt; and restart equivalence.
- `ConditionGap`: one configuration that passes validation and raises in every run.
- `Receiving`, `Aggregation`, `Summary`: the sample transformation, its aggregate, and the critical path.

How the model states things:

- A scope is one log. SHA-256 over canonical JSON is an injective function, modelled by keeping the
  fingerprinted content. A UUID is the sequence number of the event that first carries it. Clock readings are
  real numbers that never decrease.
- An exception is an `Err` (or a refusal) that leaves the log as it was, except for the unconfirmed Delta append.
- What the loop cannot control is a `World`: clock readings, source contents, artifact validity, lease checks,
  which attempts the executor has returned (and how it found those without a final record), and which calls the
  workers make before each access to the store.
  A worker may make any call with the context it was given; what it may report as a success is what `run_child`
  checks.
- "In order" means that every closed run is sound and that the open run, whatever its process was doing, is within
  the protocol. A scheduler keeps a record of its moments; at each of them its process may die.
- "Sound" means that every success-class record carries a fingerprint of the run's configuration and of the
  final proofs of its dependencies, and the output proofs that the component produces from that content.

The table names the members whose contracts state something. The pure functions that these contracts use (the
`Decide...` functions of `ControlLog`, `Resolve`, `TriggerStatus`, `CanReuse`, `InputFingerprint`, `Reason` and their
like) transcribe the source's expressions; `StoreLaws`, `Rules`, `References` and the members named `...Exactly` say
what they mean, in terms that do not use them.

Findings about the code:

- Validation accepts a condition on a node whose whole `parameters` object is one reference, although resolving
  it replaces the object. Such a condition raises a Python KeyError or TypeError in the loop, which the planning
  guard does not catch; `Parameters.ConditionRaisesExactly` and `Planning.ConditionRaises` say exactly when, and
  `ConditionGap` gives a whole configuration that schema and validator accept and that raises in every run.
- `clear_cache` between an acknowledged append and `_remember` makes `_remember` see a gap: the caller gets
  AUDIT_CORRUPTION for a committed transaction and the lease is kept. `LogProtocol.RememberFailsExactly` says
  exactly when, and `LogProtocol.RaceFromStart` gives the steps from an empty scope. The repository itself calls
  `clear_cache` only at spark_dag/orchestrator.py:528, under the run lease and before its own transactions, so its
  own callers are not shown to meet this; any other user of the store in the same process could.

## Model

| member | source | states |
|---|---|---|
| `ControlStore.Replay` | spark_dag/control_store.py:37-48 | A log replays exactly when it is numbered 1..n; the result is the fold of the log, else AUDIT_CORRUPTION. |
| `ControlStore.Transaction.Put` | spark_dag/control_store.py:56-72 | One event is stamped with the next number and the projection stays the fold of events plus pending. |
| `ControlStore.Transaction.PutCreated` | spark_dag/control_store.py:336-371 | The creation loop puts one PENDING node per plan entry, in order. |
| `ControlStore.Transaction.PutReconciled` | spark_dag/control_store.py:650-664 | The reconciliation loop puts one entry per nonterminal or uncertain node, in order. |
| `ControlStore.ControlStore.BeginRun` | spark_dag/control_store.py:283-373 | Appends RUN_STARTED and one NODE_CREATED per planned node, or raises and appends nothing, as `StoreLaws.BeginsExactly` and `StoreLaws.BegunRecords` spell out. |
| `ControlStore.ControlStore.Prepare` | spark_dag/control_store.py:382-421 | The guarded transition of `prepare` on the log, both outcomes; the scheduler's retry budget is not checked here. |
| `ControlStore.ControlStore.Claim` | spark_dag/control_store.py:423-446 | The guarded transition of `claim`: READY, same claim, attempt, fingerprint and configuration, or CLAIM_COLLISION. |
| `ControlStore.ControlStore.FinishAttempt` | spark_dag/control_store.py:448-511 | The guarded transition of `finish_attempt`, including the idempotent return of a terminal record and the late success that becomes TIMED_OUT. |
| `ControlStore.ControlStore.Skip` | spark_dag/control_store.py:513-561 | The guarded transition of `skip`, with UNPROVEN_SKIP and the copy of a prior success. |
| `ControlStore.ControlStore.RecordRemote` | spark_dag/control_store.py:563-573 | The guarded transition of `record_remote`, which may touch a terminal record. |
| `ControlStore.ControlStore.PutOutbox` | spark_dag/control_store.py:575-624 | The guarded transition of `put_outbox`: INVALID_OPERATION for a malformed operation name before anything else, first commit, idempotent repeat, refreshed reference, or SIDE_EFFECT_CONFLICT; the receipt returned. |
| `ControlStore.ControlStore.FinishRun` | spark_dag/control_store.py:626-642 | The guarded transition of `finish_run`, with UNFINISHED_RUN. |
| `ControlStore.ControlStore.Reconcile` | spark_dag/control_store.py:644-670 | The guarded transition of `reconcile`: one entry per nonterminal or uncertain node, then the run closes FAILED. |
| `ControlStore.ControlStore.AttemptedNodes` | spark_dag/orchestrator.py:262-262 | Exactly the nodes that some run of the scope has attempted. |
| `StoreLaws.BeginsExactly` | spark_dag/control_store.py:286-312 | A run begins if and only if all runs are over and: it is a normal run and the first one; or a resume of the latest run, which FAILED; or a forced restart of the latest run; or a forced rerun. Otherwise it is CLAIM_COLLISION over an open run, else RUN_EXISTS for a normal run and INVALID_PARENT for the others. |
| `StoreLaws.BegunRecords` | spark_dag/control_store.py:313-373 | A run that begins is RUNNING, numbered after all runs before it, has the latest of them as parent and one PENDING record per planned node; nothing else changes. |
| `StoreLaws.WhatFollows` | spark_dag/control_store.py:286-312 | With the latest run named as parent: after a FAILED run every mode but a normal run begins, after a SUCCEEDED one only the forced ones (a resume is INVALID_PARENT), and over an open one none. |
| `StoreLaws.FinishedRunsFollow` | spark_dag/control_store.py:626-670 | Right after a run was closed FAILED or reconciled its resume begins; after it was closed SUCCEEDED that is INVALID_PARENT, and after RECOVERY_REQUIRED a collision. |
| `StoreLaws.PreparesExactly` | spark_dag/control_store.py:382-421 | An attempt is prepared if and only if the run is RUNNING under this owner and the node PENDING, FAILED or TIMED_OUT and certain; each error has its guard; the new READY record keeps nothing of the attempt before. |
| `StoreLaws.ClaimsExactly` | spark_dag/control_store.py:423-446 | A claim is accepted if and only if the record is READY in a RUNNING run with the context's attempt, claim, fingerprint and configuration; only status, start and previous status change. |
| `StoreLaws.FinishesExactly` | spark_dag/control_store.py:448-511 | What a report does in each status of the record: collision, nothing, MISSING_CHECKPOINT, or the outcome field by field; a late success is TIMED_OUT with DEADLINE_EXCEEDED, to be retried. |
| `StoreLaws.SkipsExactly` | spark_dag/control_store.py:513-561 | A node is skipped if and only if it is PENDING, or READY and cancelled, and a reuse has a prior success, whose outputs, checkpoint, counts and origin it carries. |
| `StoreLaws.RemotesExactly` | spark_dag/control_store.py:563-573 | A remote id is recorded for the holder of the claim in a RUNNING run, in any status, and changes nothing else. |
| `StoreLaws.RunsEndExactly` | spark_dag/control_store.py:626-642 | A run is closed by its owner if and only if no node is PENDING, READY or RUNNING, or it is marked for recovery; only its status and end change. |
| `StoreLaws.ReconcilesExactly` | spark_dag/control_store.py:644-670 | With stopped workers and a reason an open run ends FAILED: every unfinished or uncertain record becomes CANCELLED, certain and never retried, and every other record stays; each error has its guard. |
| `StoreLaws.OutboxExactly` | spark_dag/control_store.py:580-624 | For a RUNNING attempt with this claim: a new intent is stored pending, other content is SIDE_EFFECT_CONFLICT, another reference replaces a pending one, and a repeat changes nothing. |
| `StoreLaws.OperationNames` | spark_dag/control_store.py:578-579 | The operation names that are accepted are those of the pattern, written out: a letter and then up to 63 letters, digits and underscores. |
| `ControlLog.FoldCommit` | spark_dag/control_store.py:37-72 | Folding a log with committed entries is evolving the old projection by them. |
| `ControlLog.EvolveReconcile` | spark_dag/control_store.py:650-670 | The reconciliation entries leave exactly the reconciled records. |
| `StoreInvariants.CallKeeps` | spark_dag/control_store.py:283-670 | No call by any caller in any state breaks the store invariant: the run chain, settled closed runs, outputs if and only if success with a committing checkpoint, provenance of reuse. |
| `StoreInvariants.BeginParent` | spark_dag/control_store.py:286-330 | A run that may begin names the latest run as parent (or none), and no run is open. |
| `StoreInvariants.SkipCallKeeps` | spark_dag/control_store.py:541-553 | A reused record names a closed run where the same node SUCCEEDED with the same outputs and checkpoint, through any number of recoveries. |
| `StoreHistory.ReachableOk` | spark_dag/control_store.py:122-158 | Every reachable log is numbered, only grows, and folds to a state within the invariant. |
| `StoreHistory.ClosedRunsAreFrozen` | spark_dag/control_store.py:626-670 | Once a run is SUCCEEDED or FAILED all its nodes are terminal and neither it nor they ever change. |
| `StoreHistory.RunsFormAChain` | spark_dag/control_store.py:286-330 | Run k carries attempt k and parent run k-1; only the last run can be RUNNING or RECOVERY_REQUIRED. |
| `AttemptLinearity.MoveGrows` | spark_dag/control_store.py:393-421 | Attempts grow by one at each `prepare` and at nothing else; a new attempt has a fresh, larger claim. |
| `AttemptLinearity.AttemptsAreLinear` | spark_dag/control_store.py:423-511 | Under any interleaving each (run, node, attempt) has at most one ATTEMPT_CLAIMED and one ATTEMPT_FINISHED event. |
| `AttemptLinearity.SupersededContextIsPowerless` | spark_dag/control_store.py:424-475 | After a newer `prepare`, or once its run left RUNNING, every call with an old context raises CLAIM_COLLISION (or INVALID_OPERATION, for a malformed operation name) and commits nothing. |
| `AttemptLinearity.TerminalIsFinalForItsWorker` | spark_dag/control_store.py:463-511 | Within an attempt a terminal record can only change its remote run id, and the outbox cannot change. |
| `Outbox.EffectsArePermanent` | spark_dag/control_store.py:575-624 | No history removes an outbox intent or changes its payload digest. |
| `Outbox.IntentIsCommittedOnce` | spark_dag/control_store.py:584-624 | Each (node, operation) has exactly one OUTBOX_COMMITTED event if it is in the outbox, and none otherwise. |
| `Outbox.ReferenceCarriesDigest` | spark_dag/components.py:240-241 | When callers pass a reference of the declared digest, as `request_receipts` does, the stored reference always carries that digest. |
| `Outbox.ReceiptsStayValid` | spark_dag/artifacts.py:295-299 | A returned receipt validates in every later state. |
| `Outbox.ReceiptsValidateExactly` | spark_dag/artifacts.py:295-299 | Right after a call exactly the receipt with its digest validates for that effect; never a receipt of an intent that was not committed. |
| `LogProtocol.ReadAfterIsSuffix` | spark_dag/control_store.py:192-206 | The rows above a sequence number are the rest of a numbered log. |
| `LogProtocol.AbsorbStretch` | spark_dag/control_store.py:208-221 | Absorbing any stretch of the log into a cached prefix fails exactly when the stretch begins beyond the cache. |
| `LogProtocol.ViewsAreComplete` | spark_dag/control_store.py:223-227 | In every state `events` returns exactly the full log, whatever was cached. |
| `LogProtocol.StepKeepsInv` | spark_dag/control_store.py:229-251 | Every step of every thread keeps: log numbered 1..n, caches are prefixes, only the lease holder is inside a transaction and what it read is still the whole log. |
| `LogProtocol.EveryHistoryIsSerial` | spark_dag/control_store.py:229-251 | Any interleaving of writers, readers, cache clears and unconfirmed appends leaves exactly the log of the calls whose append reached the table, executed one by one in that order. |
| `LogProtocol.DeltaLogsAreWellFormed` | spark_dag/control_store.py:229-251 | In any interleaving from the empty scope whose committed calls follow the callers' conventions, the Delta log is numbered and folds to a store within the invariant. |
| `LogProtocol.StuckForEver` | spark_dag/leases.py:57-69 | After an unconfirmed append (or a failed release) no history can append to the scope again. |
| `LogProtocol.RememberFailsExactly` | spark_dag/control_store.py:208-221 | After an acknowledged append `_remember` fails if and only if the writer's cache is shorter than what the transaction had read. |
| `LogProtocol.WithoutClearsEveryAppendIsConfirmed` | spark_dag/control_store.py:229-251 | Without `clear_cache`, every acknowledged append is absorbed and so reported as a success. |
| `LogProtocol.ClearedCacheFailsAnAcknowledgedAppend` | spark_dag/control_store.py:188-251 | In any scope that already had events, a `clear_cache` between append and `_remember` turns an acknowledged append into AUDIT_CORRUPTION with the lease kept. |
| `LogProtocol.RaceFromStart` | spark_dag/control_store.py:188-251 | From the empty scope an actual sequence of steps ends with a clear between append and `_remember`, with the second transaction in the log and the lease stuck. |
| `DeltaEvents.DeltaEvents.Remember` | spark_dag/control_store.py:208-221 | The in-place loop computes the absorbed cache and refuses exactly when the specification does. |
| `DeltaEvents.DeltaEvents.Events` | spark_dag/control_store.py:223-227 | Returns the committed log and leaves it cached. |
| `DeltaEvents.DeltaEvents.Transaction` | spark_dag/control_store.py:229-251 | Success is a whole serial step with the lease freed; whenever a failure may hide a committed append the lease stays held; exactly when it is retained. |
| `DeltaEvents.FileLease.Release` | spark_dag/leases.py:57-66 | A retained lease is never given back. |
| `DeltaEvents.DeltaEvents.AppendAndRemember` | spark_dag/control_store.py:241-244 | The log gains exactly the pending events unless the append was lost; it raises exactly for a lost append or a cleared cache. |
| `Validator.ValidateDag` | spark_dag/dag_validator.py:65-152 | Accepts exactly the well-formed acyclic configurations whose entries are the roots; DAG_CYCLE and UNREACHABLE_NODE are raised exactly for their reasons; an accepted one meets every assumption of the scheduler. |
| `Validator.MakePlan` | spark_dag/dag_validator.py:132-152 | The graph half: a plan exactly for acyclic nodes whose entries are the roots. |
| `Validator.CheckNodes` | spark_dag/dag_validator.py:93-125 | The fault of the first faulty node in list order, or none when no listed node is faulty; `Validator.FaultsExactly` says what a fault is. |
| `Validator.FaultsExactly` | spark_dag/dag_validator.py:93-125 | A node has no fault if and only if it passes every check, written out; otherwise the error is that of the first check that it fails. |
| `Validator.WellFormedNodes` | spark_dag/dag_validator.py:93-125 | The per-node checks give each property that scheduling relies on. |
| `Validator.ShortPlanMeansCycle` | spark_dag/dag_validator.py:147-148 | A plan shorter than the node list means that a cycle exists, and nothing else. |
| `Planner.Kahn` | spark_dag/dag_validator.py:132-146 | The indegree loop always takes the least available node and stops only when none is available. |
| `Planner.Relax` | spark_dag/dag_validator.py:143-146 | The inner loop keeps indegree equal to the unplanned dependencies and ready equal to the available nodes. |
| `Planner.PopLeast` | spark_dag/dag_validator.py:137-146 | The popped id is the lexicographically least of the ready set. |
| `Planner.GreedyOrders` | spark_dag/dag_validator.py:140-146 | Such a plan lists each node once, after its dependencies. |
| `Planner.PlanIsDeterministic` | spark_dag/dag_validator.py:132-146 | Two such plans of the same nodes are equal, whatever the listing order. |
| `Planner.PlanIsLeast` | spark_dag/dag_validator.py:132-146 | The plan is the lexicographically least topological order. |
| `Planner.LessIsLexicographic` | spark_dag/dag_validator.py:132-146 | The order of node ids that the plan follows: a proper prefix first, otherwise the first different character decides. |
| `Planner.StuckHasCycle` | spark_dag/dag_validator.py:147-148 | A stuck, incomplete plan exhibits an explicit cycle. |
| `Planner.CycleBlocks` | spark_dag/dag_validator.py:147-148 | A graph with a cycle has no topological order. |
| `Planner.RootsCover` | spark_dag/dag_validator.py:149-151 | Every node of a planned graph descends from a root, so the coverage half of UNREACHABLE_NODE can never fail. |
| `Descendants.DescendantsOf` | spark_dag/dag_validator.py:13-25 | The worklist computes exactly the least set that contains the origins and is closed under dependency edges. |
| `Descendants.BuildChildren` | spark_dag/dag_validator.py:14-17 | The adjacency lists name each dependent once per mention. |
| `Descendants.Visit` | spark_dag/dag_validator.py:21-24 | The inner loop adds exactly the unseen children and queues them. |
| `Descendants.ClosureIsLeast` | spark_dag/dag_validator.py:13-25 | The closure is contained in every closed superset of the origins. |
| `Parameters.Lookup` | spark_dag/config_loader.py:114-120 | The loop over dotted parts finds what the recursive path lookup finds. |
| `Parameters.SplitJoins` | spark_dag/config_loader.py:116-116 | Splitting a dotted name and joining it gives the name back. |
| `Parameters.ResolvesIff` | spark_dag/dag_validator.py:28-62 | An accepted parameter tree resolves if and only if the outputs that it names are present, whatever the run, attempt and mode. |
| `Parameters.AcceptedResolves` | spark_dag/config_loader.py:177-204 | An accepted tree resolves whenever the dependencies offer their expected outputs; `Planning.AllSuccessResolves` derives that premise on every run. |
| `Parameters.ConfigOnlyIgnoresTheRun` | spark_dag/config_loader.py:177-204 | A tree with only `$config` references resolves the same in every run. |
| `Parameters.ConditionRaisesExactly` | spark_dag/dag_validator.py:172-174 | Reading the condition's parameter from the resolved tree raises if and only if the whole tree is one reference object (save for a configuration object with the same key). |
| `References.AcceptsExactly` | spark_dag/dag_validator.py:28-62 | A parameter tree is accepted if and only if every reference in it, at any depth outside other references, is. |
| `References.AdmitsExactly` | spark_dag/dag_validator.py:33-59 | A reference is accepted if and only if it is alone in its object and names an existing business setting, one of five facts about the attempt, or a declared output of a direct dependency. |
| `References.ResolvesPlaceByPlace` | spark_dag/config_loader.py:177-204 | In a resolved tree every reference is replaced by what it refers to, and every other object, list and value stands where it stood. |
| `References.RefersToSetting` | spark_dag/config_loader.py:114-120 | A setting is the value at its path in the configuration, or the reference does not resolve. |
| `References.RefersToFact` | spark_dag/config_loader.py:188-190 | A fact about the attempt is what the runtime says of it. |
| `References.RefersToOutput` | spark_dag/config_loader.py:191-196 | An output reference is that output of that dependency, and resolves if and only if it is there. |
| `References.OutputsCarryProofs` | spark_dag/checkpoint_manager.py:44-47 | A resolved output shows the digest and row count that the dependent's fingerprint carries. |
| `References.FactsOfAttempt` | spark_dag/orchestrator.py:128-146 | The five facts: business key, run, node, attempt and restart mode. |
| `Board.RetryKeeps` | spark_dag/orchestrator.py:280-306 | A retry keeps the run invariant. |
| `Board.SkipKeeps` | spark_dag/orchestrator.py:385-399 | Skipping by trigger or condition keeps the run invariant. |
| `Board.CancelKeeps` | spark_dag/orchestrator.py:319-336 | Cancelling an undispatched node, even with unfinished dependencies, keeps the run invariant. |
| `Board.GrowKeeps` | spark_dag/orchestrator.py:459-464 | Growing `invalid` by the descendants of a node that was not reused touches no reused node and stays closed. |
| `Board.ReusedDependencies` | spark_dag/checkpoint_manager.py:41-50 | When a fingerprint matches the parent's, every dependency was reused in this run. |
| `Board.ReuseKeeps` | spark_dag/checkpoint_manager.py:72-106 | A node that `can_reuse` accepts keeps the run invariant: its outputs stay proven under the present configuration. |
| `Board.ReportKeeps` | spark_dag/worker.py:143-163 | Whatever a worker may report keeps the run invariant; a success is proven by its fingerprint. |
| `Board.PlanningFailureKeeps` | spark_dag/orchestrator.py:443-462 | Recording a planning failure keeps the run invariant. |
| `Board.ParametersResolve` | spark_dag/orchestrator.py:128-146 | A validated node's parameters resolve exactly when its dependencies offer the outputs that they name. |
| `Board.ResolvableKept` | spark_dag/orchestrator.py:289-289 | Once the guarded first resolution succeeded, the unguarded ones at retry and dispatch cannot raise. |
| `Rules.RecordsObeyTriggers` | spark_dag/dag_validator.py:155-174 | In every run: what was attempted or reused had its trigger met and its condition not denied, BLOCKED means a trigger of the success path that a bad dependency left unmet, SKIPPED_CONDITION an unmet trigger otherwise or a denied condition. |
| `Rules.RetriesExactly` | spark_dag/orchestrator.py:183-193 | A record of any reachable store is retried if and only if it FAILED or TIMED_OUT, certain, with a retryable error of a listed category, within the budget, of an eligible node that is safe to repeat. |
| `Rules.BackoffGrows` | spark_dag/orchestrator.py:284-288 | The first delay is the configured one, each next is the one before times the backoff, and none exceeds the ceiling. |
| `Rules.FailsFastExactly` | spark_dag/orchestrator.py:310-328 | Fail-fast sets in if and only if a critical node, not in flight, ended badly and will not be retried. |
| `Rules.RepeatsExactly` | spark_dag/orchestrator.py:148-181 | In a recovery run an attempted node may be executed again if and only if it is eligible, an unsafe one is approved, and the companion of a compensated one succeeded in the parent run with valid outputs. |
| `Rules.SeedsExactly` | spark_dag/orchestrator.py:263-268 | What a run may not reuse at its start, in each mode: failures of the parent run, the origin of a forced restart, or everything. |
| `Rules.FingerprintsAgree` | spark_dag/checkpoint_manager.py:10-52 | Two fingerprints are equal if and only if the listed settings, the resolved parameters, the source contents, and what the dependencies offer are equal; nothing else matters. |
| `RunSteps.WorkerCallKeeps` | spark_dag/control_store.py:423-624 | Any call of any worker in flight, committed or refused, keeps the run invariant and changes nothing but records in flight, never an outcome once there. |
| `RunSteps.StartedStays` | spark_dag/control_store.py:423-511 | Once claimed, an attempt stays claimed under any call of any worker, and only a report with the same context ends it. |
| `RunSteps.StartedFinishes` | spark_dag/control_store.py:448-511 | A claimed attempt of a RUNNING run accepts its report, and its record is then what the report says, or was terminal before. |
| `RunSteps.PrepareCommits` | spark_dag/control_store.py:382-421 | The scheduler's `prepare` cannot collide. |
| `RunSteps.SkipCommits` | spark_dag/control_store.py:513-561 | The scheduler's `skip` cannot collide. |
| `RunSteps.FailureCommits` | spark_dag/control_store.py:448-511 | The scheduler's own `finish_attempt` for a planning failure cannot collide. |
| `Capacity.Budget.Reserve` | spark_dag/orchestrator.py:357-362 | Reserving keeps every counter equal to the sum over the reserved set, and every limit when the node fits. |
| `Capacity.AddLoad` | spark_dag/orchestrator.py:357-362 | One more reserved node adds exactly its own group slot and resource demand. |
| `Capacity.SubsetWithinLimits` | spark_dag/orchestrator.py:341-344 | Any part of a set within the limits is within the limits. |
| `Capacity.Budget.EmptyFits` | spark_dag/dag_validator.py:104-110 | An empty budget has room for any node that the validator accepts. |
| `Capacity.Budget.FitsExactly` | spark_dag/orchestrator.py:345-356 | A node fits if and only if adding it breaks no limit on nodes, groups or resources. |
| `Potential.SumMonotone` | spark_dag/orchestrator.py:272-514 | The measure falls when one node's weight falls and none rises. |
| `Potential.SumBounded` | spark_dag/orchestrator.py:272-514 | The measure of a new run is at most three units per allowed attempt and one per node. |
| `Planning.AllSuccessResolves` | spark_dag/dag_validator.py:28-62 | On every run, the accepted parameters of an `all_success` node whose dependencies have finished and whose trigger matches always resolve: success-class records hold exactly the expected outputs. |
| `Planning.ConditionRaises` | spark_dag/dag_validator.py:171-174 | Once parameters resolve, `trigger_status` raises exactly on a fired node whose condition reads a replaced tree. |
| `ConditionGap.ConfigIsAccepted` | spark_dag/dag_validator.py:113-152 | A complete configuration with one csv source and one node: it follows the schema, `validate_dag` accepts it with a one-node plan, and its condition sits on parameters that are one reference. |
| `ConditionGap.EveryRunRaises` | spark_dag/dag_validator.py:171-174 | In every run of that configuration, on any records, the trigger verdict of its only node raises. |
| `Planning.RetryViews` | spark_dag/orchestrator.py:282-296 | A retryable record of the snapshot may be prepared, and its parameters resolve. |
| `Planning.ContextViews` | spark_dag/orchestrator.py:470-485 | The parameters of a READY node resolve for dispatch and its context repeats the committed dependency records. |
| `Planning.NeverStalls` | spark_dag/orchestrator.py:493-514 | SCHEDULER_STALLED is dead: an iteration that changed nothing, with nothing in flight and nothing READY, has every node finished. |
| `Planning.MinimalRebuild` | spark_dag/checkpoint_manager.py:72-106 | A planned node that fires, whose sources read the same and whose prior artifacts are valid throughout planning, and whose prior result meets the reuse rule, is left SKIPPED_ALREADY_SATISFIED. |
| `Planning.ExitShows` | spark_dag/executors.py:87-101 | An executor's report on an attempt without a final record is accepted; the record is then terminal, TIMED_OUT exactly for a timeout, with the executor's error and its uncertainty, and no other record changes. |
| `Rebuild.KeepIsKeepable` | spark_dag/orchestrator.py:417-442 | The union of all sets of still-good results outside `invalid` is such a set: there is a greatest set to keep. |
| `Rebuild.KeptIsReused` | spark_dag/orchestrator.py:402-442 | However planning of a node in such a set is grounded in the world's answers, the decision is to reuse it. |
| `Rebuild.GrownKept` | spark_dag/orchestrator.py:459-464 | Growing `invalid` by the descendants of any node outside the set leaves the set untouched. |
| `Scheduler.Scheduler.ReexecutionRefusal` | spark_dag/orchestrator.py:148-181 | No refusal means that the run is normal, the node was never attempted, or it is eligible and safe, or approved with (for compensation) a companion that succeeded and whose artifacts were found valid; each error names the guard that failed. |
| `Scheduler.Scheduler.Consider` | spark_dag/orchestrator.py:402-442 | The decision and its grounds: skip by condition, reuse, execution, or a failure with one of four causes; INVALID_REFERENCE for unresolved parameters never hits an `all_success` node; a Python error only when the condition raises. |
| `Scheduler.Scheduler.Weigh` | spark_dag/orchestrator.py:417-442 | Once trigger and condition have fired: fail with the error of reading the sources, or decide on reuse and repetition with the fingerprint of what was read. |
| `Scheduler.Scheduler.WeighReuse` | spark_dag/checkpoint_manager.py:72-106 | Reuse only when the reuse rule holds and the prior artifacts were found valid; execution or a refusal only when the rule fails or they were found invalid; a validation error only when the rule asked for the check. `Recovery.EveryReuseIsEarned` and `Restart.SolidIsStillGood` say what the rule asks, in both directions. |
| `Scheduler.Scheduler.WeighRepetition` | spark_dag/orchestrator.py:148-181 | A node without a reusable result is executed only when repeating it is allowed, and fails only with the refusal of a guard that failed. |
| `Scheduler.Scheduler.GrowInvalid` | spark_dag/orchestrator.py:463-464 | Before a node is executed, it and its descendants join `invalid`. |
| `Scheduler.Scheduler.PrepareNode` | spark_dag/orchestrator.py:465-465 | `prepare` cannot raise here; the record is READY for the next attempt and nothing else changed. |
| `Scheduler.Scheduler.ReuseNode` | spark_dag/orchestrator.py:429-439 | The reuse cannot raise; the record carries the prior outputs and checkpoint. |
| `Scheduler.Scheduler.FailPlanning` | spark_dag/orchestrator.py:443-462 | A planning error becomes a FAILED attempt with that error, and nothing else changed. |
| `Scheduler.Scheduler.CarryOut` | spark_dag/orchestrator.py:405-467 | The decision is committed, the snapshot stays in step with the store, and the measure falls. |
| `Scheduler.Scheduler.PlanOne` | spark_dag/orchestrator.py:374-467 | One turn leaves everything alone only when the node is not plannable or does not fit; else it commits a record that follows the trigger verdict and carries out a grounded decision, or stops on this node's raising condition; limits hold. |
| `Scheduler.Scheduler.RetryAll` | spark_dag/orchestrator.py:280-306 | Before the deadline exactly the retryable nodes not in flight become READY for their next attempt. |
| `Scheduler.Scheduler.RetryOne` | spark_dag/orchestrator.py:282-306 | The next attempt is READY after the exponential backoff, counted from the clock. |
| `Scheduler.Scheduler.CancelPending` | spark_dag/orchestrator.py:310-336 | Exactly the undispatched nodes are cancelled: all past the deadline, those on the success path after a fail-fast failure. |
| `Scheduler.Scheduler.ReserveReady` | spark_dag/orchestrator.py:364-372 | Reservations stay within limits and hold no READY node whose delay has not passed; a due READY node is left out only when adding it would break a limit; with nothing in flight at least one is reserved. |
| `Scheduler.Scheduler.CountActive` | spark_dag/orchestrator.py:339-343 | The counters start as the sums over the nodes in flight. |
| `Scheduler.Scheduler.PlanAll` | spark_dag/orchestrator.py:374-467 | The whole planning pass: it leaves no plannable node that has room, keeps limits and delays, and falls in measure if it changes something; when it changes nothing, every node was unplannable or did not fit. |
| `Scheduler.Scheduler.BuildBatch` | spark_dag/orchestrator.py:470-485 | The batch holds each reserved READY node once, with an exact context. |
| `Scheduler.Scheduler.BuildContext` | spark_dag/orchestrator.py:93-126 | A dispatched context repeats the committed records of the dependencies, within the run's deadline. |
| `Scheduler.Scheduler.Submit` | spark_dag/executors.py:61-70 | INVALID_DISPATCH exactly beyond the concurrency budget; DUPLICATE_DISPATCH never; an accepted batch is in flight. |
| `Scheduler.Scheduler.Dispatch` | spark_dag/orchestrator.py:470-492 | Every reserved READY node is in flight afterwards unless the deadline has passed, and nothing new is whose delay had not passed; LEASE_LOST only after a failed lease check; nothing is submitted only when there is nothing to submit. |
| `Scheduler.Scheduler.Admitted` | spark_dag/orchestrator.py:486-492 | The reservations leave room for the batch, so the scheduler never gets INVALID_DISPATCH. |
| `Scheduler.Scheduler.Reap` | spark_dag/executors.py:72-78 | Exactly the returned attempts leave the session, each with its own terminal record, or with the executor's error, status and uncertainty when it had none; `lost` grows by exactly the uncertain ones; in barrier mode it blocks if and only if not all of them have returned, and otherwise empties the session. |
| `Scheduler.Scheduler.FinishReturned` | spark_dag/executors.py:87-101 | What has returned without a terminal record gets the executor's error, status and uncertainty (TIMED_OUT exactly for a timeout), and every record that was terminal stays so. |
| `Scheduler.Scheduler.Round` | spark_dag/orchestrator.py:272-514 | One iteration: limits hold for what is in flight; the measure falls unless it waits or ends; it waits only with an attempt in flight or every READY delay still ahead, and never past the deadline once everything in flight returns; LEASE_LOST only after a failed lease check of this iteration, a Python error only for a raising condition; the stall and dispatch errors never. It ends for an uncertain record whenever an attempt was reaped with an uncertain exit and the lease check passed. No attempt is dispatched before its delay has passed. |
| `Scheduler.Scheduler.ExecuteGraph` | spark_dag/orchestrator.py:254-514 | The loop: iterations are bounded by the measure and the waits; it completes only with every node finished and certain, gives up waiting only with work left and with, at some tick as late as the waits allowed, the deadline ahead or an attempt not returned; otherwise it ends for an uncertain record, a lease check that failed during it, or a raising condition. |
| `Recovery.InitialInv` | spark_dag/orchestrator.py:254-268 | A new run is within the protocol, with `invalid` closed over prior failures and forced origins. |
| `Recovery.RunMoves` | spark_dag/orchestrator.py:272-514 | What the scheduler and its workers do within a run keeps every other run of the scope sound. |
| `Recovery.FlightResolves` | spark_dag/orchestrator.py:443-462 | In any state within the protocol, also between the two store calls of a planning failure, the parameters of whatever is in flight resolve. |
| `Recovery.WorkerMoves` | spark_dag/control_store.py:423-624 | A dispatched worker, also after its orchestrator crashed, keeps the scope in order. |
| `Recovery.FinishMoves` | spark_dag/control_store.py:626-642 | Closing a run leaves it sound. |
| `Recovery.ReconcileMoves` | spark_dag/control_store.py:644-670 | Reconciliation closes the open run, and its proven successes stay proven. |
| `Recovery.BeginMoves` | spark_dag/orchestrator.py:254-268 | A run that begins on a scope in order is in order, and its parent is sound. |
| `Recovery.EveryRunIsTrusted` | spark_dag/orchestrator.py:254-514 | In any scope in order every run, closed, open, uncertain or abandoned, has proven successes, computed from contents that the run may have read. |
| `Recovery.EveryReuseIsEarned` | spark_dag/checkpoint_manager.py:72-106 | In any scope in order, a SKIPPED_ALREADY_SATISFIED record of any run, closed or not, belongs to a node that is eligible, of policy reuse_valid and safe, and repeats a certain success of the parent run, of the same business key, DAG, compatible version and code, with the same inputs and a checkpoint of that name over exactly the expected outputs. |
| `Moments.OneEventAtMost` | spark_dag/control_store.py:382-642 | Every call of a scheduler or a worker appends one event or none, so a crash can only fall between two calls. |
| `Moments.CrashesAreInOrder` | spark_dag/orchestrator.py:537-541 | If every moment of a run was in order, then wherever its process dies, between any two of its events, it leaves a scope in order. |
| `Orchestrator.VerdictFinishes` | spark_dag/control_store.py:626-634 | `finish_run` never raises UNFINISHED_RUN on the verdict of a loop that ended. |
| `Orchestrator.VerdictHolds` | spark_dag/orchestrator.py:209-211 | The status is RECOVERY_REQUIRED if and only if a record is uncertain; FAILED if and only if none is and a node configured as critical is FAILED, TIMED_OUT, BLOCKED or CANCELLED; SUCCEEDED if and only if none is and every critical one is SUCCEEDED or skipped. |
| `Orchestrator.UncertainStays` | spark_dag/orchestrator.py:209-211 | An uncertain outcome stays uncertain whatever the remaining workers do. |
| `Orchestrator.Orchestrator.Run` | spark_dag/orchestrator.py:516-544 | Refused if and only if the history does not admit the request (all runs over, and the condition of its mode), with its error and an unchanged log; raises only for a failed lease check or a condition that always raises (other exceptions are left out below); still running only with work left, and not once the deadline has passed and the executor has returned everything; else ends with the verdict on its records, spelled out over statuses and critical nodes, and RECOVERY_REQUIRED if any attempt was reaped with an uncertain exit. The scope stays in order, and wherever between two events the process dies it was left in order; non-waiting iterations are bounded by the plan; every set of results that are still good is reused in a run that ends certain. |
| `Orchestrator.Orchestrator.ValidateAndRun` | spark_dag/orchestrator.py:79-91 | The same from an unvalidated configuration, with the bound on iterations for the accepted plan: refused if and only if it is malformed, cyclic, has other entries than its roots, or the history does not admit the request; for a well-formed one the error is the first of these, and the log stays as it was. |
| `Orchestrator.Orchestrator.Die` | spark_dag/orchestrator.py:537-541 | A process that dies at any moment of its run leaves, in the log written so far and with the workers then in flight, a scope in order, which another process takes over. |
| `Orchestrator.Orchestrator.Close` | spark_dag/orchestrator.py:533-534 | The verdict on the final records, as `Orchestrator.VerdictHolds` spells it out, is recorded, and `finish_run` cannot raise. |
| `Orchestrator.Orchestrator.Work` | spark_dag/control_store.py:423-624 | A late call of an orphaned worker keeps the scope in order. |
| `Orchestrator.Orchestrator.Reconcile` | spark_dag/control_store.py:644-670 | Succeeds if and only if the workers have stopped, a reason is given and the run is open; then no run is open, and the scope stays in order. |
| `Restart.ReuseIsAncestorClosed` | spark_dag/orchestrator.py:420-441 | Every ancestor of a reused node is reused in the same run. |
| `Restart.NothingDownstreamIsReused` | spark_dag/orchestrator.py:262-268 | Nothing downstream of an executed node, a prior failure or a forced origin is reused. |
| `Restart.DependenciesAreFinal` | spark_dag/orchestrator.py:374-399 | Recorded dependency statuses equal the dependencies' present ones, for every node neither pending nor cancelled. |
| `Restart.AttemptsAreBounded` | spark_dag/orchestrator.py:183-193 | At most max_retries + 1 attempts in a run, and one when repeating is unsafe. |
| `Restart.SolidNodesAreClean` | spark_dag/checkpoint_manager.py:10-52 | Along the plan, a node whose ancestors all succeeded has the proofs of one clean pass. |
| `Restart.RestartEquivalence` | spark_dag/orchestrator.py:402-467 | After any chain of failed, crashed, reconciled, resumed and forced runs, in any run whose sources stayed constant while it read them, closed or not, a node that succeeded with all its ancestors has the digests and row counts of a clean run over those sources and that configuration. |
| `Restart.RunsAgree` | spark_dag/orchestrator.py:402-467 | Two runs, of any two histories, finished or not, over the same constant sources and configuration, agree on every node where both succeeded with all ancestors. |
| `Restart.SolidIsStillGood` | spark_dag/checkpoint_manager.py:72-106 | Over constant sources and an unchanged configuration, the fingerprint that planning computes for a node that succeeded with all its ancestors is the recorded one, and the reuse rule accepts it. |
| `Restart.ResumeKeepsWhatIsSolid` | spark_dag/orchestrator.py:402-442 | In a resumed run over constant sources and valid artifacts, without deadline or fail-fast, all nodes that succeeded with all their ancestors outside the seeds' closure form a set that the run reuses. |
| `Restart.ReusedAreSolid` | spark_dag/orchestrator.py:262-268 | Whatever a run reuses succeeded in the parent run with all its ancestors. |
| `Restart.ResumeReusesExactly` | spark_dag/orchestrator.py:402-442 | A run that has reused what `Restart.ResumeKeepsWhatIsSolid` lets it reuse has reused exactly the nodes that succeeded with all their ancestors outside the seeds' closure. |
| `Worker.ContextStays` | spark_dag/worker.py:85-111 | A worker in flight reads the statuses, outputs and parameters that its context carries. |
| `Worker.ContextStable` | spark_dag/worker.py:112-113 | The dependency proofs in its fingerprint do not change between two moments of its flight. |
| `Worker.Child.RunChild` | spark_dag/worker.py:36-176 | It ends the attempt if and only if the deployment is unchanged and the store accepts the claim after what the others did meanwhile; otherwise it raises CONFIGURATION_CHANGED or CLAIM_COLLISION and writes nothing. A fault names a failed check, never INPUT_CONTEXT_CHANGED, UNKNOWN_NODE or INVALID_REFERENCE; unless another process with the same context reported first, the final record is the fault's, or the component's outputs (a timeout past the deadline). The scope stays in order. |
| `Worker.Child.Complete` | spark_dag/worker.py:80-176 | A claimed attempt never stays RUNNING: it ends with what the component produced or with a fault that has a cause. |
| `Worker.Child.Revalidate` | spark_dag/worker.py:79-113 | The checks before the component pass only when the recomputed fingerprint is the planned one, and fail only for the deadline, an upstream output, or the sources, as the world answered in between. |
| `Worker.Child.Produce` | spark_dag/worker.py:141-163 | A success has the component's outputs, the expected ones, with the proofs of its fingerprint; without one, the deadline had passed, the component raised, or a check on its outputs or inputs failed. |
| `Worker.Child.CheckInputs` | spark_dag/worker.py:112-113 | No fault if and only if the sources can be read and the recomputed fingerprint is the planned one. |
| `Receiving.BuildDimension` | spark_dag/components.py:30-39 | Exactly complete products with unique SKUs give a dimension; it maps each SKU to its unit. |
| `Receiving.GroupByKey` | spark_dag/components.py:40-44 | Each key of the shipments with the set of its distinct versions. |
| `Receiving.ClassifyKey` | spark_dag/components.py:46-80 | All versions of one key join the class that the rules give them. |
| `Receiving.TransformPython` | spark_dag/components.py:25-81 | The accepted list holds, once each, exactly the sound rows with the value of their quantity, and the rejected list every other distinct row with the reason of its first fault, where the six faults are written out in the source's order. |
| `Receiving.ReasonIsFirstFault` | spark_dag/components.py:50-68 | A row has no reason if and only if its key is complete and has one version, its quantity shows a number from 1 to the maximum, its SKU is known, its warehouse present and its unit the dimension's; otherwise the reason is that of the first fault. |
| `Receiving.ValidShows` | spark_dag/components.py:55-61 | A quantity is valid if and only if its text is a number in range, written with at most 18 digits and any leading zeros, and its value is that number. |
| `Receiving.EachRowOnce` | spark_dag/components.py:45-81 | Every distinct row is accepted once or rejected once. |
| `Receiving.AcceptedKeysAreUnique` | spark_dag/components.py:51-54 | Accepted rows have unique keys. |
| `Receiving.ConflictsAreQuarantined` | spark_dag/components.py:51-54 | A key with two distinct versions contributes no accepted row. |
| `Receiving.OutputsIgnoreOrder` | spark_dag/artifacts.py:261-263 | Both written outputs are unchanged by permuting or duplicating the input rows. |
| `Receiving.OrderedIsUnique` | spark_dag/artifacts.py:263-263 | Two canonically ordered lists of the same rows are the same list. |
| `Aggregation.PlanReceipts` | spark_dag/components.py:220-235 | AGGREGATE_OVERFLOW exactly when some group's full total exceeds 2^63-1; otherwise one row per group with its totals. |
| `Aggregation.ListTotals` | spark_dag/components.py:235-235 | One plan row per group of the totals. |
| `Aggregation.TotalsOfOne` | spark_dag/components.py:220-235 | A row adds its quantity and one line to its own group, by warehouse, SKU and unit, and nothing to another. |
| `Aggregation.LargestTotal` | spark_dag/components.py:220-235 | The limit on a total is the largest signed 64-bit number. |
| `Aggregation.PlanConserves` | spark_dag/components.py:220-235 | Planned units and lines sum to the accepted totals. |
| `Aggregation.TotalsIgnoreOrder` | spark_dag/components.py:220-235 | Group totals do not depend on the order of the rows. |
| `Aggregation.PlanIgnoresOrder` | spark_dag/artifacts.py:261-263 | The written plan is the same for every order of the accepted rows. |
| `Summary.CriticalPath` | spark_dag/orchestrator.py:199-208 | Each table entry is the greatest total attempt time over all dependency paths ending in its node; the figure is the greatest over all paths. |
| `Summary.SumTimes` | spark_dag/orchestrator.py:199-202 | The sum of the durations of ATTEMPT_FINISHED events per node of the run. |
| `Summary.ActiveTimeAdds` | spark_dag/orchestrator.py:199-202 | An ATTEMPT_FINISHED event of the run adds its duration to its node, and no other event adds anything. |
| `Summary.BestOf` | spark_dag/orchestrator.py:205-208 | The greatest table entry, or zero for none. |
| `Summary.EntryIsLongest` | spark_dag/orchestrator.py:204-208 | The entry of a node is right when its dependencies' entries are. |
| `Summary.HistoriesAreTimed` | spark_dag/control_store.py:463-511 | In every history no finished attempt has a negative duration. |

## Left out

- Spark and Delta data operations, XML, JSON Schema, path, URI and secret checks: library semantics or input
  plumbing. Equality of the Python and the Spark classification is not claimed.
- Azure, Databricks, Fabric and subprocess calls: an executor is any process that makes calls with the contexts
  it was given; a returned attempt without a terminal record gets the executor's own report, possibly uncertain.
- Exceptions that leave the loop from elsewhere: an executor exception that `future.result()` raises again
  (spark_dag/executors.py:72-78), and one in planning that is not a workflow error, such as an `AnalysisException`
  (spark_dag/artifacts.py:351-357). They are no outcomes of `Run`; they stop a run where a crash could, at one of
  its moments.
- SQLite internals: its transactions are the atomic serial steps of `StoreHistory`; `LogProtocol` shows that the
  Delta store refines them.
- The run lease around `run`: the open run record alone refuses a second run; `guard.check()` in the loop may fail at
  any time.
- Breaking a lease by an operator, and a lease that the storage service loses by itself: a lease is exclusive
  until it is released.
- `heapq`, `sorted` and `Counter` internals: a set with a least element, a sorted list, maps with default zero.
- Telemetry, `retry_count` and reasons in records, the status counters of the summary, `normalize_request`,
  `deep_merge`, manifests, CLI, notebooks, players and benchmarks: reporting, or single-function facts.
- Notebook files, component registration and fault-injection targets in the validator: file and registry look-ups.
- Fault injection in the worker, and the comparison of business key, mode and parent in its context.
- Worker calls are interleaved at the scheduler's accesses to the store, which are its only shared accesses.
- `Scheduler.Scheduler.PlanOne`: for a planning failure the model grows `invalid` before the two store calls, the
  source after them; nothing reads `invalid` in between.
- `Scheduler.Scheduler.Submit`: in barrier mode the source blocks in `submit`; the model keeps the batch in flight
  and lets every iteration wait until all of it has returned.
- `Scheduler.Scheduler.ExecuteGraph`: it is told how many waits may pass, because the loop waits for ever if an
  executor never returns; if the executor returns everything from some tick on, enough waits end the run.
- `Worker.Child.RunChild`: the component is assumed to produce digests and row counts that are a function of the
  fingerprinted content.
- `Restart.RestartEquivalence`: parameters use only `$config` references, and the sources stay constant while the
  run and its workers read them (each run carries the relation of what it may read, its own and its workers'); both
  are what the property is about.
- `StoreInvariants.CallKeeps`: the free arguments of a call follow the repository's callers (a worker reports
  SUCCEEDED, FAILED or TIMED_OUT, a reused prior is the parent's record); contexts, callers and times are arbitrary.
- `Receiving.TransformPython`: versions of a key are visited in any order; the source sorts them by their printed
  form, which the canonical sort of the written file makes irrelevant.
- `Rules.RecordsObeyTriggers`: a condition compares parameter values as JSON, where a boolean is never a number;
  Python finds `True == 1`.
- Rounding of durations and delays: times are real numbers.
