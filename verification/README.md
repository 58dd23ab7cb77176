# Shea: a verified model of the runtime's safety core

Shea is an agent runtime whose work is authorised, executed through adapters, verified and
recorded in durable tables. This project models that core in Dafny and proves what it promises
over every run: any interleaving of calls, any reply of an adapter, an exception or a crash
between any two commits.

| part | files | what is at stake |
|---|---|---|
| transactions and audit | `Transactions`, `AuditSink`, `AuditChain` | the hash-linked audit table survives every nesting of commits, rollbacks and crashes, and its replay says exactly what was deleted or rewritten |
| execution supervisor | `AppContracts`, `AppTables`, `VerifyEngine`, `Reconcile`, `Supervisor`, `SupervisorProtocol` | at most one invocation per key, nothing runs unrecorded, ambiguity never becomes failure |
| both planes | `ToolCalls` | each tool call the lifecycle admits enters an adapter at most once, ever |
| plans | `Text`, `OperationGraph`, `PlanRunner` | cycle detection, one canonical order, resumable runs that respect it, compensation in reverse |
| task lifecycle | `Transitions`, `Lifecycle`, `LifecycleServices`, `Retry` | what several services sharing one store can never reach |
| refinement cores | `Provider`, `Permit`, `Config` | failover ranking, permit framing, layered configuration |

Conventions. A Python exception is a `Failure` or the answer `None`; a `None` value is
`Option.None`. Timestamps are integers, delays and rates are reals. A hash or a message
authentication code is a function parameter; where a proof needs it, the lemma requires it to be
injective (`CollisionFree`, `InjectiveHashes`, `Ideal`), and lemmas show that such functions exist.
`UnitOfWork` carries a ghost list of every state ever committed, so a statement about all of its
elements is a statement about every point at which the process can die. A class method that
changes state is proved against a function of the old state; the lemmas are about those functions.

Where code and documentation disagree the model follows the code:

- `cancel_task` bypasses the transition table and writes no audit row
  (`CancelTaskGoesUnaudited`).
- A security halt requested by `begin_recovery` from FAILED is always rejected by the table
  (`HaltFromFailedIsRejected`).
- An idempotency key is refused in every state it can be in, so a FAILED key is never retried
  (`KeyIsNeverFreed`), although `src/shea/execution/service.py:102-103` says that a failure may be.
  The sweep leaves the keys of crashed executions IN_PROGRESS, hence refused for good
  (`SweepSettlesEverything`).
- The audit row of a rejected transition is rolled back with an enclosing transaction
  (`RejectionIsLostInside`).
- `verified` commits before its step is marked COMPLETED. A run that finds work and leaves its task
  COMPLETED has completed every step except in one case: the last step was verified and could not
  be saved as completed (`CompletedTaskMeansCompletedSteps`, with the run itself in
  `CompletedTaskWithFailedStep`).
- The step loop leaves out steps without a tool. The completed steps are closed under dependency at
  every durable moment exactly when no step with a tool depends on one without
  (`ClosedExactlyIfToolsDependOnTools`, `ToollessDependency`).
- `begin_recovery` sweeps stuck receipts at any time, not only at startup. That never causes a second
  invocation, and a receipt may be settled even under an execution in flight, but for one window:
  receipts and attempts stay in step along everything that follows exactly when the settled receipt
  is not between its opening and its INVOKED mark (`SettlingIsSafeExactlyIfGentle`). In that window an
  invocation that did happen can stand recorded as a failure (`SweptAliveReadsFailure`).
- The lifecycle admits a call again after a FAILED record (`FailureIsLetThrough`), but under the key
  the execution service derives from it the call never reaches an adapter a second time
  (`EndedCallNeverRunsAgain`).
- An execution that never reached its adapter is reported as a success by the sweep exactly when the
  outside already looks as if it had run (`UninvokedReportedSucceeded`, `PhantomSuccess`).
- An execution admitted under one authorization can finish under, and consume, a later one, exactly
  when one was granted in between (`OvertakenExactlyIfRegranted`, `OvertakingHappens`).
- With two providers under one id, an untrusted one can be called
  (`UntrustedIsCalledExactlyIfItShadows`, `UntrustedCalled`).
- The empty capability name is indistinguishable from no capability in a permit, and a NUL can
  move between tool and action (`TwoCollisions`).

## Model

| member | source | states |
|---|---|---|
| Transactions.UnitOfWork.Enter | src/shea/persistence/sqlite/unit_of_work.py:32-34 | entering only deepens the nesting; nothing is committed |
| Transactions.UnitOfWork.Exit | src/shea/persistence/sqlite/unit_of_work.py:36-48 | only the outermost exit acts: a clean one makes the working state durable and is one more commit, a failed one restores the durable state |
| Transactions.UnitOfWork.Write | src/shea/ports/unit_of_work.py:19-26 | a statement inside a block changes the working state and no durable state |
| AuditSink.SqliteAuditSink.Record | src/shea/persistence/sqlite/audit_sink.py:24-83 | appends exactly one row, numbered and linked from the global tip whatever chain fields the caller supplied, inside a block of its own |
| AuditSink.StepKeepsSound | src/shea/persistence/sqlite/audit_sink.py:24-83 | entering, leaving, writing, recording and crashing keep both the durable and the working audit table chained, and the durable one only grows |
| AuditSink.DurableAuditVerifies | src/shea/persistence/sqlite/unit_of_work.py:7-48 | over every interleaving of nested blocks, rollbacks and crashes the durable audit table is chained and keeps every row it ever had, in place |
| AuditSink.NoRunBreaksTheAudit | src/shea/persistence/sqlite/audit_chain.py:11-107 | so the replay of the durable table after any run reports no break |
| AuditChain.VerifyAuditChain | src/shea/persistence/sqlite/audit_chain.py:36-107 | the replay loop reports exactly the breaks of its reference definition, counts every row, and says valid exactly for the chained tables |
| AuditChain.NoBreaksIffChained | src/shea/persistence/sqlite/audit_chain.py:42-107 | no break is reported exactly when every row is numbered by its rank and linked to its predecessor |
| AuditChain.AppendedIsChained | src/shea/persistence/sqlite/audit_sink.py:24-83 | appending an event to a chained table keeps it chained |
| AuditChain.TipFixesTable | src/shea/audit/chain.py:14-59 | two valid tables with the same tip hash are identical row for row, length included |
| AuditChain.TipFixesPrefix | src/shea/audit/chain.py:14-59 | equal hashes anywhere in two valid tables pin equal prefixes |
| AuditChain.SurvivorReport | src/shea/persistence/sqlite/audit_chain.py:42-102 | after deleting any set of rows, a surviving row reports a gap and a broken link exactly when its predecessor is gone, and nothing otherwise |
| AuditChain.SubTableValidIffPrefix | src/shea/audit/chain.py:31-40 | what deletion leaves verifies exactly when it is a prefix: only cutting the tail goes unnoticed |
| AuditChain.DeletedBlockReport | src/shea/persistence/sqlite/audit_chain.py:42-102 | deleting a contiguous block that is not the tail yields exactly two breaks, a gap and a broken link, with no cascade |
| AuditChain.RewrittenRowReport | src/shea/persistence/sqlite/audit_chain.py:42-102 | rewriting one row's content is reported at that row, or at the next one's link when its hash was recomputed, and goes unseen only for a recomputed last row |
| AuditChain.CollisionFreeSchemeExists | src/shea/audit/chain.py:11-59 | the assumption made on the hash can be met |
| VerifyEngine.EvaluateVerification | src/shea/app/verify_engine.py:51-167 | the loop over postconditions yields the closed-form verdict; findings are empty exactly when the evidence suffices and every required postcondition shows |
| VerifyEngine.SuccessIsEarned | src/shea/app/verify_engine.py:65-151 | unless missing evidence counts as success, the verdict is success exactly when success was reported, shown and sufficiently evidenced |
| Reconcile.LostInvocationIsNeverAFailure | src/shea/app/reconcile/registry.py:20-45 | for any registry of the five reconcilers the source defines, in any order and any outside world, a crashed INVOKED attempt is observed as success or unknown, never failure |
| Reconcile.SelectSupports | src/shea/app/reconcile/registry.py:20-24 | the selected reconciler supports the receipt |
| Reconcile.UninvokedReportedSucceeded | src/shea/app/reconcile/filesystem.py:22-99 | an attempt that never invoked is observed as a success exactly when the outside already looks done |
| Reconcile.PhantomSuccess | src/shea/app/reconcile/filesystem.py:22-99 | such an input: a write that never started, to a file that was there before |
| AppTables.ReconciledIsSound | src/shea/app/supervisor.py:317-390 | settling one receipt keeps every receipt in step with its attempt, finalises that receipt and touches no other, no key and no settled receipt |
| AppTables.LostAttemptSettles | src/shea/app/supervisor.py:335-353 | a receipt whose attempt was INVOKED settles as success or unknown |
| AppTables.SettledAttempt | src/shea/app/supervisor.py:344-356 | settling finalises the one attempt and keeps its identity |
| AppTables.SweptIsSound | src/shea/app/supervisor.py:392-397 | a sweep over any list of receipts finalises all of them and keeps keys and settled receipts as they were |
| AppTables.SweepSettlesEverything | src/shea/app/supervisor.py:392-397 | the startup sweep leaves nothing unfinalised, so a second sweep has nothing to do; idempotency keys are untouched |
| AppTables.UnfinalizedListsAll | src/shea/persistence/sqlite/app_receipt_repository.py:83-88 | the listing holds exactly the stored receipts that are not finalised |
| AppTables.OpenedShape | src/shea/app/supervisor.py:176-181 | the opening commit adds exactly one receipt, ATTEMPTING, with one CREATED attempt, and holds the key |
| AppTables.MarkedShape | src/shea/app/supervisor.py:219-222 | the second commit turns that attempt, and nothing else, INVOKED |
| AppTables.FinalizedShape | src/shea/app/supervisor.py:288-307 | the last commit finalises receipt and attempt with one outcome, whatever a sweep made of them before |
| AppTables.FinalizedKey | src/shea/app/supervisor.py:452-476 | and gives the key the matching terminal state |
| Supervisor.ExecutionSupervisor.EnsureAdapter | src/shea/app/supervisor.py:124-129 | the adapter replaces the first of its name in place, or is registered last when there is none |
| Supervisor.ExecutionSupervisor.SelectAdapter | src/shea/app/supervisor.py:497-509 | the preferred backend when it is registered and supports the contract, else the first that does, else none |
| Supervisor.ExecutionSupervisor.ReserveIdempotency | src/shea/app/supervisor.py:399-429 | reserves, in one commit, exactly the keys without a row; every existing row refuses, whatever its state, and changes nothing |
| Supervisor.ExecutionSupervisor.Accept | src/shea/app/supervisor.py:131-137 | validation, adapter and reservation in that order; nothing is committed for a refused contract |
| Supervisor.ExecutionSupervisor.Open | src/shea/app/supervisor.py:153-184 | receipt, attempt and key binding become durable in one commit, and the receipt can be read back |
| Supervisor.ExecutionSupervisor.Invoke | src/shea/app/supervisor.py:219-307 | the adapter is called once, when the INVOKED mark is durable; the final outcome is the verdict on the reply, or nothing more is committed when the process dies |
| Supervisor.ExecutionSupervisor.Proceed | src/shea/app/supervisor.py:139-315 | after the reservation: the ending, the commits in order, and at most one call |
| Supervisor.ExecutionSupervisor.Finish | src/shea/app/supervisor.py:276-307 | attempt, receipt, verification and key are finalised in one commit |
| Supervisor.ExecutionSupervisor.Execute | src/shea/app/supervisor.py:131-315 | for every contract and every reply: how it ends, exactly which states become durable and in which order, and that the adapter is called once or not at all |
| Supervisor.ExecutionSupervisor.ReconcileReceipt | src/shea/app/supervisor.py:317-390 | settles one known receipt in at most one commit, calling no adapter |
| Supervisor.ExecutionSupervisor.ReconcileStuck | src/shea/app/supervisor.py:392-397 | the sweep settles exactly the listed receipts, leaves none unfinalised and calls no adapter |
| SupervisorProtocol.StepKeepsDisjoint | src/shea/app/supervisor.py:399-429 | every step of every interleaving, sweeps at any time included, keeps executions and invocations apart in receipt and key |
| SupervisorProtocol.StepKeeps | src/shea/app/supervisor.py:131-315 | every step, an abort, a crash or a sweep of live receipts included, keeps receipts, attempts, keys, executions in flight and past invocations consistent; the one exception is settling a receipt between its opening and its INVOKED mark |
| SupervisorProtocol.SettlingIsSafeExactlyIfGentle | src/shea/recovery/service.py:209-210 | after a settling, receipts and attempts stay in step along every run that goes on without that exception exactly when the settling was not it |
| SupervisorProtocol.SweptAliveReadsFailure | src/shea/recovery/service.py:209-210 | a run with that exception, after which an invocation that happened stands as a failure |
| SupervisorProtocol.RunKeeps | src/shea/app/supervisor.py:131-315 | hence every such run does |
| SupervisorProtocol.AtMostOnce | src/shea/app/supervisor.py:399-429 | over every run, with sweeps at any time, the adapter is invoked at most once for a receipt and at most once for an idempotency key |
| SupervisorProtocol.NothingRunsUnrecorded | src/shea/app/supervisor.py:153-222 | at every moment each durable receipt has exactly one attempt in step with it, and every invocation ever made shows as INVOKED or FINALIZED |
| SupervisorProtocol.RecordedBeforeInvoked | src/shea/app/supervisor.py:219-224 | an adapter is entered only when its one attempt is durably past CREATED; in runs whose sweeps leave live receipts alone, only while the receipt is open and the attempt INVOKED |
| SupervisorProtocol.AmbiguityIsNeverFailure | src/shea/app/supervisor.py:241-264 | a reply that proves nothing, one that says UNKNOWN, or none at all, never ends as a failure or a cancellation under any verification policy, crash or sweep but for that exception |
| SupervisorProtocol.AmbiguousIsVerifiedUnknown | src/shea/app/verify_engine.py:65-151 | under every policy and evidence such a reply is verified as UNKNOWN |
| SupervisorProtocol.AmbiguityEndsUnknown | src/shea/app/supervisor.py:224-297 | in every run without a sweep its receipt is open or finalised as UNKNOWN |
| SupervisorProtocol.KeyIsNeverFreed | src/shea/persistence/sqlite/app_idempotency_repository.py:50-67 | once a key is taken and no execution that reserved it is in flight, no later request under it reaches an adapter, in any continuation |
| SupervisorProtocol.EndRetires | src/shea/app/supervisor.py:452-476 | an execution that reserved a key leaves it in that state however it ends: finished with any outcome, aborted or killed |
| SupervisorProtocol.SweepIsARun | src/shea/app/supervisor.py:392-397 | the sweep is a run of the protocol's settling steps |
| SupervisorProtocol.StartupSweepSettlesAll | src/shea/app/supervisor.py:392-397 | after any such run that leaves nothing in flight, the sweep finalises every receipt, changes no settled one and invokes nothing |
| SupervisorProtocol.ExecuteIsARun | src/shea/app/supervisor.py:131-315 | one `Execute` is a run of the protocol with the same tables, the same call and the same ending |
| ToolCalls.EachToolCallRunsOnce | src/shea/execution/service.py:240-249 | over every run of both planes nothing but tool calls enters an adapter, and each task, tool, action and arguments at most once, ever |
| ToolCalls.RefusedExactlyIfRepeated | src/shea/recovery/idempotency.py:12-30 | under an injective key derivation an execution is refused at its reservation exactly when that same call was reserved before |
| ToolCalls.FailureIsLetThrough | src/shea/execution/service.py:250-276 | a FAILED record does not suppress a repetition in the lifecycle |
| ToolCalls.EndedCallNeverRunsAgain | src/shea/execution/service.py:102-103 | once the execution of a call is over, no recovery, grant or admission lets it reach an adapter again |
| Text.Sort | src/shea/execution/operation_graph.py:65-79 | sorting a set of ids yields its one ascending listing |
| OperationGraph.TopologicalOrder | src/shea/execution/operation_graph.py:65-79 | the deleting loop returns the layered order of its reference definition exactly when every node settles, and raises otherwise |
| OperationGraph.Validate | src/shea/execution/operation_graph.py:56-63 | passes exactly the plans without unknown dependencies and without a cycle, and tells the two apart |
| OperationGraph.ResolvableIffAcyclic | src/shea/execution/operation_graph.py:65-79 | with known dependencies, an order exists exactly when the dependency relation has no cycle |
| OperationGraph.LevelIsLongestChain | src/shea/execution/operation_graph.py:65-79 | the layer of a node is the length of its longest dependency chain |
| OperationGraph.OrderMeaning | src/shea/execution/operation_graph.py:65-79 | the order lists every node once, strictly ascending by (longest chain, id), so nothing precedes what it depends on, however indirectly |
| OperationGraph.RankSortedIsUnique | src/shea/execution/operation_graph.py:65-79 | only one listing of the nodes is ascending in that sense |
| OperationGraph.ListingDoesNotMatter | src/shea/execution/operation_graph.py:30-54 | two listings of the same uniquely named nodes give the same graph, hence the same order |
| OperationGraph.OrderedNodes | src/shea/execution/operation_graph.py:65-79 | the returned nodes put dependencies first |
| OperationGraph.CompensationChain | src/shea/execution/operation_graph.py:81-89 | exactly the compensable nodes ordered before the failed one, reversed; dependents come before what they depend on |
| OperationGraph.ChainUndoesDependentsFirst | src/shea/execution/operation_graph.py:81-89 | reversing any dependency-respecting prefix undoes dependents first |
| PlanRunner.StepsInOrder | src/shea/execution/plan_runner.py:91-102 | the executable steps are those with a tool, in topological order, and there is an order exactly when the plan resolves |
| PlanRunner.PlanRunner.SetStepState | src/shea/execution/plan_runner.py:242-243 | one commit that changes one step's state, or nothing when saving fails; the history of durable moments stays lawful |
| PlanRunner.PlanRunner.Attempt | src/shea/execution/plan_runner.py:134-199 | the step up to its verification: confirmed exactly when every service agrees; otherwise the task is not COMPLETED; no step is completed by it |
| PlanRunner.PlanRunner.RunStep | src/shea/execution/plan_runner.py:121-212 | a step ends completed, failed or with an unsaved failure exactly as its services and saves behave; one that is not completed leaves the task COMPLETED exactly when it was the last, was verified and was not saved |
| PlanRunner.PlanRunner.Run | src/shea/execution/plan_runner.py:80-240 | completes exactly the pending steps before the first that does not go through, marks that one failed, refuses a task that is not READY, and says exactly when it leaves the task COMPLETED |
| PlanRunner.CompletedTaskMeansCompletedSteps | src/shea/execution/plan_runner.py:194-209 | a run that leaves its task COMPLETED has completed every step unless exactly the last one was verified and could not be saved |
| PlanRunner.CompletedTaskWithFailedStep | src/shea/execution/plan_runner.py:194-209 | that case, run: a COMPLETED task with a FAILED step |
| PlanRunner.PendingIsTail | src/shea/execution/plan_runner.py:112-114 | the pending indices are a tail of the order |
| PlanRunner.OrderOfMeaning | src/shea/execution/plan_runner.py:91-102 | the executable order lists every step with a tool once, none before one it depends on |
| PlanRunner.HistoriesBegin | src/shea/execution/plan_runner.py:80-90 | a plan that has not run starts a lawful history |
| PlanRunner.CrashLeavesAHistory | src/shea/execution/plan_runner.py:80-240 | a crash cuts a history off at a moment from which a run may resume |
| PlanRunner.CompletedStays | src/shea/execution/plan_runner.py:112-114 | over all runs, resumes and crashes a completed step stays completed |
| PlanRunner.DependenciesComeFirst | src/shea/execution/plan_runner.py:121-212 | at every durable moment whatever a completed step depends on, directly or not, is completed, and a step starts only when all of that is |
| PlanRunner.ClosedExactlyIfToolsDependOnTools | src/shea/execution/plan_runner.py:95-102 | the completed steps are closed under dependency at every moment of every history exactly when no step with a tool depends on one without |
| PlanRunner.FinishedPlanIsClosed | src/shea/execution/plan_runner.py:95-102 | the same equivalence at the moment when a run has completed every step |
| PlanRunner.ToollessDependency | src/shea/execution/plan_runner.py:95-102 | two steps for which it fails |
| Transitions.TerminalMeansStuck | src/shea/state_machine/transitions.py:7-73 | no event leads out of a terminal state, and one leads out of every other |
| Transitions.CompletionIsEarned | src/shea/state_machine/transitions.py:18-73 | every legal trace to COMPLETED ends authorize_and_run, execution_complete, verified |
| Retry.DelayIsBounded | src/shea/recovery/retry.py:21-34 | no delay exceeds the cap; delays are non-negative exactly when the initial delay and the cap are |
| Retry.BackoffNeverShrinks | src/shea/recovery/retry.py:21-34 | without jitter, delays never shrink exactly when they are constant or the initial delay is not negative |
| Retry.JitterStaysNear | src/shea/recovery/retry.py:21-34 | jitter keeps a delay within half of its base, and under the cap |
| Retry.TotalIsBounded | src/shea/recovery/retry.py:18-34 | capped delays within a budget add up to at most budget times cap |
| Retry.RecoveryNeverBroadens | src/shea/recovery/authority.py:52-122 | a derived authority permits an operation exactly when the grant was given, is unexpired, covers the capabilities and leaves budget |
| Lifecycle.StepKeeps | src/shea/decision/service.py:192-232 | every commit of every service, a stale caller's included, keeps each stored task's rows, state and audited moves consistent |
| Lifecycle.RunKeeps | src/shea/execution/service.py:418-472 | hence every run of any mix of services and crashes does |
| Lifecycle.NothingIsMissing | src/shea/execution/service.py:229-290 | RUNNING implies a decision and an unused latest authorization, VERIFYING a latest record of success, RECOVERING an attempt, COMPLETED a verified success; the matching errors cannot be raised |
| Lifecycle.RowsOnlyGrow | src/shea/persistence/sqlite/authorization_repository.py:27-80 | decisions, records and verifications are only appended; an authorization row keeps its grant and an attempt row its number and delay, and a used authorization stays used |
| Lifecycle.StaleCallersMissNothing | src/shea/verification/service.py:88-94 | nor can those errors be raised for a caller whose task object was read at any earlier moment |
| Lifecycle.RecordsInjectIntoGrants | src/shea/execution/service.py:418-472 | records inject into authorizations, one is used exactly when a success was recorded under its nonce, and authorize_and_run moves equal authorization rows |
| Lifecycle.RecordsAreBound | src/shea/execution/service.py:483-554 | under injective hashes a recorded request has the tool of the authorised step and the authorised arguments |
| Lifecycle.OvertakenExactlyIfRegranted | src/shea/execution/service.py:454-462 | a record is saved under the authorization it was checked against exactly when none was granted in between |
| Lifecycle.OvertakingHappens | src/shea/execution/service.py:454-462 | a run in which an execution succeeds under, and uses up, the second of two authorizations while the one it was checked against stays unused |
| Lifecycle.RecoveryStaysInBudget | src/shea/recovery/service.py:209-275 | persisted attempts are numbered 1..k with k within the budget, delays stay between zero (for a non-negative policy) and the cap, and the entries into RECOVERING together with those still owed by processes between their two commits are at most k, whatever happens in between |
| Lifecycle.BeginRecoveryIsTwoSteps | src/shea/recovery/service.py:249-275 | one call that lives is the two steps of the interleaved model in turn; one that dies between them is the first |
| Lifecycle.WaitIsBounded | src/shea/recovery/service.py:247-260 | so in every reachable store all waits of a task together are at most the budget times the cap |
| Lifecycle.AuditTellsTheState | src/shea/core/orchestrator.py:62-165 | without cancel_task, folding the audited transitions from CREATED gives the stored state, and a completed trace ends as it must |
| Lifecycle.CancelTaskGoesUnaudited | src/shea/core/orchestrator.py:167-183 | cancel_task keeps that exactly when it does nothing |
| Lifecycle.RejectionIsLostInside | src/shea/core/orchestrator.py:104-119 | a rejected move is recorded by advance alone, and undoes the whole of any transaction it ends, its own row included |
| Lifecycle.RejectedGrantsLeaveNothing | src/shea/decision/service.py:192-232 | so a grant or a conclusion out of state leaves no trace |
| Lifecycle.RejectedVerdictsLeaveNothing | src/shea/verification/service.py:106-148 | nor does a verification or a resolution |
| Lifecycle.HaltFromFailedIsRejected | src/shea/recovery/service.py:237-238 | a halt strategy leaves the stored task FAILED, with a rejection row exactly when the guards before it pass |
| LifecycleServices.Orchestrator.CreateTask | src/shea/core/orchestrator.py:62-87 | the new row and its audit row commit together |
| LifecycleServices.Orchestrator.Advance | src/shea/core/orchestrator.py:95-140 | moves exactly along the table with one audit row, records an illegal event and moves nothing, at any nesting depth |
| LifecycleServices.Orchestrator.AttachPlan | src/shea/core/orchestrator.py:142-165 | sets the plan and leaves the state |
| LifecycleServices.Orchestrator.CancelTask | src/shea/core/orchestrator.py:167-183 | cancels outside the table and without an audit row unless the state is one of five |
| LifecycleServices.Orchestrator.Finish | src/shea/ports/unit_of_work.py:19-26 | what a transaction prepared commits together with its final move or not at all |
| LifecycleServices.DecisionService.EvaluateAndAuthorize | src/shea/decision/service.py:121-314 | decision, authorization and the move to RUNNING commit together, exactly when the policy and the confirmation rule approve and the move is legal |
| LifecycleServices.ExecutionService.VerifyBinding | src/shea/execution/service.py:483-554 | passes exactly when the latest authorization is unused, unexpired and matches plan, step and arguments; otherwise names the first mismatch |
| LifecycleServices.ExecutionService.Admit | src/shea/execution/service.py:229-290 | the checks before the adapter, in order, with the error of the first that fails |
| LifecycleServices.ExecutionService.Conclude | src/shea/execution/service.py:418-472 | record, one-shot use of the latest authorization on success and the move commit together or not at all |
| LifecycleServices.VerificationService.Verify | src/shea/verification/service.py:82-149 | verification record and its move commit together or not at all |
| LifecycleServices.RecoveryService.BeginRecovery | src/shea/recovery/service.py:211-275 | the guards in order, each with its own error, then the attempt and the move in two commits with a crash possible between |
| LifecycleServices.RecoveryService.ResolveRecovery | src/shea/recovery/service.py:277-334 | the attempt's resolution and the move commit together or not at all |
| LifecycleServices.RecoveryService.ResolveBlocked | src/shea/recovery/service.py:356-385 | a blocked task is resumed or cancelled within the inherited authority |
| LifecycleServices.RecoveryService.ReconcileStrandedTasks | src/shea/recovery/service.py:412-444 | the sweep moves each listed task as its state demands |
| LifecycleServices.SweepStrandsNothing | src/shea/recovery/service.py:412-444 | after it every listed task is failed, blocked, finished or STABILIZING, and no other changed |
| LifecycleServices.SweepSettlesTheStore | src/shea/persistence/sqlite/task_repository.py:66-75 | a sweep over a list that misses no unsettled task leaves none in the store, STABILIZING apart |
| Provider.HealthTracker.Record | src/shea/provider/health.py:44-47 | the window is the last window_size outcomes of the whole history |
| Provider.HealthCountsFailures | src/shea/provider/health.py:49-61 | a provider is UNAVAILABLE or DEGRADED exactly when failures make up at least that threshold's share of its window |
| Provider.SuccessesHeal | src/shea/provider/health.py:49-61 | a window of successes makes a provider HEALTHY whatever it did before |
| Provider.RankingSorts | src/shea/provider/router.py:48-66 | the ranking is sorted by (preference, health) and is a permutation of the candidates |
| Provider.RankingIsStable | src/shea/provider/router.py:48-66 | providers of equal rank keep their registration order |
| Provider.EligibleArePassing | src/shea/provider/router.py:24-46 | ranked are exactly the listed providers that pass every filter |
| Provider.Route | src/shea/provider/router.py:24-66 | the filtering loop and the sort compute that ranking |
| Provider.ProviderRoutingService.ById | src/shea/provider/service.py:164-167 | the first registered provider with that id |
| Provider.ProviderRoutingService.Ask | src/shea/provider/service.py:108-137 | one outcome is recorded with one provider, and no other tracker changes |
| Provider.ProviderRoutingService.Generate | src/shea/provider/service.py:68-146 | the answer is that of the first provider to succeed in the ranking, within the budget; each one asked records exactly its outcome |
| Provider.OnlyThePassingAreCalled | src/shea/provider/service.py:101-107 | with unique ids the provider called is the one ranked, so never an untrusted one, nor a remote one under local-only |
| Provider.UntrustedIsCalledExactlyIfItShadows | src/shea/provider/service.py:164-167 | without unique ids an untrusted provider is in line to be called exactly when it is registered first under the id of a passing one |
| Provider.UntrustedCalled | src/shea/provider/service.py:164-167 | such a registration |
| Provider.OneOutcomeEach | src/shea/provider/service.py:101-137 | with unique ids every provider asked records exactly the outcome of its own attempt, and every other records nothing |
| Provider.OrderIsUnique | src/shea/provider/service.py:84-103 | with unique ids no provider is asked twice in a request |
| Permit.Mint | src/shea/execution/permit.py:44-62 | the token is the code over the framed fields, capabilities in canonical order |
| Permit.Verify | src/shea/execution/permit.py:64-78 | accepts exactly when minting again gives the same token |
| Permit.MessageIsFramed | src/shea/execution/permit.py:54-55 | for all inputs two messages agree exactly when the digests agree and tool and action agree once joined |
| Permit.JoinIsInjective | src/shea/execution/permit.py:39-42 | joining names that are not empty and hold no NUL loses nothing |
| Permit.JoinedIsInjective | src/shea/execution/permit.py:39-42 | the canonical form tells capability sets of such names apart |
| Permit.AcceptedExactlyIf | src/shea/execution/permit.py:64-78 | for all inputs a minted permit is accepted exactly when arguments, joined capabilities and joined tool and action agree |
| Permit.AcceptedForTheMintedCallAlone | src/shea/execution/permit.py:64-78 | for NUL-free tools and clean capability names, exactly for the minted tool, action, arguments and capabilities |
| Permit.TwoCollisions | src/shea/execution/permit.py:39-62 | two pairs of different calls that share a permit |
| Permit.IdealCryptoExists | src/shea/execution/permit.py:33-62 | the assumptions made on the hashes can be met |
| Config.ConfigResolver.Resolve | src/shea/config/resolver.py:33-43 | an invariant key is what SYSTEM says; any other is what the most specific layer defining it says; else the default |
| Config.ConfigResolver.EffectiveConfig | src/shea/config/resolver.py:45-64 | for any number of layers the dictionary holds for every key exactly what the lookup rule gives |
| Config.ConfigResolver.SetLayerValue | src/shea/config/resolver.py:66-67 | changes one key of one layer |
| Config.DictionaryAgrees | src/shea/config/resolver.py:33-64 | the rule leaves exactly one dictionary, and looking a key up in it with any default is resolving it |
| Config.InvariantsAreInert | src/shea/config/resolver.py:33-43 | a write to a layer other than SYSTEM never changes a security invariant |
| Config.InvariantsOutliveWrites | src/shea/config/resolver.py:33-67 | nor does any sequence of such writes |
| Config.WriteShows | src/shea/config/resolver.py:33-67 | a write to an ordinary key changes that key alone and shows unless a more specific layer defines it |
| Config.SixLayers | src/shea/config/layers.py:23-29 | over the six layers a SESSION value always shows and a SYSTEM value only where no other layer defines the key |

## Left out

- SQL text, JSON encoding, SHA-256 internals, NULL handling and datetime parsing: rows are records,
  hashes are injective parameters, timestamps are integers.
- The row of an attempt is found by its receipt and its id; two receipts never share an attempt id,
  because the id generator does not repeat itself.
- Supervisor.ExecutionSupervisor.Execute: called outside any transaction, as the runtime does; inside
  an outer block the first three commits would not be durable before the adapter runs.
- The identity, scope and expiry checks of an execution are answers of the surroundings; adapters may
  reply in any way but are not modelled further; the error text and the content hash of evidence are dropped.
- Postconditions and payload entries that are lists are modelled only by their length.
- Reconcile.LostInvocationIsNeverAFailure: covers the reconcilers the source defines; a registry also
  accepts others, about which nothing can be said.
- LifecycleServices.RecoveryService.BeginRecovery: does not include the sweep of stuck receipts that
  opens it, which touches other tables (`Supervisor.ExecutionSupervisor.ReconcileStuck`).
- LifecycleServices.RecoveryService.ReconcileStrandedTasks: takes the listing of transient tasks as a
  parameter, because creation times are not modelled; the sweep of receipts before it is separate too.
- The read and the save of a stand-alone `advance` are one step: two processes that read the same
  state and both save are not modelled.
- Service audit rows other than the orchestrator's, events, metrics and messages.
- Execution outcomes other than success, failure and unknown: the execution service raises on them
  and concludes nothing.
- In `ToolCalls` the outcome a lifecycle record carries is not tied to the reply of the execution it
  belongs to; the results hold for every outcome.
- The duplicate check of the execution service looks records up by tool, action and arguments
  directly instead of by a digest of them.
- Profile isolation of authorizations: the decision service never passes a profile on, so every
  authorization carries the default one and the check cannot fail.
- The recovery planner's choice of strategy is a parameter (halt, abort or proceed).
- Counting the attempts of a recovery and saving the next one are one step.
- PlanRunner.PlanRunner.Run: returns the task state that is durable and tests READY on it; the source
  returns and tests the last task object a service handed back, which is stale after an exception.
- PlanRunner.PlanRunner.RunPending: compensation after a failed step is not executed in the model; only the
  order of the chain is.
- Provider preference matching (case folding and substring search) is a predicate of the provider id.
- Rounding of floating-point rates and delays: both are reals.
- ExecutionPermit comparison in constant time: only its result is modelled.
- HTTP, command line, user interface, extension hosts, memory and language-model prompting.
- Policy tables, risk tables, path, URL and DNS checks: finite case tables and library calls.
