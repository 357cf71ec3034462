# Repo Wrangler: verified model

A Dafny model of the parts of Repo Wrangler whose correctness spans several functions, several writers
or several processes, with machine-checked proofs of what they keep.

- **Governed upgrades.** The 14-state lifecycle, its breadth-first search and its evidence gates
  (`Lifecycle`, over the generic `ShortestPath`); the rows behind it (`UpgradeTables`, `Evidence`); the
  protocol as a machine in which any number of request handlers, transitions and observations interleave
  one SQL statement at a time, fail and die (`UpgradeProtocol`); the store as a class whose log replays to
  its rows (`UpgradeStore`); the polling loop, the request handler and the protected actions
  (`UpgradeApi`, `UpgradeRequests`), with the gates of every governed path (`GovernedGates`); what API calls can do
  about the lock (`UpgradeRecovery`); what the store does not promise, one call at a time (`UpgradeLimits`) and
  interleaved (`UpgradeConcurrency`, with three runs in `UpgradeScenes`); what requests are answered
  (`UpgradeReplies`); a whole upgrade and a harmful failure
  (`UpgradeRuns`); the error a job shows (`UpgradeErrors`); and the proof that a worker of the machine left
  alone does what the store and the request handler do (`UpgradeSerial`).
- **The estate store.** The sync-job queue as a class (`SyncQueue`) and as a machine of enqueuers, claimers and
  holders (`SyncProtocol`), with its exclusion, its duplicates, its back-off and its runs (`SyncExclusion`,
  `SyncDuplicates`, `SyncBackoff`, `SyncScenes`); repositories, identities, budgets and attributions
  (`EstateTables`, `EstateIdentity`, `EstateBudgets`, `EstateRuns`, `EstateInheritance`, and the class in `Estate`);
  checkpointed discovery (`Discovery`, `DiscoveryRuns`); billing periods (`SourceKeys`, `UsageLedger`,
  `UsagePeriods`).
- **Printers and a fast form.** PKCS#8 wrapping (`Pkcs8`), CSV exports (`CsvExport`), and the counted
  default-branch status against the list-based one (`BranchStatus`, `BranchTable`).

`dafny verify dfyconfig.toml` checks everything.

## How to read it

Code that works on rows is a class whose methods issue the same statements in the same order; each method
ensures that the stored rows are a specification function of the old rows, and the lemmas prove what that
function keeps, over single calls and whole runs. Functions marked ghost contain a query (`SELECT ... LIMIT 1`).
In the concurrent machines (`UpgradeProtocol`, `SyncProtocol`) a worker's constructor names the statement it
is about to execute. A poll or an action of the API appears there as the transition or observation workers it
starts; any worker may stop for good, and any statement may fail without effect.

## Where the code does less than it seems to promise

- Two upgrade jobs can be unfinished at once: a rollback may start beside a new job, and a new job beside a
  rollback (runs: `UpgradeLimits.RollbackBesideANewJob`, `UpgradeLimits.NewJobBesideARollback`; exactly when,
  `UpgradeLimits.OneUnderWayExactlyWithoutCollisions` and, for any interleaving,
  `UpgradeConcurrency.OneUnderWayExactlyWithoutCollidingSteps`). What is unique is the job in a forward state.
- A stored job need not have the evidence its state demands. An observation is not gated, and a transition is gated
  on the row its worker read: one that brings no evidence keeps what is stored when it commits (runs:
  `UpgradeLimits.ObservationMayBreakTheGate`, `UpgradeScenes.ValidationWithoutBackup`; exactly when,
  `UpgradeConcurrency.GatedExactlyWithoutUngating`). Without interleaving the gate holds at every commit of a
  transition (`UpgradeStore.EveryCommitPassedItsGate`).
- A request can be answered with the job of another request for the same key but another actor or target, because
  only the first look-up compares them (run: `UpgradeScenes.RivalIsAnswered`; exactly when,
  `UpgradeReplies.AnswersAreTrueExactly`).
- A transition compares the state only, so it can overwrite an observation (run:
  `UpgradeScenes.ObservationGetsLost`; exactly which fields, `UpgradeProtocol.TransitionKeepsField`).
- Evidence that passes the gate of a reported state is not always enough for a poll to record it: exactly the
  rollbacks reported during validation need evidence for a deployment as well
  (`GovernedGates.GateSufficesExactlyWithoutDetour`, `GovernedGates.PollReachesExactly`).
- A job can keep the lock so that no API call ever frees it: exactly a job that is not polled any more and has no
  rollback available (`UpgradeRecovery.FreedExactlyWhenRecoverable`). A refused first call leads there, and so does
  a reported failure (`UpgradeRecovery.ReportedFailureMayStick`).
- Two holders can share a sync job: exactly when one claims it from another that has been at work for more than ten
  minutes (run: `SyncScenes.TwoHoldersOfOneJob`; `SyncExclusion.ExclusiveExactlyWithoutTakeovers`). A late outcome
  can reopen a finished job (run: `SyncScenes.DoneJobIsReopened`; exactly when,
  `SyncExclusion.FinalExactlyUntilReopened`).
- Enqueueing can duplicate work (run: `SyncDuplicates.RacingEnqueuesDuplicate`; exactly when,
  `SyncDuplicates.UniqueExactlyWithoutDuplicates`).
- The back-off of a sync job binds its selection, not its claim (run: `SyncScenes.ClaimMayPrecedeBackoff`; exactly
  when, `SyncBackoff.ClaimRespectsBackoff`).
- A stale direct attribution can survive (run: `EstateRuns.StaleDirectAttribution`; exactly when,
  `EstateRuns.PutRepoKeepsExact`).
- A resource with two rows keeps both listed when it is seen again where its identity points
  (`EstateIdentity.DuplicateMayStay`; exactly when, `EstateIdentity.TwoRowsConverge`).
- A shared budget that had resolved to a repository is inherited by nobody after that repository moves away (run:
  `EstateInheritance.BudgetIsStranded`; exactly when, `EstateInheritance.SpreadExactlyWithoutStranding`).
- A discovery entry re-recorded under another workspace id hands over its completed flag
  (`Discovery.UnstableRunsNeedNotBe`; exactly when, `DiscoveryRuns.HonestExactlyWithoutRepointing`). The collectors
  do not do this: they take the id from the upsert keyed by connection and external id
  (packages/persistence-d1/src/workspaces.ts:20-79), so their runs are stable (`DiscoveryRuns.CollectorsAreStable`).
- A source key does not identify fields that contain its separator (exactly: `SourceKeys.KeyIdentifiesPlainFields`).
- Replacing a billing period can fail, because the constraint on (workspace, date, product, sku, repository) of
  the first migration was never dropped (`UsageLedger.OlderConstraintBites`; exactly when,
  `UsageLedger.UpsertAllIsLastWins`), and a reused run id leaves rows behind (`UsageLedger.ReusedRunLeavesRows`).
- Length octets are wrong from 2^31 on (`Pkcs8.DerLengthIsRightBelowTheBound`).

## Model

| member | source | states |
|---|---|---|
| ShortestPath.Search | packages/domain/src/upgrades.ts:57-77 | over any finite graph the search ends with the first shortest walk, and with the empty path exactly when the target is the start or unreachable |
| ShortestPath.SearchResultIsShortest | packages/domain/src/upgrades.ts:57-77 | no walk to the target is shorter than the result |
| ShortestPath.SearchResultUnique | packages/domain/src/upgrades.ts:65-73 | the order of listed successors makes the result unique |
| Lifecycle.UpgradeJobTransitionPath | packages/domain/src/upgrades.ts:56-77 | the search on the lifecycle graph returns the governed path |
| Lifecycle.DirectTransitionIsGovernedPath | apps/worker/src/api/upgrades.ts:323-325 | taking an allowed transition directly agrees with searching for it |
| Lifecycle.NoSelfTransition | packages/domain/src/upgrades.ts:32-54 | no state follows itself |
| Lifecycle.MissingUpgradeSafetyEvidence | packages/domain/src/upgrades.ts:187-218 | the list names, in the order of the source, exactly the safeguards the next state demands and the evidence lacks; it is empty exactly when the fields the state demands are there |
| Lifecycle.GateMeans | packages/domain/src/upgrades.ts:187-218 | a gate passes if and only if the sections of the evidence have the demanded fields: truthy flags and ids, the digest of the target in artifact and deployment, and 100 percent of the traffic |
| Lifecycle.ReleaseMeans | packages/domain/src/upgrades.ts:176-184 | the lock is let go exactly at completion, cancellation, rollback, or a failure with productionPreserved true and a verification time |
| Lifecycle.TableMeans | packages/domain/src/upgrades.ts:32-47 | which transitions are allowed: along the chain, to failure from every unfinished state, to a cancellation only before the backup, to a rollback from deployment on |
| Lifecycle.NothingMissing | packages/domain/src/upgrades.ts:187-218 | an exact list of missing safeguards is empty if and only if the gate passes |
| Lifecycle.TransitionsKeepPhase | packages/domain/src/upgrades.ts:32-47 | no transition goes back in phase, forward states are entered only from forward states, and gates only accumulate along the chain |
| Lifecycle.PhaseGrows | packages/domain/src/upgrades.ts:32-47 | the phase grows along every history |
| Lifecycle.NoCancelAfterBackup | packages/domain/src/upgrades.ts:32-47 | no history contains a cancellation after the backup |
| Lifecycle.CompletedRanTheChain | packages/domain/src/upgrades.ts:32-47 | a history that ends in completion ends in the whole chain, entered from the request or from a refused cancellation |
| Lifecycle.GatesOnTheWay | packages/domain/src/upgrades.ts:187-218 | on the way to a chain state no gate demands more than the one at its end |
| Evidence.Merge | packages/persistence-d1/src/upgrades.ts:232-235 | spreading one object over another: the delta wins field by field, everything else stays |
| Evidence.MergeTwice | packages/persistence-d1/src/upgrades.ts:299-303 | merging the same delta again leaves the same serialized object |
| UpgradeTables.FindByKey | packages/persistence-d1/src/upgrades.ts:135-142 | a key lookup finds a row with that key, or there is none |
| UpgradeTables.FindActive | packages/persistence-d1/src/upgrades.ts:154-161 | the lock lookup finds a row that holds the lock, or there is none |
| UpgradeTables.MaxSequence | packages/persistence-d1/src/upgrades.ts:270-272 | the next sequence number is one above every number used for the job |
| UpgradeProtocol.StepKeepsInv | packages/persistence-d1/src/upgrades.ts:168-344 | every statement of every interleaved worker keeps the invariant and undoes nothing |
| UpgradeProtocol.OneForwardJob | migrations/0009_upgrade_orchestration.sql:38-44 | in every interleaving at most one job is in a forward state, and it holds the lock |
| UpgradeProtocol.LockNeverRetaken | packages/persistence-d1/src/upgrades.ts:243-258 | a stored job keeps key, actor and target, and a released lock is never taken again |
| UpgradeProtocol.GoodEndsFreeTheLock | packages/persistence-d1/src/upgrades.ts:243-258 | a job that was completed, canceled or rolled back has let the lock go |
| UpgradeProtocol.CallsAreApproved | apps/worker/src/api/upgrades.ts:243-291 | each external call is for a stored job of that very request, under a registered approval for its actor, action, target and digest that had not expired when it was used |
| UpgradeProtocol.CallsAreDistinct | apps/worker/src/api/upgrades.ts:233-291 | no two external calls share a job, an idempotency key or an approval |
| UpgradeProtocol.RepliesAgree | apps/worker/src/api/upgrades.ts:233-276 | whatever replays and races there are, one key is answered with one job only |
| UpgradeReplies.LookUpsAnswer | apps/worker/src/api/upgrades.ts:233-276 | a handler answers with a stored job of its key: at its first look-up only if the job is for its actor and target, at the later ones whatever it is for |
| UpgradeReplies.HandlersStop | apps/worker/src/api/upgrades.ts:233-276 | a handler stops without an answer if and only if it meets one of the listed reasons: a job for another request, no usable approval, a held lock, no row behind a conflict, a failing statement |
| UpgradeReplies.AcceptanceAnswers | apps/worker/src/api/upgrades.ts:290-300 | after the call of the controller a handler answers exactly when the acceptance is found or recorded |
| UpgradeReplies.AcceptanceNeverEndsSilently | apps/worker/src/api/upgrades.ts:290-310 | an acceptance goes on, is answered, or turns into recording the refusal |
| UpgradeReplies.OnlyLateLookUpsAnswerFalsely | apps/worker/src/api/upgrades.ts:233-276 | a step answers a request with a job for another actor or target if and only if it is a later look-up that meets one |
| UpgradeReplies.AnswersAreTrueExactly | apps/worker/src/api/upgrades.ts:233-276 | the same throughout a run |
| UpgradeReplies.AgreeingRequestsAreAnsweredTruly | apps/worker/src/api/upgrades.ts:233-276 | when the requests of a run agree on what their keys are for, every answer is for its request |
| UpgradeScenes.RivalIsAnswered | packages/persistence-d1/src/upgrades.ts:164-194 | a run from the empty deployment in which an operator is answered with a job for the target of another one |
| UpgradeProtocol.RowsFollowTheTable | packages/persistence-d1/src/upgrades.ts:224-268 | the states a row has held are a walk of the transition table from the request, ending at the stored state |
| UpgradeProtocol.CompletedJobs | packages/persistence-d1/src/upgrades.ts:224-268 | a completed job ran the whole chain last and was never cancelled after its backup |
| UpgradeProtocol.RowChanges | packages/persistence-d1/src/upgrades.ts:224-321 | a row changes only by a commit: a transition that brings evidence stores the fields its new state demands, the lock is let go exactly when the state is a good end or the merged evidence proves production preserved; an observation stores the evidence of that instant merged with its own |
| UpgradeProtocol.TransitionKeepsField | packages/persistence-d1/src/upgrades.ts:232-262 | a transition keeps a stored field if and only if it sets the field itself or nobody changed it since its read |
| UpgradeProtocol.ObservationIsLost | packages/persistence-d1/src/upgrades.ts:246-258 | two workers that read the same row: the observation commits first and the transition overwrites it |
| UpgradeScenes.ObservationGetsLost | packages/persistence-d1/src/upgrades.ts:224-258 | a run from the empty deployment in which a committed observation is gone one step later |
| UpgradeStore.UpgradeDb.constructor | migrations/0009_upgrade_orchestration.sql:4-75 | the empty store is sound |
| UpgradeStore.UpgradeDb.GetByIdempotencyKey | packages/persistence-d1/src/upgrades.ts:135-142 | returns the row with the key |
| UpgradeStore.UpgradeDb.ActiveJobId | packages/persistence-d1/src/upgrades.ts:154-161 | returns the row that holds the lock |
| UpgradeStore.UpgradeDb.CreateUpgradeJob | packages/persistence-d1/src/upgrades.ts:164-205 | replays a known key, refuses while another job holds the lock, otherwise stores the row and its first event; soundness is kept |
| UpgradeStore.UpgradeDb.TransitionUpgradeJob | packages/persistence-d1/src/upgrades.ts:218-287 | no-op, invalid transition, missing evidence or commit with its event, as the transition function says; a commit lets the lock go exactly as the evidence allows; soundness is kept |
| UpgradeStore.UpgradeDb.RecordUpgradeJobObservation | packages/persistence-d1/src/upgrades.ts:290-344 | merges the evidence and writes an event only when something changed; soundness is kept |
| UpgradeStore.UpgradeDb.RegisterUpgradeRequestNonce | packages/persistence-d1/src/upgrades.ts:379-392 | a nonce is registered once |
| UpgradeStore.UpgradeDb.ConsumeUpgradeRequestNonce | packages/persistence-d1/src/upgrades.ts:395-410 | an approval is consumed once, before it expires, for exactly what it was given for |
| UpgradeStore.CreateKeepsSound | packages/persistence-d1/src/upgrades.ts:164-205 | creation keeps unique keys, the single lock and the replayable log |
| UpgradeStore.TransitionKeepsSound | packages/persistence-d1/src/upgrades.ts:218-287 | a transition keeps them |
| UpgradeStore.ObserveKeepsSound | packages/persistence-d1/src/upgrades.ts:290-344 | an observation keeps them, with or without an event |
| UpgradeStore.TransitionOutcome | packages/persistence-d1/src/upgrades.ts:224-286 | a refused transition changes nothing, a successful one returns the stored row in its new state, with the lock let go exactly if it was before or the state and merged evidence allow it |
| UpgradeStore.LogReplaysRow | packages/persistence-d1/src/upgrades.ts:196-339 | after every serialized run the log is numbered 1..n, each entry starts where the previous ended, and replaying it gives the stored state and evidence |
| UpgradeStore.EveryCommitPassedItsGate | packages/persistence-d1/src/upgrades.ts:228-241 | in a serialized run, at every logged transition the evidence merged so far has the fields its state demands |
| UpgradeRuns.UpgradeGoesThrough | apps/worker/src/api/upgrades.ts:326-336 | a run from the empty store along the whole chain, with evidence as a controller reports it, ends completed with the lock let go |
| UpgradeRuns.HarmKeepsTheLock | packages/domain/src/upgrades.ts:176-184 | a run from the empty store that ends failed with production not preserved keeps the lock, and every other creation is refused |
| UpgradeErrors.TransitionSetsTheError | packages/persistence-d1/src/upgrades.ts:250-251 | a transition replaces the error of the job, by none if it brings none, cut at 500 characters |
| UpgradeErrors.ObservationKeepsTheError | packages/persistence-d1/src/upgrades.ts:299-339 | an observation keeps what it does not replace, and writes an event if and only if evidence, code or detail change |
| UpgradeErrors.NewJobIsBlank | packages/persistence-d1/src/upgrades.ts:171-187 | a created job waits under the lock, with no evidence, controller or error |
| UpgradeErrors.RefusedRequestShowsIt | apps/worker/src/api/upgrades.ts:301-310 | a refused request leaves the fixed error |
| UpgradeErrors.PollShowsTheError | apps/worker/src/api/upgrades.ts:326-336 | a poll that reaches the reported state shows the reported error, one that stops on the way shows none, one that moves nothing changes nothing |
| UpgradeLimits.GateSurvivesMerge | packages/domain/src/upgrades.ts:187-218 | a passed gate survives a merge if and only if the delta withdraws no safeguard the state demands |
| UpgradeLimits.ObservationKeepsGate | packages/persistence-d1/src/upgrades.ts:299-316 | one serialized observation leaves a gated row its evidence if and only if what it brings withdraws no safeguard of the state |
| UpgradeLimits.ObservationMayBreakTheGate | packages/persistence-d1/src/upgrades.ts:299-316 | a run from the empty store that ends in validation with the backup withdrawn |
| UpgradeConcurrency.StepRows | packages/persistence-d1/src/upgrades.ts:164-321 | exactly which rows a step of any worker writes, and with what |
| UpgradeConcurrency.TransitionCommitIsGated | packages/persistence-d1/src/upgrades.ts:228-258 | after its commit a transition leaves evidence passing the new gate if and only if it brought evidence or the evidence stored at that instant provides every safeguard the new state demands |
| UpgradeConcurrency.ObservationCommitIsGated | packages/persistence-d1/src/upgrades.ts:299-316 | after its commit an observation leaves a gated row gated if and only if it withdraws no safeguard of the state |
| UpgradeConcurrency.StepKeepsGated | packages/persistence-d1/src/upgrades.ts:164-344 | a step of any worker keeps every stored job gated if and only if it is no commit that ungates in one of these ways |
| UpgradeConcurrency.GatedExactlyWithoutUngating | packages/persistence-d1/src/upgrades.ts:164-344 | throughout a run of any interleaving every stored job has the evidence its state demands, if and only if no commit of the run ungates |
| UpgradeScenes.ValidationWithoutBackup | packages/persistence-d1/src/upgrades.ts:228-258 | a run from the empty deployment in which a backup is withdrawn between check and commit, and the job enters validation without it |
| UpgradeLimits.TransitionKeepsOneUnderWay | packages/persistence-d1/src/upgrades.ts:218-268 | a transition keeps one unfinished job at a time if and only if it does not start the rollback of a finished job beside another job |
| UpgradeLimits.CreateKeepsOneUnderWay | packages/persistence-d1/src/upgrades.ts:164-205 | a creation keeps it if and only if it does not find the lock free while another job is unfinished |
| UpgradeLimits.OneUnderWayExactlyWithoutCollisions | packages/persistence-d1/src/upgrades.ts:164-344 | throughout a run one unfinished job at a time, if and only if no operation of the run collides in one of these ways |
| UpgradeConcurrency.StepKeepsOneUnderWay | packages/persistence-d1/src/upgrades.ts:164-344 | a step of any worker keeps one unfinished job at a time if and only if it neither inserts a job nor starts the rollback of a finished one beside an unfinished job |
| UpgradeConcurrency.OneUnderWayExactlyWithoutCollidingSteps | packages/persistence-d1/src/upgrades.ts:164-344 | the same throughout a run of any interleaving |
| UpgradeLimits.RollbackRunsBesideANewJob | packages/domain/src/upgrades.ts:40-43 | any finished job that has let the lock go may be rolled back beside a job created meanwhile |
| UpgradeLimits.RollbackBesideANewJob | packages/domain/src/upgrades.ts:40-43 | a run from the empty store that ends with a rollback started beside a new job |
| UpgradeLimits.NewJobBesideARollback | packages/persistence-d1/src/upgrades.ts:171-187 | a run from the empty store that ends with a new job started beside a rollback |
| UpgradeApi.PollJob | apps/worker/src/api/upgrades.ts:314-349 | a poll leaves the store alone, records an observation, or reconciles along the governed path |
| UpgradeApi.ReconcileJob | apps/worker/src/api/upgrades.ts:326-336 | the loop performs the transitions in turn and stops at the first refusal |
| UpgradeApi.ReconcileStep | apps/worker/src/api/upgrades.ts:326-336 | one step moves the row with one event exactly when its gate passes, and changes nothing otherwise |
| UpgradeApi.ReconcileAdvances | apps/worker/src/api/upgrades.ts:326-348 | the poll advances the job along exactly the part of the path whose gates pass, one event a step |
| UpgradeApi.PollEndsAtTarget | apps/worker/src/api/upgrades.ts:322-348 | the poll ends at the reported state if and only if every state on the governed path passes its gate |
| UpgradeApi.RollbackProofIsNotDeploymentProof | packages/domain/src/upgrades.ts:198-216 | evidence exists that proves a rollback and not a deployment |
| ShortestPath.OnlyWayIn | packages/domain/src/upgrades.ts:57-77 | the search result for a vertex with one predecessor is the predecessor's with one more step |
| GovernedGates.FirstPathToRequest | packages/domain/src/upgrades.ts:32-77 | from any state the search reaches a rollback request directly, through failure, or from validation through the deployment |
| GovernedGates.RollbackGoesThroughDeploying | packages/domain/src/upgrades.ts:32-77 | from validation the governed paths to the three rollback states are exactly those through the gated deployment |
| GovernedGates.PathGates | packages/domain/src/upgrades.ts:56-77 | for every pair of states, all gates of the governed path pass if and only if the target's does and, for a rollback from validation, the deployment's |
| GovernedGates.GateSufficesExactlyWithoutDetour | packages/domain/src/upgrades.ts:187-218 | the target's own gate suffices for its governed path if and only if the pair is not a rollback reported during validation |
| GovernedGates.PollReachesExactly | apps/worker/src/api/upgrades.ts:322-348 | a poll records the reported state if and only if it is reachable, its gate passes and, for a rollback during validation, the deployment's passes too |
| GovernedGates.ForwardTargetIsReached | apps/worker/src/api/upgrades.ts:322-348 | for a reachable state of the forward chain, evidence passing its own gate is enough |
| GovernedGates.RollbackDuringValidation | apps/worker/src/api/upgrades.ts:322-348 | without evidence for a deployment a rollback reported during validation changes nothing |
| UpgradeRequests.RequestUpgrade | apps/worker/src/api/upgrades.ts:233-311 | the request handler: replay, conflict, approval, creation, submission |
| UpgradeRequests.SubmitJob | apps/worker/src/api/upgrades.ts:290-311 | the controller is called once; acceptance or failure is recorded |
| UpgradeRequests.RefuseJob | apps/worker/src/api/upgrades.ts:301-310 | a failed call is recorded as a failed job |
| UpgradeRequests.ExecuteAction | apps/worker/src/api/upgrades.ts:381-442 | cancel and rollback: availability, approval, controller, transition |
| UpgradeRequests.AcceptedActionIsRecorded | apps/worker/src/api/upgrades.ts:381-455 | an action is recorded if and only if it is offered in the state of the job, a rollback with its target available, under an unused unexpired approval for exactly this job, and taken by the controller; then always in the state it asks for |
| UpgradeRecovery.RefusedRequestIsStuck | apps/worker/src/api/upgrades.ts:301-310 | a new job whose controller call fails is failed, holds the lock and has no controller |
| UpgradeRecovery.ReportedFailureMayStick | apps/worker/src/api/upgrades.ts:317-336 | a reported failure leaves the job stuck if and only if the evidence neither proves production preserved nor offers a rollback |
| UpgradeRecovery.StuckForever | apps/worker/src/api/upgrades.ts:314-442 | no sequence of API calls ever touches a stuck job or creates another one |
| UpgradeRecovery.PolledCanBeFreed | apps/worker/src/api/upgrades.ts:314-349 | a polled job lets the lock go when its controller proves a harmless failure |
| UpgradeRecovery.PreparedApprovalLasts | apps/worker/src/lib/upgrade-security.ts:58-76 | a prepared approval can be used once, within five minutes, for what it was prepared for |
| UpgradeRecovery.RollbackFrees | apps/worker/src/api/upgrades.ts:356-442 | an available rollback, prepared, taken and polled to its end, lets the lock go |
| UpgradeRecovery.FreedExactlyWhenRecoverable | apps/worker/src/api/upgrades.ts:233-455 | from any time on some sequence of API calls, in the order of their times and with approvals of five minutes, frees the lock of a job if and only if the job is still polled or its rollback is available |
| UpgradeRecovery.FailedJobsNeedARollback | apps/worker/src/api/upgrades.ts:447-455 | a failed job that holds the lock can be freed if and only if its rollback is available |
| UpgradeSerial.TransitionAlone | packages/persistence-d1/src/upgrades.ts:218-287 | a transition worker that meets no interference and no fault leaves exactly the tables of the serialized transition, and passes a refusal to its error path |
| UpgradeSerial.ObservationAlone | packages/persistence-d1/src/upgrades.ts:290-344 | an observation worker alone leaves exactly the tables of the serialized observation |
| UpgradeSerial.RequestAlone | apps/worker/src/api/upgrades.ts:233-311 | a request worker alone leaves exactly the tables of the serialized request handler |
| SyncQueue.SyncQueue.EnqueueSyncJob | packages/persistence-d1/src/sync-jobs.ts:53-73 | an untried job, due at once, is queued unless one is waiting for the same type and scope |
| SyncQueue.RetryQueuesAfresh | packages/persistence-d1/src/sync-jobs.ts:37-51 | a retry queues the work of a failed job untried, if and only if none is waiting for its type and scope, and a null scope equals no other |
| SyncQueue.ReclaimTakesBack | packages/persistence-d1/src/sync-jobs.ts:78-83 | a reclaim returns exactly the jobs at work for more than ten minutes and changes nothing else of them |
| SyncQueue.SyncQueue.RetrySyncJob | packages/persistence-d1/src/sync-jobs.ts:37-51 | a failed job is queued again unless one is pending |
| SyncQueue.SyncQueue.SelectNext | packages/persistence-d1/src/sync-jobs.ts:85-92 | picks an eligible job such that no other has a smaller priority number, or the same and an earlier creation, or none is eligible |
| SyncQueue.SyncQueue.ClaimNextSyncJob | packages/persistence-d1/src/sync-jobs.ts:76-103 | reclaims stuck jobs and claims the eligible one with the smallest priority number and the earliest creation, counting the attempt |
| SyncQueue.CheckpointReleases | packages/persistence-d1/src/sync-jobs.ts:106-120 | a checkpointed job is eligible at once, its next claim gets the cursor and the work so far, no attempt is lost, and enqueueing its work adds nothing |
| SyncQueue.CompletionIsFinal | packages/persistence-d1/src/sync-jobs.ts:122-135 | a completed job is never claimed or reclaimed again, and there is nothing to retry |
| SyncQueue.FailedPassIsFinal | packages/persistence-d1/src/sync-jobs.ts:138-149 | a job whose pass failed in part is never claimed or reclaimed again, and a retry queues its work afresh unless it is pending |
| SyncQueue.SyncQueue.CheckpointSyncJob | packages/persistence-d1/src/sync-jobs.ts:106-120 | the job is eligible at once with its work and attempts kept, and no other row changes |
| SyncQueue.SyncQueue.CompleteSyncJob | packages/persistence-d1/src/sync-jobs.ts:122-135 | the job is settled: no claim takes it and no reclaim changes it, at any time; no other row changes |
| SyncQueue.SyncQueue.FailCompletedSyncJob | packages/persistence-d1/src/sync-jobs.ts:138-149 | the job is settled as failed; no other row changes |
| SyncQueue.SyncQueue.FailSyncJob | packages/persistence-d1/src/sync-jobs.ts:151-164 | from the fifth attempt on the job is settled; before that it is eligible exactly after fifteen minutes an attempt |
| SyncProtocol.FailureBacksOff | packages/persistence-d1/src/sync-jobs.ts:151-164 | a failure is final exactly from the fifth attempt on, and before that the job is eligible again exactly after fifteen minutes an attempt |
| SyncProtocol.HolderWritesItsOutcome | packages/persistence-d1/src/sync-jobs.ts:106-164 | what a holder reports is what its row then says, column by column, and no other row changes |
| SyncProtocol.SelectionsTakeTheMostUrgent | packages/persistence-d1/src/sync-jobs.ts:85-92 | in every run a selection leaves no due job waiting that has a smaller priority number, or the same and an earlier creation |
| SyncProtocol.EpisodesAreWonOnce | packages/persistence-d1/src/sync-jobs.ts:78-102 | in every run each pending episode is won by at most one claim, reclaiming included |
| SyncProtocol.StepKeepsBase | packages/persistence-d1/src/sync-jobs.ts:37-164 | every statement of every enqueuer, claimer and holder keeps the numbering of episodes and the claims won, and no row is lost |
| SyncProtocol.StepKeepsTried | packages/persistence-d1/src/sync-jobs.ts:76-164 | every such statement keeps the comebacks and the live holders of a job within its attempts |
| SyncExclusion.StepKeepsExclusive | packages/persistence-d1/src/sync-jobs.ts:76-103 | a step leaves two holders on one job if and only if it claims a job from a holder at work for more than ten minutes |
| SyncExclusion.ExclusiveExactlyWithoutTakeovers | packages/persistence-d1/src/sync-jobs.ts:76-103 | no two holders share a job throughout a run, if and only if no step of the run takes a job over |
| SyncExclusion.HoldersAreExclusive | packages/persistence-d1/src/sync-jobs.ts:76-103 | in particular in a run in which no holder overstays its ten minutes |
| SyncProtocol.AtMostFourComebacks | packages/persistence-d1/src/sync-jobs.ts:151-164 | in every run failures return a job to pending at most four times, whatever its checkpoints and however late its holders |
| SyncExclusion.FinalRowMoves | packages/persistence-d1/src/sync-jobs.ts:106-164 | a done or failed row changes only by the outcome of one of its holders, and stops being final exactly when that outcome reopens it |
| SyncExclusion.OnlyOverstayersWriteFinalRows | packages/persistence-d1/src/sync-jobs.ts:76-164 | as long as no job was shared, such a holder has exceeded its ten minutes |
| SyncExclusion.FinalExactlyUntilReopened | packages/persistence-d1/src/sync-jobs.ts:106-164 | in every run a final job stays final if and only if no late outcome reopens it |
| SyncExclusion.FinalForever | packages/persistence-d1/src/sync-jobs.ts:106-164 | in a run in which no holder overstays a final row is never changed again |
| SyncProtocol.OverstayedClaimIsLost | packages/persistence-d1/src/sync-jobs.ts:78-83 | a reclaim takes a held job back if and only if its holder has exceeded ten minutes |
| SyncScenes.TwoHoldersOfOneJob | packages/persistence-d1/src/sync-jobs.ts:78-102 | a run from the empty table in which a holder overstays and two holders work on one job |
| SyncScenes.DoneJobIsReopened | packages/persistence-d1/src/sync-jobs.ts:106-135 | a run from the empty table in which a late checkpoint puts a completed job back into the queue |
| SyncDuplicates.InsertKeepsSingle | packages/persistence-d1/src/sync-jobs.ts:59-72 | an insert keeps never-claimed work unique if and only if no such job waits for the same type and scope |
| SyncDuplicates.UniqueExactlyWithoutDuplicates | packages/persistence-d1/src/sync-jobs.ts:37-73 | work stays unique throughout a run if and only if no insert of the run meets a waiting job |
| SyncDuplicates.OneUntouchedJob | packages/persistence-d1/src/sync-jobs.ts:53-73 | it does in every run in which each insert comes right after its check |
| SyncDuplicates.TogetherTheyEnqueue | packages/persistence-d1/src/sync-jobs.ts:53-73 | a check and the insert right after it are the enqueue as one caller sees it |
| SyncDuplicates.TogetherTheyRetry | packages/persistence-d1/src/sync-jobs.ts:37-51 | the statements of a retry, one right after another, are the retry as one caller sees it |
| SyncDuplicates.RacingEnqueuesDuplicate | packages/persistence-d1/src/sync-jobs.ts:59-72 | for any work, a run from the empty table in which two enqueuers both check and then both insert |
| SyncBackoff.ClaimerSelected | packages/persistence-d1/src/sync-jobs.ts:85-102 | whoever claims a job selected it in an earlier step |
| SyncBackoff.LastEndingDecides | packages/persistence-d1/src/sync-jobs.ts:106-164 | when a job may be selected again is what its last ending left, or what it was before |
| SyncBackoff.ClaimRespectsBackoff | packages/persistence-d1/src/sync-jobs.ts:85-102 | a claim respects the back-off of its job if and only if the last ending between selection and claim, if any, is not a failure whose back-off is still running |
| SyncBackoff.PromptClaimRespectsBackoff | packages/persistence-d1/src/sync-jobs.ts:85-102 | for a claim within fifteen minutes of its selection, if and only if that ending is not a failure |
| SyncScenes.SlowClaimRespectsBackoff | packages/persistence-d1/src/sync-jobs.ts:85-102 | a run in which a failure comes in between and the back-off has passed all the same when the claim is made |
| SyncScenes.ClaimMayPrecedeBackoff | packages/persistence-d1/src/sync-jobs.ts:85-102 | a run from the empty table in which a claim is made with the whole back-off still to wait |
| EstateTables.FindRepo | packages/persistence-d1/src/repositories.ts:46-49 | the lookup by workspace and external id |
| EstateTables.MatchRepository | packages/persistence-d1/src/budgets.ts:181-185 | the best match: full names before short names, then the smallest id; no result exactly when nothing matches |
| EstateIdentity.LocateFollowsTheIdentity | packages/persistence-d1/src/repositories.ts:40-49 | in a sound store a resource is located through its identity exactly when it has one |
| EstateIdentity.RelocateKeeps | packages/persistence-d1/src/repositories.ts:53-90 | moving or merging a row keeps identities sound, and without duplicates never changes the row |
| EstateIdentity.UpsertKeeps | packages/persistence-d1/src/repositories.ts:31-174 | an upsert keeps identities sound and duplicate-free, never re-points an identity in a duplicate-free store, and fails only for an unknown workspace or a taken id |
| EstateIdentity.UpsertReturnsTheTarget | packages/persistence-d1/src/repositories.ts:40-82 | an upsert that does not fail returns the row known before the call: the identity names it, or it is already in the workspace, or it is new |
| EstateIdentity.UpsertPlacesTheRow | packages/persistence-d1/src/repositories.ts:53-174 | the whole effect: the returned row is in the workspace with the new names, the identity names it, a row left behind is marked merged, all others are untouched, a change of workspace is logged once |
| EstateIdentity.DuplicatesConverge | packages/persistence-d1/src/repositories.ts:54-82 | a resource with two rows converges to the one in the workspace it was seen in; the other is removed as merged, with its other columns kept |
| EstateIdentity.OneLiveRowExactly | packages/persistence-d1/src/repositories.ts:40-110 | after an upsert the returned row is the only active one of its resource if and only if every other active row was the one the identity named |
| EstateIdentity.TwoRowsConverge | packages/persistence-d1/src/repositories.ts:40-110 | of two rows a single one is live after an upsert if and only if the resource was seen where the row is that its identity does not name, or that row was not active |
| EstateIdentity.DuplicateMayStay | packages/persistence-d1/src/repositories.ts:40-110 | a store in which an upsert leaves two active rows of one resource |
| EstateRuns.ExecuteKeepsIdentities | packages/persistence-d1/src/repositories.ts:31-212 | every estate operation keeps identities sound and, without duplicates, for good |
| EstateRuns.EveryRunIsSound | packages/persistence-d1/src/repositories.ts:31-174 | in every run from the empty store each connection and external id has one row, its identity names it, and attributions stay in their workspace |
| EstateRuns.IdentitiesAreForGood | packages/persistence-d1/src/repositories.ts:127-131 | an identity once given is never changed in any run |
| EstateRuns.UpsertReturnsTheSameId | packages/persistence-d1/src/repositories.ts:31-174 | a later upsert of a resource returns the id the earlier one returned, whatever ran in between |
| Estate.EstateDb.constructor | migrations/0001_initial.sql:1-60 | the empty store is valid |
| Estate.EstateDb.SelectRepo | packages/persistence-d1/src/repositories.ts:46-49 | the row with the workspace and external id |
| Estate.EstateDb.UpsertRepository | packages/persistence-d1/src/repositories.ts:31-174 | the statements in order give the specified upsert and keep the store valid |
| Estate.EstateDb.PlaceRow | packages/persistence-d1/src/repositories.ts:40-172 | locating, relocating, refreshing and linking, or inserting |
| Estate.EstateDb.RelocateRow | packages/persistence-d1/src/repositories.ts:53-90 | merge or move with its history entry |
| Estate.EstateDb.MarkRepositoryRemoved | packages/persistence-d1/src/repositories.ts:178-192 | the row of the resource is marked removed |
| Estate.EstateDb.MarkUnseenInaccessible | packages/persistence-d1/src/repositories.ts:195-212 | active unseen rows of the workspace become inaccessible; the changed rows are counted |
| EstateTables.FindBudget | packages/persistence-d1/src/budgets.ts:219-224 | the lookup by workspace and external id |
| EstateBudgets.RefreshRestores | packages/persistence-d1/src/repositories.ts:228-261 | refreshing a just placed repository restores consistency of links and budgets |
| EstateBudgets.RefreshKeepsExact | packages/persistence-d1/src/repositories.ts:239-249 | a refresh leaves a stale direct attribution if and only if it takes a budget from another repository |
| EstateBudgets.StoreKeeps | packages/persistence-d1/src/budgets.ts:219-243 | storing a budget with its attributions keeps consistency and exactness |
| EstateBudgets.UpsertBudgetKeeps | packages/persistence-d1/src/budgets.ts:166-243 | a budget upsert keeps consistency and exactness |
| EstateBudgets.ReplaceKeeps | packages/persistence-d1/src/budgets.ts:246-270 | a replacement keeps them, also when it stops half way |
| EstateBudgets.ReplacementIsExact | packages/persistence-d1/src/budgets.ts:246-270 | a completed replacement leaves the workspace with exactly the budgets of the response and every other workspace as it was |
| EstateRuns.ExecuteKeepsBudgets | packages/persistence-d1/src/repositories.ts:53-261 | every estate operation keeps attributions and budgets within their workspace |
| EstateRuns.PutRepoKeepsExact | packages/persistence-d1/src/repositories.ts:228-261 | direct attributions stay exact through a repository upsert if and only if the upsert fails or no budget naming the repository is held by a row other than the one it is about to fill |
| EstateRuns.StaleDirectAttribution | packages/persistence-d1/src/repositories.ts:239-260 | a run in which the first of two repositories named by one budget keeps a stale direct attribution |
| EstateInheritance.StoredBudgetReaches | packages/persistence-d1/src/budgets.ts:166-243 | a stored budget is attributed to the repository its name resolves to, letter case aside, or, if shared, inherited by exactly the active repositories of its workspace |
| EstateInheritance.PlacedRepositoryGets | packages/persistence-d1/src/repositories.ts:228-261 | after an upsert the budgets that name the repository hold it, those elsewhere have let it go, and it has exactly the attributions of the budgets of its workspace that hold it or are shared |
| EstateInheritance.PutRepoKeepsSpread | packages/persistence-d1/src/repositories.ts:228-261 | shared budgets stay inherited by every active repository of their workspace through an upsert if and only if the repository does not move away from one that holds it and leaves another behind |
| EstateInheritance.SpreadExactlyWithoutStranding | packages/persistence-d1/src/repositories.ts:228-261 | they do throughout a run if and only if no upsert of the run strands one |
| EstateInheritance.BudgetIsStranded | packages/persistence-d1/src/repositories.ts:228-261 | a run from the empty store that leaves an organization budget without a repository, not inherited by an active one |
| Estate.EstateDb.RefreshAttributions | packages/persistence-d1/src/repositories.ts:228-261 | the four statements of a refresh |
| Estate.EstateDb.BestMatch | packages/persistence-d1/src/budgets.ts:181-185 | the sub-select that resolves a repository name |
| Estate.EstateDb.SelectBudget | packages/persistence-d1/src/budgets.ts:219-224 | the stored budget |
| Estate.EstateDb.UpsertBudget | packages/persistence-d1/src/budgets.ts:166-243 | the statements give the specified upsert and keep the store valid |
| Estate.EstateDb.StoreRow | packages/persistence-d1/src/budgets.ts:186-243 | the row, then its attributions |
| Estate.EstateDb.ReplaceWorkspaceBudgets | packages/persistence-d1/src/budgets.ts:246-270 | the loop with its early end, then the deletions; the store stays valid |
| Estate.EstateDb.DeleteBudgets | packages/persistence-d1/src/budgets.ts:252-269 | attributions and budgets outside the response go |
| Discovery.ReconcileIsTheSweep | packages/persistence-d1/src/operations.ts:127-147 | one statement over the ledger equals marking each complete workspace with its full seen list, in any order |
| Discovery.ReconcileIsIdempotent | packages/persistence-d1/src/operations.ts:127-147 | reconciling again changes nothing |
| Discovery.ReconcileSparesTheRest | packages/persistence-d1/src/operations.ts:133-146 | nothing changes unless the run is reconciling, outside complete workspaces, or for recorded repositories |
| Discovery.LedgerOnlyGrows | packages/persistence-d1/src/operations.ts:86-187 | whatever is checkpointed, restarted or finished, the ledger only grows |
| Discovery.SeenIsWhatWasRecorded | packages/persistence-d1/src/operations.ts:150-160 | the ledger of a run knows exactly what was ever recorded for it |
| Discovery.ReconcilingWasPrepared | packages/persistence-d1/src/operations.ts:116-124 | a run reconciles only after it was begun and prepared with nothing in between |
| DiscoveryRuns.ReconcilesExactlyWhenPrepared | packages/persistence-d1/src/operations.ts:70-124 | a run reconciles if and only if it was begun and prepared with no checkpoint, end or restart since |
| DiscoveryRuns.StatusIsTheLastOneSet | packages/persistence-d1/src/operations.ts:57-210 | a run that was begun has the status last set: running or reconciling, pending after a checkpoint, completed or failed as its end says |
| Discovery.StepKeepsHonest | packages/persistence-d1/src/operations.ts:93-113 | completed entries stand for scanned workspaces after a step if and only if the step does not re-point a completed entry |
| DiscoveryRuns.HonestExactlyWithoutRepointing | packages/persistence-d1/src/operations.ts:86-113 | they do throughout a run, if and only if no step of it re-points a completed entry |
| Discovery.StableRunsAreHonest | packages/persistence-d1/src/operations.ts:86-113 | they do in every run that records a provider workspace under one id |
| Discovery.UnstableRunsNeedNotBe | packages/persistence-d1/src/operations.ts:97-102 | a run of the two writers alone that re-points a completed entry hands over its flag |
| DiscoveryRuns.ScannedExactly | packages/persistence-d1/src/operations.ts:86-148 | in such a run a workspace counts as scanned if and only if it was recorded under its id and then marked complete |
| DiscoveryRuns.ExactlyMissingRepositoriesFlip | packages/persistence-d1/src/operations.ts:127-148 | in such a run a repository becomes inaccessible if and only if it is active, its workspace was scanned to the end, the run was prepared since it last began, and it never recorded the repository |
| DiscoveryRuns.CollectorsAreStable | packages/persistence-d1/src/workspaces.ts:20-79 | whoever takes the ids from the upsert of workspaces records each provider workspace under one id |
| DiscoveryRuns.CollectorsFlipExactlyTheMissing | apps/worker/src/scheduled/index.ts:438-501 | so the collectors make inaccessible exactly the missing repositories |
| Discovery.DiscoveryDb.constructor | migrations/0006_estate_billing_operations.sql:96-131 | the empty ledger |
| Discovery.DiscoveryDb.BeginDiscoveryRun | packages/persistence-d1/src/operations.ts:70-84 | begins or restarts the run, keeping its ledger |
| Discovery.DiscoveryDb.CheckpointDiscoveryRun | packages/persistence-d1/src/operations.ts:162-173 | suspends the run |
| Discovery.DiscoveryDb.EndDiscoveryRun | packages/persistence-d1/src/operations.ts:175-210 | completes or fails the run |
| Discovery.DiscoveryDb.RecordDiscoveryWorkspaceSeen | packages/persistence-d1/src/operations.ts:86-103 | records the workspace once and fills in its id |
| Discovery.DiscoveryDb.RecordDiscoveryRepositorySeen | packages/persistence-d1/src/operations.ts:150-160 | records the repository once |
| Discovery.DiscoveryDb.MarkDiscoveryWorkspaceScanComplete | packages/persistence-d1/src/operations.ts:105-114 | marks the entries of the workspace |
| Discovery.DiscoveryDb.PrepareDiscoveryRunForReconciliation | packages/persistence-d1/src/operations.ts:116-124 | only a running run becomes reconciling |
| Discovery.DiscoveryDb.ReconcileMissingRepositories | packages/persistence-d1/src/operations.ts:127-148 | the missing repositories become inaccessible and are counted |
| SourceKeys.SourceKeyDecides | packages/persistence-d1/src/usage.ts:27-30 | the key of fields without separators is shared exactly by snapshots that agree on all eight, absent counting as empty |
| SourceKeys.TextOfTheKey | packages/persistence-d1/src/usage.ts:27-30 | the text of a key: eight fields in their order with the unit separator between them |
| SourceKeys.KeyIdentifiesPlainFields | packages/persistence-d1/src/usage.ts:27-30 | a key identifies its fields among all snapshots if and only if they contain no separator |
| UsageLedger.RowForIsHonest | packages/persistence-d1/src/usage.ts:41-62 | the written row has the date, product, sku and unit of its key, new or updated |
| UsageLedger.UpsertKeepsHonest | packages/persistence-d1/src/usage.ts:32-74 | keyed rows carry the fields their key was made of |
| UsageLedger.UpsertAllIsLastWins | packages/persistence-d1/src/usage.ts:76-83 | the batch goes through if and only if no snapshot meets a row not yet rewritten or another snapshot in its slot of the older constraint; then the last snapshot of each key wins |
| UsageLedger.ReplacePeriodConverges | packages/persistence-d1/src/usage.ts:86-100 | when a replacement goes through, and the whole table it leaves, under any run id |
| UsageLedger.FreshReplacementIsExact | packages/persistence-d1/src/usage.ts:86-100 | under a fresh run id with snapshots dated inside, the period holds exactly the last-wins map and nothing else changes |
| UsageLedger.ReusedRunLeavesRows | packages/persistence-d1/src/usage.ts:96-99 | an unreported row of the period survives if and only if it was written under the same run id |
| UsagePeriods.TextOrderIsDateOrder | packages/persistence-d1/src/usage.ts:96-99 | comparing the texts of two dates is comparing the days |
| UsagePeriods.UnreportedDaysAreDeleted | packages/persistence-d1/src/usage.ts:86-100 | an unreported row is deleted if and only if it is of the workspace, its day lies between the first and the last, and another run wrote it |
| UsagePeriods.FreshDaysAreExact | packages/persistence-d1/src/usage.ts:86-100 | under a fresh run id the days of the period have exactly the last snapshots, and every other row stays |
| UsagePeriods.DaysOfJanuary | packages/persistence-d1/src/usage.ts:96-99 | first, middle and last day belong to January, the day before and the day after do not |
| UsageLedger.OlderConstraintBites | migrations/0001_initial.sql:193-206 | two models of one product, day and repository stop the batch |
| UsageLedger.UsageDb.constructor | migrations/0001_initial.sql:193-206 | the empty table is honest |
| UsageLedger.UsageDb.UpsertUsage | packages/persistence-d1/src/usage.ts:32-74 | insert or update by source key, refused by the older constraint |
| UsageLedger.UsageDb.UpsertWorkspaceUsage | packages/persistence-d1/src/usage.ts:76-83 | the loop, with its end at the first failure |
| UsageLedger.UsageDb.ReplaceWorkspaceUsagePeriod | packages/persistence-d1/src/usage.ts:86-100 | the upserts, then the deletion of what they did not touch |
| Pkcs8.DerLength | packages/provider-github/src/jwt.ts:24-34 | the loop with 32-bit operations computes the specified octets |
| Pkcs8.LengthRoundTrip | packages/provider-github/src/jwt.ts:24-34 | the minimal definite form of a length reads back, whatever follows |
| Pkcs8.LengthIsCanonical | packages/provider-github/src/jwt.ts:24-34 | the minimal definite form is the only accepted one |
| Pkcs8.LoopBeyondTheBound | packages/provider-github/src/jwt.ts:28-32 | from 2^31 on the loop yields a value below 2^31 |
| Pkcs8.DerLengthIsRightBelowTheBound | packages/provider-github/src/jwt.ts:24-34 | the computed octets read back as the length if and only if it is below 2^31, and then are its minimal definite form |
| Pkcs8.RsaArcs | packages/provider-github/src/jwt.ts:38-41 | the algorithm octets spell 1.2.840.113549.1.1.1 |
| Pkcs8.Pkcs1ToPkcs8 | packages/provider-github/src/jwt.ts:36-52 | the wrapping is the envelope of version, algorithm and key |
| Pkcs8.EnvelopeDecodes | packages/provider-github/src/jwt.ts:36-52 | the envelope decodes to the very key with nothing left over if and only if its content is below 2^31 bytes, and does not decode at all otherwise |
| Pkcs8.EnvelopesDiffer | packages/provider-github/src/jwt.ts:36-52 | different keys have different envelopes |
| CsvExport.FieldReadsBack | apps/web/src/lib/export.ts:35-39 | a printed cell reads back in front of any separator or the end |
| CsvExport.QuotesOnlyWhereNeeded | apps/web/src/lib/export.ts:38-38 | a cell is put in quotes if and only if it contains a quote, a comma or a line feed |
| CsvExport.PrintedTableReadsBack | apps/web/src/lib/export.ts:41-44 | a printed table reads back as itself if and only if it has rows and every row has cells |
| CsvExport.ExportReadsBack | apps/web/src/lib/export.ts:35-44 | an export reads back as its guarded cells if and only if no row is empty |
| CsvExport.ExportDeterminesTheCells | apps/web/src/lib/export.ts:35-44 | equal exports have equal guarded cells |
| CsvExport.GuardIsAlmostInjective | apps/web/src/lib/export.ts:37-37 | two cells share a guarded form only if one is the other with the guard already in front |
| CsvExport.NoCellIsAFormula | apps/web/src/lib/export.ts:37-38 | cells that start with one of the four formula characters come back with a quote in front, all others as they are |
| BranchStatus.EvaluateDecides | packages/domain/src/branch-status.ts:50-102 | the list-based evaluation: the heaviest considered branch decides, then whether anything is known |
| BranchStatus.StatusFromCounts | packages/domain/src/branch-status.ts:16-102 | the list-based status of branches classified by their commit counts, in terms of those counts |
| BranchStatus.DeriveDecides | apps/worker/src/api/routes.ts:90-99 | the counted derivation: the same shape, with the default branch among the judged ones |
| BranchStatus.CountsAgree | packages/persistence-d1/src/repositories.ts:446-455 | the counted status is the list-based one if and only if nothing is considered or every listed default branch that weighs something is matched by a considered branch of at least its weight |
| BranchTable.ApplyKeepsNames | packages/persistence-d1/src/branches.ts:21-103 | every branch writer keeps one row per name |
| BranchTable.ApplyKeepsQuiet | packages/persistence-d1/src/branches.ts:21-103 | every branch writer, given collected snapshots, keeps default branches neither ahead nor diverged |
| BranchTable.ClosingUndoesItsOwnLink | packages/persistence-d1/src/change-requests.ts:75-94 | closing a request undoes its own link and no other |
| BranchTable.PushForgetsTheComparison | packages/persistence-d1/src/branches.ts:67-89 | after a push the branch is active and compared to nothing, and no other row changed |
| BranchTable.DeletedBranchStopsCounting | packages/persistence-d1/src/branches.ts:91-103 | after a deletion the listed rows and the counts are those of the other branches |
| BranchTable.SnapshotReplacesTheRow | packages/persistence-d1/src/branches.ts:21-65 | after a second snapshot the branch has its columns and is active, and no other row changed |
| BranchTable.RunsStayQuiet | packages/persistence-d1/src/branches.ts:21-103 | so does every run of writers on collected snapshots |
| BranchTable.CountsAgreeInEveryRun | apps/worker/src/api/routes.ts:90-99 | in every such run the two statuses agree |
| BranchTable.AheadDefaultDisagrees | packages/persistence-d1/src/repositories.ts:446-455 | one default branch recorded as ahead makes them differ |
| BranchTable.CollectedSnapshotsAreQuiet | packages/provider-github/src/collect.ts:127-157 | collected and created-branch snapshots never call a default branch ahead or diverged |
| BranchTable.BranchDb.constructor | migrations/0001_initial.sql:79-99 | the empty table |
| BranchTable.BranchDb.UpsertBranch | packages/persistence-d1/src/branches.ts:21-65 | a snapshot replaces the row of its name or adds one |
| BranchTable.BranchDb.ApplyBranchPush | packages/persistence-d1/src/branches.ts:68-89 | a push invalidates the comparison, or adds an unknown branch |
| BranchTable.BranchDb.MarkBranchDeleted | packages/persistence-d1/src/branches.ts:91-103 | a tombstone |
| BranchTable.BranchDb.LinkChangeRequest | packages/persistence-d1/src/change-requests.ts:75-94 | an open request links its head branch; only the linked request clears the link |

## Left out

- Routing, sessions, origin checks, body schemas and token signing: a verified token is its bound nonce.
- Release evaluation and the preflight call before an approval is registered; registration is a step of its own.
- The external controller: its answers are parameters, any state and any evidence.
- Audit entries, timestamps of rows, preflight results and the event columns that carry actor and detail text.
- Redaction and the exact wording of error details; a refused request stores one fixed detail.
- Event ids, correlation ids and the columns that hold versions for display; collisions of random ids are
  modelled only for the ids of jobs, repositories and budgets.
- Evidence is kept parsed: a row whose evidence text is not an object cannot occur.
- Statement errors other than uniqueness, apart from the faults the concurrent machines inject.
- UpgradeApi.PollJob: runs alone; a poll that meets a concurrent change appears in `UpgradeProtocol` as the
  transitions and observations it issues.
- UpgradeRecovery.FreedExactlyWhenRecoverable: covers calls that run one after another.
- The SQL engines, their dialects and the text of queries; tables are maps, sequences and sets.
- The job runner: a holder ends its claim with at most one outcome, or dies.
- Concurrency of estate, discovery and usage writers: their operations run to the end one at a time.
- Foreign keys of budgets, usage rows and ledger entries, and the creation of workspaces beyond their id and connection.
- Columns of repositories, budgets and branches that no property depends on (visibility, amounts, SHAs, sync times).
- The monitoring state and the merging of duplicates inside the migration of older stores; `EstateIdentity.Sound`
  is what it leaves behind.
- Letter case outside A to Z, and the choice of a usage repository among several of one name: one answer per name.
- Dates that are not of the form yyyy-mm-dd, beyond their order as texts; how many days a month has.
- Compaction, listing, cost forecasts, currency, health rules and capability mapping.
- The collectors' requests and limits; their snapshots are inputs, with the comparisons they obtained.
- The reasons that accompany a default-branch status, and branch-name exclusion patterns.
- PEM text, base64 and key import; JSON and Markdown exports; the guard of `exportCsv`, which has none, so that
  `CsvExport.PrintedTableReadsBack` applies to it as it stands.
