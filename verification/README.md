# Durable machines around a knowledge sidecar, verified

This project models the state machines and bounded loops that the sidecar and its console gateway are
built on, and proves what their code and documentation promise. It is a Dafny 4.11 project;
`dafny verify dfyconfig.toml` checks all of it.

## What is modelled

| files | subject |
|---|---|
| `RolloutState`, `RolloutService`, `RolloutRuns`, `RolloutEffects`, `RolloutSafeguards` | the scoped SHADOW/ACTIVE rollout: persisted state, compare-and-swap, volatile fail-safe, runtime controller, restarts; what each operation means on the stored fields, and what its checks come to |
| `HighRiskGovernance`, `HighRiskRuns`, `HighRiskAuthority` | high-risk previews and commits, their stores, every interleaving of commits, crashes and policy updates, and by whose permission and under which policy anything runs |
| `ClosureOperations`, `ClosureRuns` | the PENDING, OUTCOME, COMPLETED record of a closure, statement by statement, over several processes |
| `IngestionCheckpoints`, `IngestionService`, `IngestionRuns`, `IngestionSchedule` | the checkpoint machine of a session, the catalog scan, capture and recovery passes, runs of them, and when each session is captured |
| `Utf8`, `InvalidationLog`, `SseStream`, `InvalidationFeed` | the bounded replay log and its sizes in bytes, the text of its event stream, and a client that reconnects and polls |
| `LineSplitting`, `McpFraming`, `McpDispatch`, `McpAnswers` | line framing of the MCP stdio transport, its bounded in-flight request machine, and which response each request gets |
| `EventLedger`, `PagedReads`, `SnapshotScans`, `SnapshotPlan`, `SnapshotCursors` | ledger pagination, the scans before a snapshot, incremental snapshot planning, and how far snapshots have read their transcript |
| `VerificationPool`, `RateLimiter` | the shared-cursor verification pool and the fixed-window rate limiter |

Objects whose methods update fields are classes here too. Each of their methods is proved equal to a
function of the old state, or to a relation on it. What these functions mean is stated a second time, on
the fields that are stored and without naming them, in `RolloutEffects`, `HighRiskAuthority`,
`IngestionSchedule`, `SnapshotCursors`, `McpAnswers` and beside the classes. The runs of whole systems are state machines whose
steps are those functions, except where a system is modelled more finely or by its effect, and lemmas
make the connection: a step of `ClosureRuns` is one SQL statement or publication, and a handle that is
left alone ends as the method does (`FreshHandleFinishes`, `ReplayFinishes`); the lives of a checkpoint
are what any runs of the service do to it (`IngestionRuns.RunsAreLives`); a delivery of the feed is what
the stream's parser makes of the frame (`InvalidationFeed.CutTextIsCutPipe`). Elsewhere a step is what
runs between two awaits. Fingerprints and hashes are injective: they are modelled by what they cover. Times are integers. Ports, clocks and
failures are parameters. A save may fail before or after it has taken effect.

## What the proofs found

* Any half-open interval of one window lets at most 2 * maximum - 1 calls of a key through, one fewer
  than two full windows; the bound is reached for every configuration (`RateLimiter`).
* The scan before a snapshot's range reports an earlier event of the session exactly if there is one or
  a sequence number is missing after its last full page (`SnapshotScans.EarlierScanIsExact`).
* An ended session whose transcript has an ignored record, among others, is refused, because request
  and observer disagree about its completeness (`SnapshotPlan.CompletenessAgrees` is the exact condition).
* A READY plan is settled by one snapshot, and is CURRENT from then on, exactly if its range can be stored
  and was not extracted before from this transcript, up to this cursor, by this pipeline
  (`SnapshotPlan.SettlesExactly`). Otherwise nothing is stored and the same range is planned again for
  ever. So it goes after a pipeline that is switched away and back, because the snapshot exists
  (`SnapshotPlan.SwitchingBackNeverSettles`). So it goes, too, after any change of the pipeline for an
  ended, fully supported session with more than one range, because the observer, without a snapshot to
  continue, sees the events of the earlier ranges and refuses the claim that the source is complete
  (`SnapshotPlan.EndedRangeNeverSettles`, `SnapshotPlan.TwoRangesNeverSettle`).
* Snapshots of one transcript and pipeline never go back in it (`SnapshotCursors.RunsRaiseCursors`), but
  after a snapshot by another pipeline in between they may (`SnapshotCursors.ReturningPipelineMayGoBack`).
* A session that is due is captured in the run by which all that were ahead of it could be taken, at the
  latest, however their attempts end: nothing that is observed or retried later overtakes it
  (`IngestionSchedule.DueSessionIsCaptured`).
* A recovery is left without a wake-up time exactly if an available source is observed to be already
  captured while its recovery is open (`IngestionCheckpoints.StrandedExactlyWhenObservedCurrent`).
* At the last safe state revision a failed downgrade cannot stop the runtime controller, although every
  decision is SHADOW (`RolloutRuns.DowngradeFailsSafe`). An ACTIVE state comes back after a restart
  exactly if its evidence is still in the list, and it is lost exactly if the list is full, that evidence
  is the oldest, and another one is recorded (`RolloutRuns.ComesBackExactly`, `RolloutRuns.LostExactly`).
* A commit result carries the policy revision read after the execution. The memory store keeps it,
  unless it holds one of another revision already (`HighRiskRuns.MemoryCommitExactly`); once it is lost
  with its process, the same preview can return another revision (`HighRiskRuns.LostStoreForgetsRevision`). The file store
  refuses it unless it is the preview's; it also needs the preview, and room for the record or the record
  itself. Otherwise the effect has no commit record (`HighRiskRuns.FileCommitExactly`), and an instance
  whose policy has moved on never makes up for it (`HighRiskRuns.MovedOnNeverCommits`).
* A reader of the invalidation log is also told to resync if numbers are missing right before the oldest
  retained event (`InvalidationLog.StaleExactly`). The gateway's own publisher leaves no gaps.
* A stream opens with a block that has no id. Section 9.2.6 of the HTML standard lets the id buffer of
  each connection start out empty, and such a client loses its cursor to that block: if its stream breaks
  before an event is delivered, it starts anew at the newest event, and what was published in between is
  lost to it without an order to resync (`InvalidationFeed.BrokenStreamLosesExactly`). Events are lost in
  no other way (`InvalidationFeed.SkipsExactly`), and to no client that keeps its id once it has a cursor
  (`InvalidationFeed.NeverSkippedWithKeptId`).

## Model

| member | source | states |
|---|---|---|
| RolloutState.RolloutStateStore.SaveState | packages/active-rollout-service/src/store.ts:42-49 | a save takes effect exactly if the state is valid, the stored revision is the expected one and the next follows it, and returns exactly if no fault occurs; a fault may hide a save that took effect |
| RolloutState.InjectionRolloutController.ActivateMode | packages/codex-context-injection/src/rollout.ts:32-45 | the controller changes exactly for a greater safe revision, and becomes ACTIVE only with convincing evidence: a dataset id that is a text of one line, a version and a fingerprint |
| RolloutState.SafeIdsAreText | packages/codex-context-injection/src/rollout.ts:7-10 | the controller accepts every dataset id that the service accepts |
| RolloutService.ActiveRolloutService.Create | packages/active-rollout-service/src/rollout-service.ts:81-112 | a process comes up exactly as booting from the stored state says: bootstrap and save, or load, then hydrate |
| RolloutService.ActiveRolloutService.HydrateController | packages/active-rollout-service/src/rollout-service.ts:284-298 | hydration succeeds exactly for a SHADOW state or an ACTIVE one with matching eligible evidence, and sets the controller to its mode |
| RolloutService.ActiveRolloutService.Record | packages/active-rollout-service/src/rollout-service.ts:118-133 | evidence is recorded, found again, or refused, under every save fault |
| RolloutService.ActiveRolloutService.GreatestKnown | packages/active-rollout-service/src/rollout-service.ts:140-144 | the loop computes the greatest policy revision in view |
| RolloutService.ActiveRolloutService.Activate | packages/active-rollout-service/src/rollout-service.ts:135-186 | an activation does to state, store and controller what the specification of its checks, its save and its activation says |
| RolloutService.ActiveRolloutService.Decision | packages/active-rollout-service/src/rollout-service.ts:188-218 | the decision follows the volatile shadow, the mode and the canary, in that order |
| RolloutService.ActiveRolloutService.ForceRuntimeShadow | packages/active-rollout-service/src/rollout-service.ts:300-305 | the fail-safe sets the volatile shadow always and the controller if its revision lags and the new one is safe |
| RolloutService.ActiveRolloutService.DowngradeTo | packages/active-rollout-service/src/rollout-service.ts:220-251 | a downgrade leaves process, store and answer as the specification of its checks, its save and its fail-safe says; what that restores is stated by the rows of RolloutEffects |
| RolloutService.ActiveRolloutService.Observe | packages/active-rollout-service/src/rollout-service.ts:253-269 | unrecordable evidence forces the shadow; failing or foreign evidence downgrades |
| RolloutService.ActiveRolloutService.ObserveResult | packages/active-rollout-service/src/rollout-service.ts:271-282 | exactly a failed injection under the effective ACTIVE revision downgrades |
| RolloutRuns.RunKeepsInv | packages/active-rollout-service/src/rollout-service.ts:76-306 | over every run of processes with one store, crashes, restarts and failing saves, every stored state is sound, every process holds a stored state, and its controller follows it |
| RolloutRuns.ControllerFollowsTheState | packages/active-rollout-service/src/rollout-service.ts:300-305 | in every reachable world the controller is ACTIVE exactly when the state is and no volatile shadow is set, up to the last safe revision, and its revision is at most one ahead |
| RolloutRuns.ActivationFollows | packages/active-rollout-service/src/rollout-service.ts:182-185 | an activation that is saved always reaches the controller, with the new state revision |
| RolloutRuns.AppendedAudit | packages/active-rollout-service/src/rollout-service.ts:72-74 | whatever truncation drops, the newest two audit entries stay in view and the kinds still alternate |
| RolloutRuns.DowngradeIsAudited | packages/active-rollout-service/src/rollout-service.ts:224-239 | a downgrade keeps the greatest policy revision in view |
| RolloutRuns.TheMaximumStaysInView | packages/active-rollout-service/src/rollout-service.ts:140-144 | the greatest revision in view of any stored state is the greatest that was ever effective, although the audit is truncated |
| RolloutRuns.ActivationsAlwaysIncrease | packages/active-rollout-service/src/rollout-service.ts:140-148 | every activation that takes effect exceeds every policy revision that was effective before, in every run |
| RolloutRuns.ShadowOnlyDecidesShadow | packages/active-rollout-service/src/rollout-service.ts:194-208 | a shadow-only process decides SHADOW for every valid scope |
| RolloutRuns.DecidesActiveExactly | packages/active-rollout-service/src/rollout-service.ts:188-218 | a request is let through exactly if it is in the canary of an ACTIVE state without volatile shadow, and then the controller is ACTIVE |
| RolloutRuns.DowngradeFailsSafe | packages/active-rollout-service/src/rollout-service.ts:240-251 | after a validated downgrade of an ACTIVE process every decision is SHADOW, even if the save throws; the controller stays ACTIVE exactly at the last safe revision |
| RolloutRuns.UnrecordedEvidenceFailsSafe | packages/active-rollout-service/src/rollout-service.ts:253-261 | evidence that cannot be recorded leaves the process shadow-only |
| RolloutRuns.ShadowLastsUntilActivation | packages/active-rollout-service/src/rollout-service.ts:76-306 | over every run a shadow-only process stays so until one of its activations succeeds |
| RolloutRuns.ComesBackExactly | packages/active-rollout-service/src/rollout-service.ts:284-298 | a reachable state hydrates exactly if it is SHADOW or its evidence is still in the list |
| RolloutRuns.LostExactly | packages/active-rollout-service/src/rollout-service.ts:125-129 | recording another evidence loses the active one exactly if the list is full and it is the oldest |
| RolloutEffects.DowngradeRestores | packages/active-rollout-service/src/rollout-service.ts:220-251 | in every run, the SHADOW state after an ACTIVE one has the policy revision, fingerprints, canary and evidence that were effective just before the activation, as effective and as last known good, and its newest audit entry is that downgrade |
| RolloutEffects.KnownGoodStays | packages/active-rollout-service/src/rollout-service.ts:118-133 | as long as a revision is ACTIVE, recorded evidence changes neither what is effective nor the last known good nor the audit |
| RolloutEffects.DowngradeOnFields | packages/active-rollout-service/src/rollout-service.ts:224-251 | a downgrade that returns leaves process and store with the last known good revision in SHADOW, one state revision on, with the same evidence and no volatile shadow |
| RolloutEffects.ActivatesExactly | packages/active-rollout-service/src/rollout-service.ts:135-186 | an activation returns exactly from SHADOW, over its own stored state, for a policy revision greater than each in view, with a valid canary and a listed evidence that passed every check and is bound to its fingerprints; then the request is effective and what was effective is the last known good |
| RolloutEffects.RecordsExactly | packages/active-rollout-service/src/rollout-service.ts:118-133 | recording returns exactly for evidence that is listed already, or valid and saved over its own stored state; then it is in the list, and of the others at most the oldest has gone |
| RolloutEffects.EvidenceDecides | packages/active-rollout-service/src/rollout-service.ts:253-269 | recorded evidence leaves the process shadow-only exactly if it fails or is of other fingerprints than the effective ACTIVE revision; otherwise what is effective and the controller stay |
| RolloutEffects.ResultDecides | packages/active-rollout-service/src/rollout-service.ts:271-282 | a timeout, provider error or invalid context of an ACTIVE decision under the effective revision leaves the process shadow-only; every other result changes nothing |
| RolloutEffects.DecisionOnFields | packages/active-rollout-service/src/rollout-service.ts:188-218 | a decision names its state and policy revision and is ACTIVE exactly without volatile shadow, in an ACTIVE state, for a request in every selector with its bucket below the percentage |
| RolloutEffects.CanaryShare | packages/active-rollout-service/src/rollout-service.ts:57-70 | of the 10,000 buckets a canary lets exactly its basis points through |
| RolloutEffects.BeginsInShadow | packages/active-rollout-service/src/rollout-service.ts:81-112 | a service without a stored state begins in SHADOW with the bootstrap revision as effective and last known good; with one it goes on with that and writes nothing |
| RolloutSafeguards.CanaryIsPartial | packages/active-rollout-service/src/rollout-service.ts:23-39 | a canary that is accepted lets some valid request through and never all of them |
| RolloutSafeguards.EvidenceIsWhole | packages/active-rollout-service/src/evaluation.ts:28-50 | a valid evidence has exactly one check for each of the nine codes and no other, is eligible exactly if all passed, and counts no trace twice |
| RolloutSafeguards.FingerprintExactly | packages/active-rollout-service/src/validation.ts:4-17 | a fingerprint is the name of the hash followed by 64 hexadecimal digits |
| RolloutSafeguards.ActiveComesBackExactly | packages/active-rollout-service/src/rollout-service.ts:284-298 | whatever valid state is stored, an ACTIVE one is brought back exactly with a valid canary and an eligible evidence of its id and fingerprints, and the controller is then ACTIVE at its revision |
| RolloutSafeguards.FailedInjectionIsNamed | packages/active-rollout-service/src/rollout-service.ts:271-282 | each kind of failed injection is named in the audit, or in the volatile shadow if the downgrade could not be saved |
| RolloutSafeguards.BadEvidenceIsNamed | packages/active-rollout-service/src/rollout-service.ts:253-269 | evidence against the effective revision is named as degraded if it was recorded, and as unsafe in the volatile shadow if not |
| RolloutSafeguards.ActivationIsNamed | packages/active-rollout-service/src/rollout-service.ts:172-181 | an activation is recorded under its own policy revision, state revision and moment |
| RolloutSafeguards.HistoryIsBounded | packages/active-rollout-service/src/store.ts:28-31 | over every run the audit holds 1 to 10,000 entries, the evidence list at most 1,000, and state revisions count the saves |
| HighRiskGovernance.HighRiskGovernanceStateStore.PutPreview | packages/active-rollout-service/src/high-risk-store.ts:111-121 | a preview is stored once under its id, refused if another one has it, and in the file store only if it computes its own id and there is room |
| HighRiskGovernance.HighRiskGovernanceStateStore.PutCommit | packages/active-rollout-service/src/high-risk-store.ts:128-138 | a commit record is stored once and never changed; the file store also demands its preview, kind and policy revision |
| HighRiskGovernance.HighRiskGovernanceService.UpdatePolicy | packages/active-rollout-service/src/high-risk-governance.ts:100-107 | a policy is replaced exactly by a valid one with a greater revision, from the expected one |
| HighRiskGovernance.HighRiskGovernanceService.KeepPreview | packages/active-rollout-service/src/high-risk-governance.ts:109-127 | once the port has answered, a preview bound to the then current policy revision and its time to live is stored, or the call fails; a privacy purge is previewed only as irreversible |
| HighRiskGovernance.HighRiskGovernanceService.BeginCommit | packages/active-rollout-service/src/high-risk-governance.ts:129-173 | a commit goes on to execution exactly for a stored, matching, unexpired and uncommitted preview of the current policy revision with the ACTIVE stage and its kind enabled; it is replayed exactly for a committed one with the own confirmation of its actor; otherwise it is refused |
| HighRiskGovernance.HighRiskGovernanceService.Authorized | packages/active-rollout-service/src/high-risk-governance.ts:174-194 | execution goes out exactly with permission, the actor's own confirmation and nothing in flight for the preview, under a stable identity |
| HighRiskGovernance.HighRiskGovernanceService.Settled | packages/active-rollout-service/src/high-risk-governance.ts:194-209 | the end of a commit: a matching receipt becomes a stored result, and the preview leaves the in-flight set on every path |
| HighRiskRuns.RunKeepsInv | packages/active-rollout-service/src/high-risk-governance.ts:129-210 | the invariant of ports, stores, calls and in-flight sets over every interleaving with crashes, restarts, policy updates and store loss |
| HighRiskRuns.EffectsAtMostOnce | packages/active-rollout-service/src/types.ts:181-188 | with a port that keeps its contract every preview takes effect at most once, and only as its actor confirmed |
| HighRiskRuns.OneExecutionPerInstance | packages/active-rollout-service/src/high-risk-governance.ts:180-182 | one service instance never has two executions outstanding for a preview |
| HighRiskRuns.CommitsAgree | packages/active-rollout-service/src/high-risk-governance.ts:138-153 | all successful commits of a preview return the same result; after the loss of a memory store they agree on all but the policy revision |
| HighRiskRuns.WritesOnce | packages/active-rollout-service/src/high-risk-governance.ts:234-240 | writing a commit adds a record at most once and never alters one |
| HighRiskRuns.CommitIsGood | packages/active-rollout-service/src/high-risk-governance.ts:194-206 | the port's receipt determines the result up to the policy revision |
| HighRiskRuns.FileCommitExactly | packages/active-rollout-service/src/high-risk-store.ts:69-80 | with the file store a carried-out execution is committed exactly if the preview is stored, the policy revision is the preview's, and the commit is stored already or there is room for it and no fault; if it is not committed the store is unchanged, unless a fault hides a write that took effect, and the effect stands |
| HighRiskRuns.MemoryCommitExactly | packages/active-rollout-service/src/high-risk-governance.ts:195-206 | with the memory store the result has whatever revision the policy has after the execution, and is refused exactly if the store holds one of another revision |
| HighRiskRuns.LostStoreForgetsRevision | packages/active-rollout-service/src/high-risk-governance.ts:195-206 | two lives of a memory store return results of one preview, of one effect, with whatever two revisions the policy had when each execution settled |
| HighRiskRuns.PolicyOnlyRises | packages/active-rollout-service/src/high-risk-governance.ts:100-107 | over every run the policy revision of a living instance never falls |
| HighRiskRuns.MovedOnNeverCommits | packages/active-rollout-service/src/high-risk-governance.ts:194-206 | with the file store an instance whose policy has moved on from a preview never commits it in any later run, whatever the faults do |
| HighRiskRuns.MovedOnNeverExecutes | packages/active-rollout-service/src/high-risk-governance.ts:154-173 | nor does it begin another execution of it |
| HighRiskAuthority.NothingRunsUnallowed | packages/active-rollout-service/src/high-risk-governance.ts:154-194 | over every run, whatever was sent to the port or took effect is the request of a call that was granted permission and that began while its instance had a policy of the revision of the preview with the ACTIVE stage and the kind enabled, with the preview stored, unexpired and uncommitted |
| HighRiskAuthority.ReturnedIsOwn | packages/active-rollout-service/src/high-risk-governance.ts:129-210 | over every run a call that returns was granted permission, and its result is of its own preview, actor, kind and blast radius, from the receipt of its own request |
| ClosureOperations.SqliteActiveClosureOperationStore.Begin | packages/active-knowledge-runtime/src/closure-operation-store.ts:76-87 | prepare or find the operation; another request under its identity is refused |
| ClosureOperations.SqliteActiveClosureOperationStore.SaveOutcome | packages/active-knowledge-runtime/src/closure-operation-store.ts:89-107 | the first outcome is checkpointed and stays; a different one, an oversized one or a foreign request is refused |
| ClosureOperations.SqliteActiveClosureOperationStore.Complete | packages/active-knowledge-runtime/src/closure-operation-store.ts:109-120 | an operation completes exactly with an outcome and its own request, and completing again changes nothing |
| ClosureOperations.RuntimeAuditStore.RecordClosure | packages/runtime-audit-store/src/store.ts:264-276 | recording is idempotent for the same record and refused for another under its id |
| ClosureOperations.ActiveClosureRuntime.Publish | packages/active-knowledge-runtime/src/closure-runtime.ts:130-145 | publishing a checkpointed outcome never conflicts; it returns it exactly if the confirmation store accepts, and the operation is then COMPLETED |
| ClosureOperations.ActiveClosureRuntime.Handle | packages/active-knowledge-runtime/src/closure-runtime.ts:147-225 | in every ending a handle leaves rows, audit store, confirmations and answer as specified: an outcome that was computed within the limit is checkpointed and its audit recorded even if the confirmation is refused, a failed or refused computation leaves the row PENDING, other rows stay, and the key is released |
| ClosureOperations.HandledFields | packages/active-knowledge-runtime/src/closure-runtime.ts:147-225 | what a handle makes of its own row, the other rows and the audit store, field by field, in every ending; a result is the outcome of a COMPLETED row |
| ClosureOperations.FirstOutcomeIsReplayed | packages/active-knowledge-runtime/src/closure-runtime.ts:130-150 | once an outcome was computed, every later handle of the request returns that one and no other as soon as the confirmation store accepts, whatever it would compute itself |
| ClosureRuns.RunKeepsInv | packages/active-knowledge-runtime/src/closure-runtime.ts:130-225 | over every interleaving of statements of concurrent handles, failures and crashes, rows, publications and calls stay consistent, and nothing is taken back |
| ClosureRuns.RowsOnlyMoveForward | packages/active-knowledge-runtime/src/closure-operation-store.ts:76-120 | status only moves PENDING, OUTCOME, COMPLETED, request and checkpointed outcome never change, and COMPLETED implies audit and confirmation published |
| ClosureRuns.SuccessfulHandlesAgree | packages/active-knowledge-runtime/src/closure-runtime.ts:130-145 | all handles of an identity that return were for one request and return the same stop and audit |
| ClosureRuns.OtherRequestsAreRefused | packages/active-knowledge-runtime/src/closure-operation-store.ts:69-82 | once an identity has a row, a handle with another request hash never returns and never publishes |
| ClosureRuns.OneComputationPerProcess | packages/active-knowledge-runtime/src/closure-runtime.ts:151-152 | a process computes at most one outcome for an identity at a time |
| ClosureRuns.AuditNeverConflicts | packages/active-knowledge-runtime/src/closure-runtime.ts:135-136 | whoever published a run before published the same record |
| ClosureRuns.ReplayFinishes | packages/active-knowledge-runtime/src/closure-runtime.ts:149-150 | whatever crashed before, a new handle of a checkpointed request that is left alone returns its outcome, completes its row and changes no other |
| ClosureRuns.FreshHandleFinishes | packages/active-knowledge-runtime/src/closure-runtime.ts:147-220 | a handle of an unanswered operation that is left alone refuses a key in progress or an outcome that is too large, and otherwise returns what it computed, completes its row, changes no other, and releases its key |
| IngestionCheckpoints.ObserveKeepsShape | packages/automatic-ingestion/src/service.ts:192-238 | observing keeps the checkpoint's shape and raises its version by one |
| IngestionCheckpoints.CaptureKeepsShape | packages/automatic-ingestion/src/service.ts:240-318 | every ending of a capture attempt keeps the shape |
| IngestionCheckpoints.RecoverKeepsShape | packages/automatic-ingestion/src/service.ts:320-368 | every ending of a recovery attempt keeps the shape |
| IngestionCheckpoints.LifeKeepsShape | packages/automatic-ingestion/src/service.ts:192-368 | over every serial life the checkpoint keeps its shape and each change raises the version by one |
| IngestionCheckpoints.StrandedExactlyWhenObservedCurrent | packages/automatic-ingestion/src/service.ts:208-228 | a pending recovery loses its wake-up time exactly if an available source is observed as already captured |
| IngestionCheckpoints.RecoveryKeyIsStable | packages/automatic-ingestion/src/service.ts:336-356 | all recovery attempts of a life up to the completing one carry the same key, whatever is observed in between |
| IngestionRuns.RunsAreLives | packages/automatic-ingestion/src/service.ts:113-141 | after any runs of the service from an empty store, the checkpoint of each session is what its life says: its observations and its due attempts, in order |
| IngestionRuns.RecoveryAttemptsShareTheirKey | packages/automatic-ingestion/src/service.ts:336-356 | over any runs the recovery attempts of a session carry the same key until one of them completes |
| IngestionCheckpoints.CheckpointStore.CompareAndSwap | packages/automatic-ingestion/src/checkpoint.ts:20-31 | a checkpoint is committed exactly over the expected version, under its own id, with the next version |
| IngestionCheckpoints.CheckpointStore.ListEligible | packages/automatic-ingestion/src/checkpoint.ts:33-45 | the listing is exactly the earliest due checkpoints in order of due time and id, as many as the limit allows |
| IngestionService.AutomaticIngestionService.Update | packages/automatic-ingestion/src/service.ts:421-435 | the retry loop does what the contest of its attempts with other writers says, and ends as that ends |
| IngestionService.FirstUnbeatenCommits | packages/automatic-ingestion/src/service.ts:426-434 | an update gives up exactly if another writer beats it in every attempt; otherwise the first attempt that is not beaten changes what it has loaded, if there is anything to change |
| IngestionService.CommitsOverWhatItLoaded | packages/automatic-ingestion/src/service.ts:426-434 | against writers that raise the version, as compare-and-swap makes them, an update that commits replaces exactly what its last attempt loaded, so no other write is lost |
| IngestionService.AutomaticIngestionService.TakePage | packages/automatic-ingestion/src/service.ts:158-169 | a page contributes each valid new session once and is observed, up to the session bound, and completely if it fits |
| IngestionService.AutomaticIngestionService.ScanCatalog | packages/automatic-ingestion/src/service.ts:143-190 | for every catalog the scan stops only at a bound, at the end of the chain or where it turns back; it follows no position twice, keeps at most the bound of distinct valid sessions and below it all of them, and is COMPLETE only if the chain ended and every page was taken whole |
| IngestionService.AutomaticIngestionService.CaptureEligible | packages/automatic-ingestion/src/service.ts:240-318 | one pass handles exactly the earliest due sessions, one attempt each, changes nothing else, and counts the successes |
| IngestionService.AutomaticIngestionService.RecoverEligible | packages/automatic-ingestion/src/service.ts:320-368 | one pass makes one attempt for each of the earliest due recoveries whose session exists, and counts the completions |
| IngestionService.AutomaticIngestionService.RunOnce | packages/automatic-ingestion/src/service.ts:113-141 | a run is a scan, a capture pass over its entries and a recovery pass, counts what they achieved, and keeps the shape of every checkpoint; what that makes of each session is stated by the rows of IngestionSchedule |
| IngestionService.PassRemovesBatch | packages/automatic-ingestion/src/service.ts:245-317 | a capture pass removes exactly its batch from the due set, whatever the outcomes |
| IngestionService.PassesDrain | packages/automatic-ingestion/src/service.ts:245-249 | after k passes at one time exactly max(0, n - k * max) sessions are due |
| IngestionService.CapturedAtMostOnce | packages/automatic-ingestion/src/service.ts:245-317 | no session is in the batches of two passes at the same time |
| IngestionService.CeilingDrains | packages/automatic-ingestion/src/service.ts:245-249 | passes at one time drain the queue exactly from n / max rounded up on |
| IngestionSchedule.ObservationOnFields | packages/automatic-ingestion/src/service.ts:192-238 | a session is left alone exactly if source version, availability, alias and activity are all the same; otherwise it is SOURCE_UNAVAILABLE without a source, stays under an open recovery, is CAPTURED_CURRENT if captured already, and else FOLLOW_PENDING from the debounce on, with what was captured kept |
| IngestionSchedule.LifeTellsLastEntry | packages/automatic-ingestion/src/service.ts:192-238 | over every life the checkpoint tells source version, availability, alias and activity of the last observed entry |
| IngestionSchedule.ScanOnFields | packages/automatic-ingestion/src/service.ts:143-190 | a scan observes exactly the new and changed sessions it has seen, and leaves every other checkpoint alone |
| IngestionSchedule.NewSessionIsDue | packages/automatic-ingestion/src/service.ts:223-228 | a new or changed session that is there, not captured and not under recovery is in the due set exactly from its scan plus the debounce on |
| IngestionSchedule.EarliestFirst | packages/automatic-ingestion/src/checkpoint.ts:33-45 | listed are eligible sessions whose time has come, earliest first and by id, and whatever is left out comes after all of them |
| IngestionSchedule.CaptureOnFields | packages/automatic-ingestion/src/service.ts:240-318 | after an attempt a session is due again from the debounce on if there is more, from the retry delay on if it failed, for recovery at once if its source was mutated, and not otherwise; cursor, diagnostic, key and times are those of the ending |
| IngestionSchedule.MissingExactly | packages/automatic-ingestion/src/service.ts:251-262 | a source is missing exactly if its session is unknown to scan and catalog, or unavailable |
| IngestionSchedule.RecoveryOnFields | packages/automatic-ingestion/src/service.ts:320-368 | after a completed recovery a session is due for capture from the debounce on, after any other for recovery from the retry delay on, with its key and diagnostic kept |
| IngestionSchedule.NotYetCaptured | packages/automatic-ingestion/src/service.ts:240-249 | as long as a due session is not captured it stays as it is, and every run takes the full number of sessions from ahead of it |
| IngestionSchedule.DueSessionIsCaptured | packages/automatic-ingestion/src/service.ts:240-249 | over any runs a due session is captured at the latest in the run by which all that were ahead of it could be taken, however their attempts end |
| IngestionSchedule.NewSessionIsCaptured | packages/automatic-ingestion/src/service.ts:113-141 | in particular every session that a run finds new or changed, available, not captured and not under recovery |
| InvalidationLog.BoundedInvalidationLog.Create | apps/console-gateway/src/invalidation.ts:75-78 | a log is created exactly with bounds in range |
| InvalidationLog.BoundedInvalidationLog.Publish | apps/console-gateway/src/invalidation.ts:88-113 | a publication is accepted exactly if it is an invalidation with a greater safe revision whose frame has at most the maximum of bytes; then the log is again the longest suffix of the history within both bounds, and every listener that does not throw gets the event once |
| InvalidationLog.BoundedInvalidationLog.Evict | apps/console-gateway/src/invalidation.ts:101-104 | the eviction loop leaves what shifting off from the front leaves until both bounds hold, and the byte count is its sum |
| InvalidationLog.EvictedIsLongest | apps/console-gateway/src/invalidation.ts:101-104 | that is the longest end of the list within both bounds |
| InvalidationLog.BoundedInvalidationLog.TakeSnapshot | apps/console-gateway/src/invalidation.ts:115-143 | a reader gets the next events of the whole history after its revision and where to go on from, or the order to resync |
| InvalidationLog.LongestFits | apps/console-gateway/src/invalidation.ts:101-104 | the first kept event is the only one whose suffix fits while no longer one does |
| InvalidationLog.EvictedStaysEvicted | apps/console-gateway/src/invalidation.ts:88-104 | publishing never brings an evicted event back |
| InvalidationLog.SomethingFits | apps/console-gateway/src/invalidation.ts:96-104 | the log is never empty once something was published |
| InvalidationLog.KeepsWhatFits | apps/console-gateway/src/invalidation.ts:96-104 | what is kept is the end of the history with its frames and sizes, within both bounds, and one event more would exceed one of them |
| Utf8.ByteLengthCounts | apps/console-gateway/src/invalidation.ts:96 | a size is the number of bytes of the UTF-8 encoding of section 3 of RFC 3629 |
| Utf8.StringComesBack | apps/console-gateway/src/invalidation.ts:96 | decoding that encoding, with overlong forms and surrogates refused, gives every string back |
| InvalidationLog.DeliveredExactly | apps/console-gateway/src/invalidation.ts:105-111 | a listener that throws is gone, every other one has been called once, with this event |
| InvalidationLog.StaleExactly | apps/console-gateway/src/invalidation.ts:118-120 | an evicted unseen event always forces a resync; it is forced needlessly exactly ahead of the log or if numbers are missing before the oldest retained event |
| InvalidationLog.StaleWithoutGaps | apps/console-gateway/src/server.ts:368-381 | with the gateway's gap-free revisions a resync is forced exactly if needed |
| InvalidationLog.GapAsksForResync | apps/console-gateway/src/invalidation.ts:118-120 | with a gap it is forced on a reader who missed nothing |
| InvalidationLog.PageAnswers | apps/console-gateway/src/invalidation.ts:132-142 | a page is the next piece of the history and its next revision leaves the reader right behind it |
| SseStream.RevisionRoundTrip | apps/console-gateway/src/invalidation.ts:151-155 | exactly the safe integers survive the trip through a header, each from exactly one text |
| SseStream.WholeStream | apps/console-gateway/src/invalidation.ts:47-49 | parsing a stream dispatches exactly its events, in order, with their ids |
| SseStream.CutStream | apps/console-gateway/src/server.ts:553-585 | wherever a stream is cut, exactly the whole events count, and the last event id is theirs |
| InvalidationFeed.RunKeepsInv | apps/console-gateway/src/server.ts:542-623 | the invariant of log, stream, pipe and client over every run of publishes, heartbeats, overflows, breaks, reconnects and polls |
| InvalidationFeed.EveryClientSeesSegments | apps/console-gateway/src/server.ts:542-623 | whatever its id buffer starts with, what a client received since it last started over is a contiguous piece of the history, in order and once each, and its cursor is the end of that piece; a live stream read to its end has missed nothing of it |
| InvalidationFeed.StartsOverOnlyWhenTold | apps/console-gateway/src/server.ts:557-565 | a client's piece is abandoned only by an order to resync, or while it has no cursor |
| InvalidationFeed.RestartsExactly | apps/console-gateway/src/server.ts:557-565 | a step tells the client to start over exactly as often as it delivers or polls such an order, or polls from a revision that the log cannot answer |
| InvalidationFeed.SkipsExactly | apps/console-gateway/src/server.ts:549-565 | a step loses events to a client without telling it exactly if the client connects without a cursor, with a readable header, while it is behind |
| InvalidationFeed.NoCursorExactly | apps/console-gateway/src/server.ts:549-556 | a connected client has no cursor exactly if its connection has delivered no event, and it came without one or its id buffer started out empty and a block was delivered |
| InvalidationFeed.CursorLasts | apps/console-gateway/src/server.ts:542-623 | a client that keeps its id never loses its cursor in any run |
| InvalidationFeed.NeverSkippedWithKeptId | apps/console-gateway/src/server.ts:542-623 | from the moment such a client has a cursor, no step of any run loses events to it |
| InvalidationFeed.EvictionForcesResync | apps/console-gateway/src/invalidation.ts:118-131 | an event evicted before the client saw it forces a resync on a poll and on a reconnect |
| InvalidationFeed.ReplayContinues | apps/console-gateway/src/server.ts:547-584 | replay and subscription leave no seam: the frames continue where the client is and end at the newest event |
| InvalidationFeed.ReplayIsWhole | apps/console-gateway/src/invalidation.ts:115-143 | over every run the log keeps the longest fitting suffix, so what a reconnecting client is replayed is never cut by a limit |
| InvalidationFeed.CursorTravels | apps/console-gateway/src/server.ts:547-549 | the gateway reads back exactly the client's cursor |
| InvalidationFeed.PollKeepsInv | apps/console-gateway/src/server.ts:611-613 | chained polls continue the client's piece page by page |
| InvalidationFeed.BrokenStreamLosesExactly | apps/console-gateway/src/server.ts:549-565 | a stream that breaks after its first block loses the event that is published before the next connection, with no order to resync, exactly if the id buffer starts out empty |
| InvalidationFeed.ConnectsAtTheEnd | apps/console-gateway/src/server.ts:549-550 | a client without a cursor starts at the newest event and is not told what it missed |
| InvalidationFeed.PollTakesTheAnswer | apps/console-gateway/src/server.ts:611-613 | a poll of the feed is what the client makes of the log's answer |
| InvalidationFeed.ReplayIsTheAnswer | apps/console-gateway/src/server.ts:557-584 | the frames of a connection are the log's answer for as many events as the log may hold |
| InvalidationFeed.CutTextIsCutPipe | apps/console-gateway/src/server.ts:553-585 | wherever the text of the pipe is cut, parsing it leaves the client as the delivery of its whole items does |
| LineSplitting.SplitThenJoin | apps/sidecar/src/mcp-command.ts:180-196 | cutting at separators loses nothing |
| LineSplitting.JoinThenSplit | apps/sidecar/src/mcp-command.ts:180-196 | there is no other way to cut |
| McpFraming.LineFramer.Consume | apps/sidecar/src/mcp-command.ts:170-178 | the line buffer holds the current line, or nothing once it is too long, and never more than the limit |
| McpFraming.LineFramer.ReadLine | apps/sidecar/src/mcp-command.ts:183-195 | one round of the inner loop takes the rest of a line and schedules its frame |
| McpFraming.LineFramer.Finish | apps/sidecar/src/mcp-command.ts:198-199 | a trailing piece is scheduled exactly if it is not empty |
| McpFraming.Run | apps/sidecar/src/mcp-command.ts:158-199 | however the stream is cut into chunks, the frames are those of the whole stream, one oversize error for each longer line |
| McpFraming.FramesOfJoined | apps/sidecar/src/mcp-command.ts:158-199 | a stream of lines and a last piece gives one frame for each line and one for the piece unless it is empty: its bytes if they are within the limit, and an oversize error if not |
| McpDispatch.EveryScheduleIsOrderly | apps/sidecar/src/mcp-command.ts:235-281 | in every interleaving the in-flight count is the size of the active set and within the maximum, controllers belong to active ids, and no task is answered twice |
| McpDispatch.TasksAreTheOwedRequests | apps/sidecar/src/mcp-command.ts:235-246 | exactly the requests with an id outside the notification methods are owed a response, in order of arrival |
| McpDispatch.ClosedStepsUsePendingWork | apps/sidecar/src/mcp-command.ts:200-205 | once stdin is closed every step uses up pending work |
| McpDispatch.ClosedAdapterProgresses | apps/sidecar/src/mcp-command.ts:511-521 | the closed adapter can always go on by itself while something is unanswered |
| McpDispatch.ClosedAdapterAnswersAll | apps/sidecar/src/mcp-command.ts:200-206 | after stdin closes all outstanding calls are answered even if handlers never settle |
| McpAnswers.RespondsExactly | apps/sidecar/src/mcp-command.ts:235-311 | a step gives a request its response exactly for the reason of that response: no free slot, id in use, invalid parameters, unknown method, a result, a cancelled call or a failed one; and a response that was given stays |
| McpAnswers.WaitsExactly | apps/sidecar/src/mcp-command.ts:283-311 | a valid call waits for the authority from its admission, and for the handler once the authority has agreed and it is not aborted |
| McpAnswers.AbortedExactly | apps/sidecar/src/mcp-command.ts:328-334 | a waiting call is aborted exactly by a cancellation of its id or the end of stdin, for good |
| McpAnswers.EveryResponseHasItsReason | apps/sidecar/src/mcp-command.ts:235-311 | in every interleaving, whatever the client is sent was decided by one step for its reason |
| McpAnswers.DecisionIsFinal | apps/sidecar/src/mcp-command.ts:235-311 | what one step decides is the only response its request is ever sent |
| McpAnswers.ResponsesLeaveInTurn | apps/sidecar/src/mcp-command.ts:352-358 | responses leave in the order in which they were decided |
| McpAnswers.CancelledOnlyForCause | apps/sidecar/src/mcp-command.ts:305-311 | a client is told that its call was cancelled only after it asked for that, or closed stdin |
| McpAnswers.CancelledCallsNeverFail | apps/sidecar/src/mcp-command.ts:305-311 | a call that is cancelled while it waits is answered as cancelled, or with the result of a handler that succeeds first, and never as failed |
| EventLedger.SelectIsSlice | packages/conversation-ledger/src/event-ledger.ts:324-337 | a range query over a gapped log reads one contiguous slice |
| PagedReads.CollectPage | apps/sidecar/src/p2-production.ts:287-291 | the inner loop appends exactly the session's records up to the end, stopping at the limit |
| PagedReads.PageAdvances | apps/sidecar/src/p2-production.ts:279-293 | a page is the next slice of the ledger and moves the cursor behind it |
| PagedReads.ReadSnapshotRecords | apps/sidecar/src/p2-production.ts:265-295 | the paged read ends and returns exactly the first records of the range, incomplete exactly if they are too few and the ledger stops short of the end |
| PagedReads.LedgerRange | apps/sidecar/src/p2-preview-coordinator.ts:35-58 | the range reader returns the whole range, or the error that applies |
| PagedReads.RangeReadAgreesWithSnapshotRead | apps/sidecar/src/p2-preview-coordinator.ts:35-58 | the range reader succeeds exactly if the paged read asked for one more than the maximum returns no more than it, and then both agree |
| SnapshotScans.LatestIsMaximum | packages/conversation-ledger/src/event-ledger.ts:324-337 | the latest sequence is the greatest of the session, or zero if there is none |
| SnapshotScans.ScanInterval | apps/sidecar/src/application.ts:601-619 | 1,000 pages of 1,000 are enough for every gap pattern within the span guard |
| SnapshotScans.ScanIsSound | apps/sidecar/src/application.ts:595-619 | a scan that finds nothing has visited the whole interval |
| SnapshotScans.ScanIsComplete | apps/sidecar/src/application.ts:601-619 | a scan that stays in its interval finds an event exactly if there is one |
| SnapshotScans.EarlierScanIsExact | apps/sidecar/src/application.ts:601-610 | the earlier scan reports an event exactly if there is one or a sequence number is missing after its last full page |
| SnapshotScans.LaterScanIsExact | apps/sidecar/src/application.ts:611-619 | the later scan reports an event exactly if there is one |
| SnapshotScans.CollectReferences | apps/sidecar/src/application.ts:573-593 | the references are exactly the session's records of the range, or the limit error |
| SnapshotScans.Observe | apps/sidecar/src/application.ts:563-629 | the observation of a range, with its three errors |
| SnapshotScans.ClosedIsExact | apps/sidecar/src/application.ts:620-621 | a range is reported closed exactly if its last event closes the session, nothing lies before or after it, and no number is missing in the last page before it |
| SnapshotScans.GapIsReportedAsEarlierEvent | apps/sidecar/src/application.ts:601-610 | a gap makes the scan report the session's own first event as an earlier one |
| SnapshotPlan.PreviewCoordinator.Plan | apps/sidecar/src/p2-preview-coordinator.ts:116-165 | the planner's decision, with its ledger reads as range queries |
| SnapshotPlan.PreviewCoordinator.Accepts | apps/sidecar/src/application.ts:620-628 | a range is accepted exactly if it can be read, the scan window suffices, and request and observer agree on its completeness |
| SnapshotPlan.PreviewCoordinator.Coordinate | apps/sidecar/src/p2-preview-coordinator.ts:167-228 | a coordination leaves store and answer as the specification of its plan, its two checks and its insertion says; which requests are stored is stated by the rows of SnapshotCursors |
| SnapshotPlan.PlannedRange | apps/sidecar/src/p2-preview-coordinator.ts:139-164 | a planned range is the next one, or the latest one again exactly if there is nothing new; it is planned again only if the transcript or the pipeline is not that of the newest snapshot |
| SnapshotPlan.CoordinationKeepsSound | apps/sidecar/src/p2-preview-coordinator.ts:116-228 | coordination keeps ranges bounded, pairwise disjoint or equal to the latest, and complete |
| SnapshotPlan.CoordinationCoversThrough | apps/sidecar/src/p2-preview-coordinator.ts:141-164 | whenever a compiled-through sequence is answered, every session event up to it is covered |
| SnapshotPlan.RunsAreSound | apps/sidecar/src/p2-preview-coordinator.ts:116-228 | over every serial run of appends and coordinations the ranges partition the session's events up to the last one |
| SnapshotPlan.ExistingExactly | apps/sidecar/src/p2-preview-coordinator.ts:132-164 | a coordination that answers for a snapshot finds it stored exactly if there is nothing new and the newest range was extracted before from this transcript, cursor and pipeline |
| SnapshotPlan.AnswersExactly | apps/sidecar/src/p2-preview-coordinator.ts:167-228 | a coordination answers for a snapshot exactly if its plan is READY and the range can be stored: readable, within the scan window, agreed complete or not, and with a cursor not behind |
| SnapshotPlan.SettlesExactly | apps/sidecar/src/p2-preview-coordinator.ts:132-143 | however often a question is coordinated, one snapshot is stored and the answer is CURRENT if the plan was READY, its range can be stored and it repeats no snapshot; otherwise nothing is stored and the answer stays what it was |
| SnapshotPlan.EndedRangeNeverSettles | apps/sidecar/src/application.ts:566-626 | after a change of pipeline or transcript, an ended session whose planned range is not its first is planned again for ever and never stored |
| SnapshotPlan.TwoRangesNeverSettle | apps/sidecar/src/application.ts:566-626 | so it is with two records in two ranges, although no snapshot is repeated |
| SnapshotPlan.SwitchingBackNeverSettles | apps/sidecar/src/p2-preview-coordinator.ts:132-143 | a pipeline switched away and back is planned again for ever |
| SnapshotPlan.EndedSessionWithIgnoredRecordIsRefused | apps/sidecar/src/application.ts:622-626 | an ended session with an unsupported record is refused |
| SnapshotCursors.PlansExactly | apps/sidecar/src/p2-preview-coordinator.ts:116-165 | which request gets which plan: CURRENT exactly if no event is new and the newest snapshot has this transcript and pipeline, and each refusal exactly for its cause |
| SnapshotCursors.GrownTranscriptIsStored | packages/session-extraction/src/service.ts:140-172 | an acceptable next range of the transcript and pipeline of the newest snapshot is stored exactly if neither byte offset nor line number has decreased, and refused otherwise |
| SnapshotCursors.ChangedSourceIsStored | packages/session-extraction/src/service.ts:136-172 | after a change of transcript or pipeline no cursor is compared, and an acceptable range is stored unless it is already |
| SnapshotCursors.RunsRaiseCursors | packages/session-extraction/src/service.ts:140-152 | over every serial run, of two snapshots of a session without one of another transcript or pipeline between them, the later one has later events and has read at least as many bytes and lines |
| SnapshotCursors.NextCursorIsNotBehind | packages/session-extraction/src/service.ts:149-150 | in particular of any two of one transcript and pipeline that are stored one after the other |
| SnapshotCursors.ReturningPipelineMayGoBack | packages/session-extraction/src/service.ts:140-152 | with a snapshot of another pipeline in between, a later snapshot may have read less of the same transcript |
| VerificationPool.RunKeepsInv | apps/sidecar/src/p2-freshness-runtime.ts:56-84 | the invariant of cursor, claims, results and workers over every interleaving |
| VerificationPool.EveryScheduleMatchesTheLoop | apps/sidecar/src/p2-freshness-runtime.ts:56-90 | each index is claimed at most once with at most min(4, n) outstanding; a pool that returns agrees with a sequential loop, and a failed one returns nothing |
| VerificationPool.NoClaimAfterFailure | apps/sidecar/src/p2-freshness-runtime.ts:60-64 | no index is claimed once the failure flag is set |
| VerificationPool.FailsOnlyForCause | apps/sidecar/src/p2-freshness-runtime.ts:72-79 | the pool fails exactly if at some step, with nothing failed before, the verification of a claimed item throws or settles while the signal is aborted |
| VerificationPool.EveryStepMakesProgress | apps/sidecar/src/p2-freshness-runtime.ts:59-86 | every step uses up work, so the pool ends |
| VerificationPool.Assemble | apps/sidecar/src/p2-freshness-runtime.ts:90-116 | results are keyed by asset, a foreign code revision or mixed graph revisions are refused |
| RateLimiter.FixedWindowRateLimiter.Create | apps/console-gateway/src/security.ts:64-67 | a limiter is created exactly with limits in range |
| RateLimiter.FixedWindowRateLimiter.Allow | apps/console-gateway/src/security.ts:69-77 | a call updates its key's record alone and is allowed exactly if the count fits |
| RateLimiter.RecordDescribesWindow | apps/console-gateway/src/security.ts:69-77 | the record says when the key's window began and how many calls it has had since |
| RateLimiter.AllowedIffAmongFirst | apps/console-gateway/src/security.ts:69-77 | exactly the first maximum calls of each window are allowed |
| RateLimiter.IntervalBound | apps/console-gateway/src/security.ts:69-77 | at most 2 * maximum - 1 calls pass in any half-open interval of one window |
| RateLimiter.IntervalBoundIsTight | apps/console-gateway/src/security.ts:69-77 | that bound is reached for every maximum and window length |

## Left out

- HTTP routing, request and event schemas, headers, cookies, authentication, static files, user interface, command line options: plumbing around the modelled handlers.
- File locking, fsync, rename, permissions, checksums and byte limits of the stores: a store is a value whose save may fail before or after it takes effect.
- Faults of reads: a load that throws leaves everything as it was.
- Digests, canonical JSON, regular expressions of timestamps: injective constructors, predicates and integers stand for them.
- The contents of evidence, outcomes, capture reports and verification results beyond what the modelled code compares.
- `evaluateShadowQuality`, the injection coordinator, the stop continuation service and its counter, the closure verifier and the interaction policy: their answers are parameters.
- Time to live of browser sessions, and the expiry of previews beyond the comparison in a commit.
- Overlapping runs of the ingestion service: the scheduler does not start them. `Update` is proved against other writers; the passes call it without one.
- IngestionService.AutomaticIngestionService.RunOnce: does not observe relations, and reports neither a pending count nor diagnostics, which change no checkpoint.
- A catalog or a checkpoint store that throws in the middle of an ingestion run.
- The SQLite checkpoint store: it keeps the same map and orders its listing by the same two keys.
- A restart of the gateway process: its invalidation log and its browser sessions go together.
- A second cursor for polls: the console keeps one for its polls and one for its streams, the client here has one for both.
- Half-open connections of one client: a client has one connection at a time, and polls only without one.
- Line ends other than a line feed in the event stream, which the gateway never writes.
- Failed writes of the MCP adapter, its parsing of JSON-RPC requests, the carriage return and frame limits behind the line limit, and its result size limit.
- The job queue behind a coordination, and snapshots stored with equal creation times: the newest snapshot is the one created last.
- SnapshotPlan.PreviewCoordinator.Coordinate: the transcript is inspected once, so a transcript that changes between planning and storing, and is then refused as stale, is not modelled.
- RolloutService.ActiveRolloutService.Decision: the allocation bucket is a parameter in place of the hash of the request's ids.
- McpDispatch.ClosedAdapterAnswersAll: writes are assumed to complete.
- VerificationPool.Assemble: does not model the alert about an unavailable code graph, which cannot change the result.
