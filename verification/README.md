# A verified model of the control plane's durable protocols

This project models, in Dafny, the parts of mb-control-plane that have to stay right while processes crash,
stall, race and repeat themselves, and proves what they promise over every run.

| files | what they model |
|---|---|
| `Domain`, `Backoff` | operation kinds, provider errors, the retry schedule |
| `Operations`, `OperationRuns`, `Fencing` | the operation table: one atomic step per SQL statement, every interleaving of workers, operators, retention and domain transactions, and what the history of such a run says about leases |
| `OperatorRetries` | the operator's retry as one transaction over commands and operations |
| `Heartbeat`, `WorkerOutcome` | the lease guard around a handler, its pace, and what a worker reports |
| `DriverLedger`, `EndToEnd`, `EffectLeases`, `DriverStore` | the deployment driver's idempotency ledger; queue, workers and driver composed; under which lease an effect starts; the driver's own statements |
| `Commands`, `CommandRuns` | command admission under concurrent transactions with rollbacks |
| `Capability` | the capability row of a workshop module |
| `Rehearsals`, `RehearsalEffects`, `BackupAdmission` | the backup scheduler, its rehearsals together with the driver, and its backups together with the lifecycle requests of the API |
| `Activation` | the first release activation by concurrent transactions |
| `Manifest`, `ReleaseText` | release manifest validation and its textual identities |
| `Journal`, `JournalCodec` | the mail gateway's event journal, and an encoding of the kind it needs |
| `ETag`, `ContentDecimal` | version tags, and amounts with unknown separators |
| `Text`, `Collections` | digits, strings and lists the others are built from |

How to read it. A protocol is a datatype of events, a `Step` or `Next` function that changes nothing when the event's
guard fails, and a function that runs a sequence of events from the empty state. Theorems quantify over all event
sequences, so over all interleavings. The source updates rows in place; each group therefore also has a class whose
methods are proved to make exactly the step (`OperationStore`, `LedgerStore`, `CommandTable`, `ModuleTable`,
`Scheduler`, `BackupStore`, `ReleaseStore`, `Process`). Time is in microseconds, and every statement carries its own
`now`; that clocks agree is assumed only where the member says `OneClock`.

Assumptions that come from outside the modelled code: PostgreSQL executes a single-row guarded statement atomically
and lets it wait for a row lock; `now()` is the start of the statement's transaction; generated UUIDs are new; a
worker acts only on operations it was granted, possibly long after it lost them, and reports a driver operation as
succeeded only on a success reply; a digest stands for the request it was computed from; a journal line reads as a
record exactly if it is one whole encoded record (`StrictCodecExists`: there are such encodings).

What the proofs brought to light:

- The commands table refuses a result that has both a body and a reference (migrations/0001_control_plane_base.sql:491),
  and the operator's retry completes its command with both (src/api.rs:1416-1430). In every run the retry is therefore
  rolled back and never changes an operation (`RetryChangesNothing`); dead letters are final (`DeadLettersAreFinal`)
  and the tokens of an operation are distinct for good (`TokensAreDistinctForGood`). `RetryTakesEffectIffStorable`
  gives the exact condition. The refusal meets not only the retry: 19 of the source's 43 calls of `complete_command`
  pass both. Among them are all four requests that enqueue a lifecycle operation (src/api/platform.rs:331,
  src/api/recovery.rs:298, 478, 596), so that a workshop's live backups are the scheduled ones
  (`RequestsAreRolledBack`).
- Only that refusal keeps tokens distinct: with any response the table accepts, a retry resets the attempt counter and
  a worker can be granted the very token it lost (`AcceptedResponseReissuesToken`). `OperationRuns`, `Fencing` and
  `EndToEnd` let the retry take effect, so what they state holds whether or not it does.
- `lease` does not look at `max_attempts`, so an operation whose leases keep expiring exceeds any budget
  (`AttemptExceedsAnyBudget`); `GrantBeyondBudget` says exactly which grants do.
- The driver's second lease check and the start of the effect are two steps, so an effect may start after a takeover
  (`EffectMayStartAfterTakeover`); it starts under the lease it was checked with exactly if nothing moved the operation
  in between (`EffectStartsUnderItsLeaseIff`), and with one clock that is so if it starts by the deadline the check
  read (`EffectStartsInTime`). The effect is started at most once in either case.
- The guard around a handler has to start within 25 seconds of the grant, and no later: `PromptRenewalsAreTaken`,
  `LaterStartMayLoseLease`.
- The guard awaits a renewal without polling the handler (src/worker.rs:62-72). A handler that is then inside a
  transaction holding its own lease row (src/persistence.rs:677-693) cannot end it, so the renewal waits until its
  timeout and the guard gives up a healthy handler (`OwnLockEndsGuard`). A prompt renewal is taken exactly if no
  transaction holds the row (`PromptRenewalsAreTaken`).
- All attempts of a rehearsal share one ledger key, so after an attempt that ended without success no later attempt can
  succeed (`LaterAttemptsNeverSucceed`), although the scheduler retries.
- A backup transaction that straddles midnight can take the key of the next day's own backup
  (`MidnightMayLoseBackup`); `AdmittedUnlessStraddled` says exactly when that happens.
- A journal append whose write succeeded and whose sync failed, followed by the provider's redelivery, leaves a
  journal no later start accepts (`RedeliveryAfterFailedSyncBlocksRestart`); `ReloadIffNothingSpoiled` says exactly
  when a start succeeds, torn writes included.
- A whole amount printed with a thousands separator and no fraction is misread or refused
  (`WholeKeepsValueIffUngrouped`).

## Model

| member | source | states |
|---|---|---|
| Backoff.RetryDelayMonotone | src/persistence.rs:695-698 | the delay is monotone in the attempt for every integer and lies in 5..900 s |
| Backoff.RetryDelaySchedule | src/persistence.rs:695-698 | 5 s up to the first attempt, doubling to the eighth, and 900 s exactly from the ninth on |
| Backoff.EffectiveDelayBounds | src/persistence.rs:700-708 | never below the exponential delay, within 5..3600 s, monotone in the attempt |
| Backoff.ProviderDelayMonotone | src/persistence.rs:700-708 | monotone in the provider's delay exactly when the larger one fits an i64, or the smaller one does not or was overruled anyway |
| Operations.Judge | src/persistence.rs:605-627 | no outcome leaves a row in flight; finished means succeeded or buried; back to pending only with budget left; the delay lies between the schedule and one hour |
| Operations.ExecuteKeepsTable | migrations/0001_control_plane_base.sql:844-884 | no statement breaks the CHECK constraints or the unique identity, drops a row, or rewrites what was requested; only retention empties a payload, and only of an ended operation |
| Operations.OperationStore.Enqueue | src/persistence.rs:480-513 | inserts, or returns the row of the identical request; no row exactly when the key is reused with other content |
| Operations.OperationStore.Lease | src/persistence.rs:548-603 | idle exactly when no unlocked row is due; otherwise grants an earliest due row and flags reconciliation; all else unchanged |
| Operations.OperationStore.RenewLease | src/persistence.rs:655-672 | extends the lease exactly for its unexpired holder |
| Operations.OperationStore.SaveCheckpoint | src/persistence.rs:525-546 | writes once, exactly for the unexpired holder |
| Operations.OperationStore.FinishOperation | src/persistence.rs:605-653 | ends the attempt exactly for the unexpired holder |
| Operations.OperationStore.RetryDeadLetter | src/api.rs:1402 | the update inside the retry transaction applies to exactly dead letters; whether it commits is decided in `OperatorRetries` |
| Operations.OperationStore.RedactFinished | migrations/0020_privacy_retention_batches.sql:151-160 | redacts exactly ended, old enough operations of other kinds, and nothing but payload and checkpoint |
| OperationRuns.WrittenRowMatches | src/persistence.rs:525-672 | each statement moves its row as its history entry tells |
| OperationRuns.RunKeepsInv | src/persistence.rs:480-693 | in every run each row agrees with its own history: state, attempt, holder, deadline, next attempt, locks |
| Fencing.Origin | src/persistence.rs:525-693 | every history entry stems from one enabled event in the state of the run so far |
| Fencing.RunsAreLawful | src/persistence.rs:525-693 | every entry of every history is justified by what precedes it: a retry meets no holder, a grant no live lease and no lock, a holder's statement its own unexpired lease |
| Fencing.LawfulGrows | src/persistence.rs:525-693 | so it stays wherever the table takes part in a larger system |
| Fencing.AuthorityIsLatestGrant | src/persistence.rs:569-588 | holding an operation means: granted, and not granted, finished or retried since (both directions) |
| Fencing.FencedByLatestGrant | src/persistence.rs:525-693 | a successful renew, checkpoint, finish or lock is by the most recent grantee before its deadline |
| Fencing.TokensIncreaseWithinGeneration | src/persistence.rs:569-588 | attempts of grants strictly increase between operator retries, so tokens are pairwise distinct |
| Fencing.LostTokenNeedsNewGeneration | src/persistence.rs:548-653 | a lost token is authoritative again exactly if a retry took effect and the same token was granted after it and not lost since |
| Fencing.LockIsHeldUntilEnd | src/persistence.rs:677-693 | a lock stays with its transaction until that ends, and nobody else touches the row |
| Fencing.LockedLeaseSerialisesWithTakeover | src/persistence.rs:677-693 | between locking the lease and the end of the transaction nobody moves, renews or takes the operation, even past expiry |
| Fencing.AttemptAccounting | src/persistence.rs:548-627 | the attempt counts the generation's grants; pending rows have budget left; at most max_attempts grants are not reconciling; only those exceed the budget |
| Fencing.GrantBeyondBudget | src/persistence.rs:569-588 | a grant exceeds max_attempts exactly when the generation already had that many, and then it is reconciling |
| Fencing.BackoffIsRespected | src/persistence.rs:605-653 | the next grant after a finish waits out its delay, which respects the schedule, and is reconciling exactly after an unknown outcome |
| Fencing.TakeoverWaitsForExpiry | src/persistence.rs:569-588 | a takeover is strictly after the last deadline and always reconciling |
| Fencing.SucceededIsFinal | src/persistence.rs:548-653 | nothing ever happens to a succeeded operation again |
| Fencing.DeadLetterRests | src/persistence.rs:548-653 | nothing happens to a dead letter until a retry takes effect |
| Fencing.AttemptExceedsAnyBudget | src/persistence.rs:569-588 | for every n there is a run with attempt n under the default budget of 12 |
| Fencing.RequestsArePermanent | migrations/0020_privacy_retention_batches.sql:151-160 | identity, scope and budget of a row never change, and its payload only by redaction, however the run goes on |
| Fencing.EnqueueIsIdempotent | src/persistence.rs:480-513 | repeating an enqueue at any later time adds nothing; the identity has one row for good |
| OperatorRetries.RunKeepsInv | src/api.rs:1367-1433 | in every run an admitted retry holds its command, and its dead letter from the update on; a refused completion dooms its transaction |
| OperatorRetries.RetryTakesEffectIffStorable | src/api.rs:1402-1430 | committing a completed retry revives the operation exactly if the commands table accepts the response; otherwise neither operations nor commands change |
| OperatorRetries.RetryChangesNothing | src/api.rs:1334-1433 | with a refused response no step of a retry changes the operation table, in any run |
| OperatorRetries.NoRetryTakesEffect | src/api.rs:1334-1433 | then no history holds a retry |
| OperatorRetries.DeadLettersAreFinal | src/api.rs:1334-1433 | in the source's own runs nothing happens to a dead letter ever after |
| OperatorRetries.TokensAreDistinctForGood | src/api.rs:1334-1433 | and attempts rise from grant to grant, for good |
| OperatorRetries.LostTokensStayLost | src/persistence.rs:548-653 | and a lost token never regains authority |
| OperatorRetries.AcceptedResponseReissuesToken | src/api.rs:1402 | with any accepted response there is a run in which a lost token is granted again |
| Heartbeat.Guard | src/worker.rs:53-75 | polls round by round and never after the deciding one; completed, lost and failed mean exactly what decided |
| Heartbeat.BeatsAreClose | src/worker.rs:39-75 | with prompt timers, renewals commit at most 15 + 20 + 15 s apart |
| Heartbeat.HistoryOfRun | src/persistence.rs:480-693 | every run of the table has the step-by-step history the next results speak about |
| Heartbeat.PromptRenewalsAreTaken | src/worker.rs:309-345 | in every run with one clock, each renewal that a worker calls for at the guard's pace, before it finishes, is taken exactly if no transaction holds the row lock at that moment |
| Heartbeat.HealthyWorkerIsNotPreempted | src/worker.rs:39-75 | nobody else is granted the operation of such a worker until a lease time after its last renewal that was taken, which is the last one or, when a row lock blocked that, the one before |
| Heartbeat.LaterStartMayLoseLease | src/worker.rs:39-40 | a guard started 25 s after the grant may renew too late, so the bound is the best possible |
| Heartbeat.HealthyGuardOnlyCompletes | src/worker.rs:53-75 | for such a worker a round of the guard is decisive exactly if the work completes or a transaction holds the row lock when the renewal is called for |
| Heartbeat.OwnLockEndsGuard | src/worker.rs:53-75 | a renewal called for while the handler's own transaction holds the lease row is never taken: it times out, and the guard ends with a failure although the handler was healthy |
| WorkerOutcome.Conclude | src/worker.rs:209-308 | no dead letter without compensation; a compensation failing with anything but contract drift ends in reconciliation; otherwise the handler's own result is reported |
| WorkerOutcome.CompensationAgreesWithDeadLetter | src/worker.rs:1968-1976 | releases and domains compensate exactly when the queue would bury the error; other kinds also for an unknown outcome at exhausted attempts |
| WorkerOutcome.DriverReplyDecidesEndState | src/worker.rs:1871-1885 | which driver statuses are reconciled, retried or buried, at every attempt |
| DriverStore.LedgerStore.Admit | src/docker_driver.rs:2459-2530 | makes the admission steps of the system; only a key whose effect was never started is new, and success is answered only for an effect started once |
| DriverStore.LedgerStore.Settle | src/docker_driver.rs:2822-2911 | makes the settling step; the entry is never lost to its owner; success is replayed, rejection final, anything else ambiguous |
| DriverStore.LedgerStore.Withdraw | src/docker_driver.rs:2744-2775 | a request whose lease was lost gives its key up without an effect |
| EndToEnd.RunKeepsInv | src/docker_driver.rs:2565-2913 | the invariant of the whole system under crashes, lost replies, takeovers and retries |
| EndToEnd.EffectStartsAtMostOnce | src/docker_driver.rs:2693-2711 | the effect of a (workshop, action, key) is started at most once in every run |
| EndToEnd.SuccessRepliesAgree | src/docker_driver.rs:2822-2911 | all success replies of a key carry the one stored response of one started effect |
| EndToEnd.SucceededOperationRanExactlyOnce | src/worker.rs:1760-1869 | an operation the queue calls succeeded had its effect started exactly once over all attempts and generations |
| EffectLeases.StartedEffectsWereFenced | src/docker_driver.rs:1570-1596 | every effect started under a lease was preceded by a check at which that lease was the latest grant and unexpired |
| EffectLeases.EffectStartsUnderItsLeaseIff | src/docker_driver.rs:2744-2822 | in every run it starts under that very lease exactly if nothing moved the operation between check and start; and, unless a retry took effect, exactly then its token is authoritative |
| EffectLeases.UnmovedUntilDeadline | src/persistence.rs:548-693 | with one clock, until the deadline read at one point nothing but its holder's own finish moves an operation, and the deadline only moves away |
| EffectLeases.EffectStartsInTime | src/docker_driver.rs:2744-2822 | with one clock, an effect that starts by the deadline read at its check, and before its worker finished, starts under its lease, which then has not run out |
| EffectLeases.ClearedRequestStartsAfterTakeover | src/docker_driver.rs:2744-2822 | from any state with a cleared request and an expired lease, takeover and then start go through |
| EffectLeases.EffectMayStartAfterTakeover | src/docker_driver.rs:2744-2822 | a run from the start in which the one effect of a key starts under a lease that has passed to another worker |
| EndToEnd.EffectsExcludeEachOther | src/docker_driver.rs:2712-2727 | one effect per workshop at a time |
| EndToEnd.AmbiguityLasts | src/docker_driver.rs:2822-2911 | an entry left in progress by a request that is gone stays so |
| EndToEnd.AmbiguityIsForever | src/docker_driver.rs:2459-2563 | after an ambiguous ending no request starts the effect, owns the key or is told it succeeded |
| CommandRuns.CommandTable.Admit | src/command.rs:50-129 | the answer is the admission of the runs and the database makes its step; a new command is in progress from then on |
| CommandRuns.CommandTable.CompleteCommand | src/command.rs:131-153 | makes the completing step; what is stored is replayed to the same request; a violated constraint leaves nothing to commit |
| Commands.ReplayRoundTrip | src/command.rs:50-153 | asking again after completion gives back exactly status, body, operation and reference |
| CommandRuns.RunKeepsInv | src/command.rs:50-153 | what holds of committed rows, open writes and locks in every interleaving |
| CommandRuns.OneCommittedAdmission | src/command.rs:50-129 | among committed transactions at most one was told the command is new |
| CommandRuns.CommittedRowsGrow | src/command.rs:131-153 | a committed row keeps its request; a completed one never changes |
| CommandRuns.CompletedCommandsReplay | src/command.rs:50-129 | ever after completion the same request replays the stored result, any other is a mismatch, and neither changes a row |
| CommandRuns.CompletionCommitsIffStorable | migrations/0001_control_plane_base.sql:474-499 | a completable command is committed with its result exactly if the table accepts it, and otherwise nothing is |
| CommandRuns.CommittedResultsAreStorable | migrations/0001_control_plane_base.sql:474-499 | every committed result satisfies the table's constraints |
| Capability.RowMatchesItsOperation | src/worker.rs:624-1102 | the row's pins are those of its operation; a restricted row has its operation's reason and sufficient evidence |
| Capability.StepMovesVersion | migrations/0001_control_plane_base.sql:310-352 | a change raises the version by exactly one, and only a change does |
| Capability.VersionIdentifiesRow | src/api.rs:1200-1266 | equal versions at two points of a run mean an equal row |
| Capability.SupersededForGood | src/worker.rs:1978-2026 | an operation replaced by a newer one never changes the row again |
| Capability.EnableSucceedsExactly | src/api.rs:1200-1266 | enabling succeeds exactly on the current version of a row that is neither enabled nor installing |
| Capability.TriggerRefusesOnlyReentry | migrations/0001_control_plane_base.sql:310-352 | the trigger adds a refusal to the statements' own guards only for re-enabling during installation |
| Capability.PayloadsAreKept | src/worker.rs:624-663 | what an operation was asked for never changes: the map records requests, and retention redacts a stored payload only after the operation has ended for good, when no handler reads it |
| Capability.ModuleTable.BeginEnable | src/worker.rs:624-740 | deciding on a row read earlier: when the handler is done, proceeds, or stops with which error; the later update moves only its own requested row |
| Capability.ModuleTable.CompleteEnabling | src/worker.rs:624-814 | enables exactly under the held lease on its own installing row |
| Capability.ModuleTable.CompleteRestriction | src/worker.rs:919-1102 | restricts exactly with sufficient evidence under the held lease on its own row |
| Capability.ModuleTable.MarkActivationFailed | src/worker.rs:1978-2026 | reports success exactly when the row is left failed under this operation |
| Rehearsals.RetryDelayBounds | src/backup_scheduler.rs:359-407 | the delay is monotone and lies in 60..3840 s |
| Rehearsals.ClaimsAreBounded | src/backup_scheduler.rs:266-345 | a rehearsal is claimed exactly `attempt` times, at most max_attempts; one running per workshop |
| Rehearsals.OneAuditPerClaim | src/backup_scheduler.rs:347-407 | at most one audit per claim; a scheduled retry means budget is left |
| Rehearsals.ReportNeedsCurrentClaim | src/backup_scheduler.rs:347-407 | a result is written exactly when nobody reclaimed the row, expired or not |
| Rehearsals.AttemptsStayDistinct | src/backup_scheduler.rs:266-345 | no two claims of a rehearsal share an attempt number |
| Rehearsals.AbandonedLastAttemptIsStuck | src/backup_scheduler.rs:266-345 | a running last attempt is changed by no claim |
| Rehearsals.Scheduler.ClaimRehearsalRetry | src/backup_scheduler.rs:266-304 | makes the claiming step, and claims exactly when it is enabled |
| Rehearsals.Scheduler.ClaimNewRehearsal | src/backup_scheduler.rs:306-345 | makes the claiming step, and claims exactly when it is enabled |
| Rehearsals.Scheduler.ClaimDue | src/backup_scheduler.rs:199-264 | a pass is a run of claims, the retries in order and then the new ones; it returns exactly the claims issued, at most 20 |
| Rehearsals.Scheduler.RecordResult | src/backup_scheduler.rs:347-407 | makes the reporting step: result and audit together, or neither |
| RehearsalEffects.SucceededRehearsalRanExactlyOnce | src/backup_scheduler.rs:347-359 | a succeeded rehearsal had its effect started exactly once over all attempts |
| RehearsalEffects.LaterAttemptsNeverSucceed | src/backup_scheduler.rs:347-407 | once the effect ended without success no later attempt of the rehearsal succeeds |
| BackupAdmission.BackupsAreSpaced | src/backup_scheduler.rs:96-196 | whatever schedulers and API requests race, and although failed backups come back while their operation runs again: at most one active lifecycle operation per workshop, and each scheduled backup begins at least a day after every earlier backup that is live |
| BackupAdmission.RequestsAreRolledBack | src/api/recovery.rs:255-305 | with the API's responses, which carry both body and reference, no run ever contains a requested operation or recovery point |
| BackupAdmission.SourceBackupsAreSpaced | src/workers/lifecycle.rs:495-515 | then any two live backups of a workshop lie at least a day apart, revived ones included |
| BackupAdmission.AdmittedUnlessStraddled | src/backup_scheduler.rs:96-196 | in every run a due backup is admitted exactly unless an earlier one took a key of its day without beginning on it, and none has begun on that day since |
| BackupAdmission.DueMeansAdmitted | src/backup_scheduler.rs:96-196 | with one clock all scheduled keys are pairwise distinct and a due backup is always admitted |
| BackupAdmission.MidnightMayLoseBackup | src/backup_scheduler.rs:96-196 | without one clock a due backup can be lost to an old key |
| BackupAdmission.BackupStore.AdmitBackup | src/backup_scheduler.rs:96-196 | admits exactly under the guards, and then books key and recovery point together |
| BackupAdmission.BackupStore.RequestLifecycle | src/api/recovery.rs:255-305 | accepts exactly on an idle workshop with a new command and a response the commands table stores, and then books operation and recovery point; with body and reference it changes nothing |
| Activation.AtMostOneActivation | src/persistence.rs:89-207 | in every interleaving the reported activation alone is active, with its proven slot, and every answer that is not a refusal reports it |
| Activation.AfterwardsOnlyReplays | src/persistence.rs:107-131 | after an activation its release is always replayed with that slot and version, and every other release is refused |
| Activation.OneActivatedReply | src/persistence.rs:89-207 | at most one answer in a run says activated |
| Activation.ReleaseStore.ActivateInitialRelease | src/persistence.rs:89-243 | the whole call is a request and its commit; a refusal changes nothing; any other answer names a proven slot and the current version |
| ReleaseText.ReleaseIdForm | src/release.rs:478-489 | the scanner accepts exactly a dotted date and a commit in the documented form |
| ReleaseText.ReferenceBindsOneDigest | src/release.rs:467-477 | a reference is bound to at most one digest |
| Collections.DistinctIffCardinality | src/release.rs:256-265 | collecting into a set keeps the length exactly for lists without repetition |
| Collections.Pigeonhole | src/release.rs:286-380 | equal lengths, uniqueness and inclusion make the platform lists agree |
| Manifest.FaultyIsInadmissible | src/release.rs:180-214 | a manifest with the defect an error names is not admissible |
| Manifest.CheckEvidence | src/release.rs:459-477 | passes exactly sound evidence, and tells bad digests from wrong references |
| Manifest.CheckHeader | src/release.rs:230-285 | passing implies the header conditions; an error names a defect present |
| Manifest.CheckRuntimes | src/release.rs:293-311 | passing means all runtimes are sound, on distinct platforms, all collected; an error names a defect present |
| Manifest.CheckExtensions | src/release.rs:312-369 | passing means all extensions are sound, on distinct platforms, each settled with its first runtime and pair; an error names a defect present |
| Manifest.CheckPlatforms | src/release.rs:286-380 | passing implies parity of the three lists and agreement of their digests |
| Manifest.CheckLineage | src/release.rs:381-406 | passes exactly sound upgrade sources, postconditions and class B compatibility |
| Manifest.Validate | src/release.rs:230-407 | Ok exactly for admissible manifests; an error names a defect the manifest has |
| Manifest.OrderDoesNotMatter | src/release.rs:230-407 | admission is invariant under reordering runtimes, extensions and pairs |
| Manifest.PlatformsMatchOneToOne | src/release.rs:312-380 | each runtime has exactly one extension and one pair, with its digests |
| Manifest.PairsMatchOneToOne | src/release.rs:312-380 | each pair stands for exactly one qualified runtime and extension |
| Manifest.SelectionIsTotal | src/release.rs:409-426 | on admissible manifests selection succeeds exactly for a single platform, and what it selects belongs together |
| Journal.Load | src/mail_gateway.rs:655-676 | accepts exactly bounded files of valid records with distinct events, and returns those events |
| Journal.ReloadIffGood | src/mail_gateway.rs:655-700 | a file reloads exactly when every line, the unfinished one included, is one whole record and no event occurs twice; then it yields all events |
| Journal.SpoiledForGood | src/mail_gateway.rs:664-700 | after a torn write, a write behind one, or a repeated orphan, no later start accepts the file |
| Journal.JournalIsFaithful | src/mail_gateway.rs:629-700 | when failed writes leave no trace, after any run file and memory agree, within the bound, and reload succeeds |
| Journal.ReloadIffNothingSpoiled | src/mail_gateway.rs:678-700 | with failed syncs and torn writes, a start succeeds exactly when no step of the run spoiled the journal |
| Journal.RedeliveryAfterFailedSyncBlocksRestart | src/mail_gateway.rs:678-700 | the smallest failing run |
| Journal.FileOnlyGrows | src/mail_gateway.rs:678-700 | what was written is never lost or overwritten |
| Journal.JournaledBeforePublished | src/mail_gateway.rs:564-586 | a published event was in the file before, and stays there |
| Journal.Process.Append | src/mail_gateway.rs:678-700 | success means on file; a failure leaves bytes only when the write was torn or the sync failed |
| Journal.Process.Start | src/mail_gateway.rs:629-676 | succeeds exactly when the lines on file are whole records of distinct events |
| JournalCodec.StrictCodecExists | src/mail_gateway.rs:655-700 | what the journal results ask of the serializer can be met: one line per record, and only whole single records read |
| ETag.TagRoundTrip | src/api.rs:460-484 | a printed tag reads back as its version exactly for visible ASCII prefixes |
| ETag.TagNamesOneResource | src/api.rs:460-484 | a tag accepted under another prefix means the prefixes are equal |
| ContentDecimal.FractionReadsBack | src/invoice.rs:193-213 | an amount with a fraction, grouped in either style and surrounded by plain text, reads back digit for digit |
| ContentDecimal.WholeReadsBack | src/invoice.rs:193-213 | what a grouped amount without a fraction is read as, in every case |
| ContentDecimal.WholeKeepsValueIffUngrouped | src/invoice.rs:193-213 | it keeps its value exactly when it has at most three digits |

## Left out

- Release, route-projection and recovery-maintenance leases of the driver, whose guards are SQL functions of their own.
- Progress and tracing columns of an operation row; legal holds and the batching of retention.
- SHA-256, canonical JSON, UUID generation, signatures and encryption: digests are values, new identifiers are parameters.
- HTTP handlers, authentication, configuration, telemetry, container calls, file permissions and paths.
- Tables of names (operation kinds as text, roles, module catalogue), labels and key caches: settled by enumeration.
- The reads of the module handlers outside their own row (entitlements, adapters) are event parameters.
- The provider's side of a rehearsal and of a backup: their results are parameters.
- Deletion of rows; other paths that activate or retire releases while `Activation` runs: its other writers leave active rows alone.
- Single-valued manifest fields (`sbom_kind`, `qualification_result`) and map ordering.
- Loss of unsynced data at power failure.
- ContentDecimal.FractionReadsBack: numbers are exact; overflow, rounding and length limits of the decimal library are not modelled.
- Rehearsals.Scheduler.ClaimDue: the two discovery queries are parameters, so which rehearsals they return and in what order is not modelled.
- BackupAdmission.RequestsAreRolledBack: which requests the API admits before the idle check (roles, versions, recovery point states) is an event parameter.
- Capability.PayloadsAreKept: the redaction itself is an event of `Operations`, not of the module row.
