# event-sorcery, modelled and proved in Dafny

event-sorcery is an event store on SQLite with durable jobs on top of it. This
project models its protocols and proves what they keep over every run: the job
queue, the dispatch of jobs from entities and the delivery of their verdicts, the
event store with its snapshots and compaction, the views and their startup
recovery, the schema registry, and the two in-memory protocols of the C boundary
(claim tokens, and opening and closing a store).

`dafny verify dfyconfig.toml` checks the whole project.

## How it is organised

| file | what it models |
|---|---|
| `EventTable.dfy`, `Paging.dfy` | one event stream, its unique sequence key, chunked inserts, paged reads |
| `Lifecycles.dfy` | the lifecycle wrapper: folding events, validating commands on a scratch copy |
| `Outbox.dfy` | the pending-job buffer of one command, and all interleavings of its commits |
| `Jobs.dfy`, `JobQueue.dfy`, `JobTheorems.dfy`, `JobEffects.dfy`, `JobWorker.dfy` | the job aggregate, the queue as a transition system, its invariant, what it never does, what each operation achieves, the workers' ack rules |
| `Dispatches.dfy`, `Origins.dfy` | the dispatch state machine, the origin entity that embeds it among its own domain events, and deliveries to an origin that compacts |
| `Delivery.dfy`, `DeliveryInvariants.dfy`, `DeliveryTheorems.dfy`, `DeliveryEffects.dfy` | origins, workers and queue composed: what never happens, and what each step achieves |
| `EventStore.dfy`, `NativeCommits.dfy` | snapshots and compaction under expected-version commits, and under commits without one |
| `Engine.dfy` | the engine object with its transactions |
| `Projection.dfy` | view tables, catch-up and rebuild; all interleavings of reactions on one view |
| `Schema.dfy` | the version registry, the crash-interruptible startup sequence, and rollbacks between versions |
| `ClaimRegistry.dfy`, `StoreHandle.dfy` | the claim-token registry and the open/close protocol |

Protocols are transition systems. `Next(state, action)` is total and leaves the
state as it is when the action is not enabled, so *every* sequence of actions is a
run and every interleaving of workers, settlements, reactions and crashes is such a
sequence; theorems quantify over `Run(actions)` for all `actions`. A database
transaction or a mutex-guarded critical section is one action; everything the code
does between two of them is a separate action. Code that updates an object in place
is a class (`SqliteEngine`, `PendingScope`, `Aggregate`, `ViewTable`, `Registry`,
`EsStore`) whose methods are proved against the functions the transition systems use.

## Assumptions

- Claim ids, job ids and claim tokens are minted fresh; an action that reuses one is not enabled.
- The events table has a unique key on (aggregate type, aggregate id, sequence), a row's status column follows its payload, and a view update is guarded by its version.
- An origin entity embeds the dispatch machine beside whatever else it records, and folds verdicts with the machine's own `settle` and `evolve`, as the documentation asks of every origin.
- The delivery theorems are for origins whose loads agree with their history: they retain their events, the default policy, and keep to snapshot size one or to commands of one event, as the documentation advises. Sends and deliveries commit without an expected version; on a retained stream that still refuses every stale writer (`NativeRuns.RetainedStreamsRefuseStaleWriters`), on a compacted one it does not (`OriginCommits.AcceptedVerdictIsLoadedExactly`).
- A commit's snapshot folds its events up to the last multiple of the snapshot size it reaches, and none is taken if it reaches none, as `docs/cqrs.md` describes; the library that decides this, cqrs-es, is not part of this model.
- `SchemaRecovery.RecordedVersionKeepsItsPromise` and `SchemaRollback` assume that no reaction is saved after a lost one or out of order (`ReactsInOrder`). Nothing in the code ensures it; `Reactions` proves that it is exactly what a view needs. The job queue does not need it, because a claim's compare-and-swap stops a second event from being appended while a row lags.

## Where code and documentation differ

- A snapshot is recorded as covering every event of its commit, but a command of several events that crosses a snapshot boundary stores one that folded only some of them. The rest is never loaded, with no race and no compaction (`NativeCommits.CommitLoadsWhatItFolded`, `NativeCommits.CutShortExample`). This happens exactly when the commit reaches a boundary and does not end on one, so never at snapshot size one or with one event per command. The documentation warns of it; the exactly-once promise elsewhere does not hold there.
- A commit without an expected version relies on the unique key alone, so on a compacted stream a stale writer can be accepted; `NativeCommits.StaleCommitAcceptedExactly` says when. Without a snapshot it loses its own events, with one it loses other writers' events and the version can fall.
- Over whole runs, loads agree with history when neither of the two ever happened and, for an entity whose state tells event lists apart, only then (`NativeRuns.LoadAgreesExactly`); what was lost once stays lost (`NativeRuns.LossesStay`).
- A reaction that is given up on counts as handled, and the next one is applied over the gap. The view is then wrong and catch-up does not repair it (`LostReactionMisfolds`, `ReactingOutOfOrderMisfolds`); `PrefixFoldExactly` and `HealsExactly` give the exact condition, an if-and-only-if for every entity whose state tells event lists apart, such as an append-only journal (`JournalSeparates`).
- Issuing a token is documented as leaving it the job's only settleable claim. That holds at that moment (`IssuedIsTheOnlyAvailable`) and can stop holding once an earlier token's renewal completes (`RenewedTokenStaysBesideItsSuccessor`).
- A version whose recovery is interrupted, followed by a start of the version still recorded, can leave undecodable views in place (`RollbackMidwayStrandsAView`). `RecoveryRestoresExactly` says when, in terms of the database found at that start.
- `is_final_attempt` and the ack agree on every transient failure exactly when the retry budget is positive (`FinalAttemptAgreesWithAck`).

## Model

| member | source | states |
|---|---|---|
| JobTheorems.SettlementSafety | crates/event-sorcery/src/job.rs:465-575 | In every run: each recorded outcome settled the claim holding the job at that moment, no claim settles twice, every outcome but an abandonment came from a settlement, and a terminal event is the last of its stream |
| JobTheorems.SettlementLandsExactly | crates/event-sorcery/src/job_backend.rs:1004-1069 | In every run a settlement in flight appends its outcome if and only if its claim still holds the job, however stale its load; otherwise it is fenced and nothing is written |
| JobEffects.LandedSettlementRecords | crates/event-sorcery/src/job.rs:546-575 | In every run a settlement that lands records what its command asked: a retry at its instant with one more attempt and its error, a defer at its instant with the attempts kept and the claims reset, a success, or a death with its reason and error |
| JobEffects.HolderSettles | crates/event-sorcery/src/job_backend.rs:1004-1069 | The worker whose claim holds the job can always settle it: load and commit record its command, keep the row, and leave one row update to do |
| JobEffects.ReactionCatchesUp | crates/event-sorcery/src/projection.rs:532-622 | That row update, done with nobody in between, makes the row the fold of the whole stream under the lease it had |
| JobTheorems.RowIsPrefixFold | crates/event-sorcery/src/engine.rs:1147-1248 | In every run a queue row is the fold of exactly its first `version` events, lags by at most one event, and that event is a settlement whose row update has not run |
| JobInvariants.RunKeepsInv | crates/event-sorcery/src/engine.rs:340-414 | The invariant behind these theorems holds after every sequence of enqueues, claims, renewals, settlement steps, row updates, crashes and recoveries |
| JobInvariants.LandedClaimSawTheHead | crates/event-sorcery/src/job.rs:658-729 | A claim or abandonment that is appended was planned from a row showing the whole stream, and the payload it writes is the fold including its event |
| JobInvariants.LandedSettlementSawTheHead | crates/event-sorcery/src/job.rs:552-575 | A settlement whose append succeeds loaded exactly the current stream, which its own claim heads |
| JobTheorems.StepGrowsLogByAtMostOne | crates/event-sorcery/src/engine.rs:1183-1198 | One step appends at most one event to a job, at the next sequence, and only a claim within budget, an abandonment or a loaded settlement |
| JobTheorems.LogsOnlyGrow | crates/event-sorcery/src/engine.rs:1183-1198 | No continuation of any run loses or rewrites a recorded job event |
| JobTheorems.ClaimOutcomeExactly | crates/event-sorcery/src/job.rs:645-708 | Told by the stream, the row's version and the lease: a claim wins iff the row is current, the job is due and its claims since the last defer are below the budget; it abandons iff current, due and out of budget; is contended iff due but lagging; is skipped iff not due. A scheduled job is due from its instant, a claimed one once its lease is lost or past, an ended one never |
| JobEffects.ClaimsAreTransactions | crates/event-sorcery/src/job.rs:623-729 | A claim attempt with a fresh id does exactly what its transaction decides, or is turned away unchanged when its lease, budget or instant makes no sense |
| JobEffects.WipedHolderIsClaimable | crates/event-sorcery/src/projection.rs:400-417 | A job held when its row was wiped can, once its queue runs again, be claimed at any instant, or is abandoned if out of budget |
| JobEffects.ReplayedQueueResumes | crates/event-sorcery/src/projection.rs:226-269 | A queue that is down runs again once every row was replayed, with every stream as it was |
| JobEffects.EnqueueLandsExactly | crates/event-sorcery/src/engine.rs:389-414 | An enqueue lands iff the job id is new and the instant representable: a one-event stream, a row waiting for that instant, no other job touched |
| JobTheorems.ClaimedOnlyWhenDue | crates/event-sorcery/src/job.rs:623-729 | In every run a winning claim found a pending job at or after its last schedule, or a held one past its lease, and hands out the enqueued payload with the next sequence and the retry count |
| JobTheorems.WonClaimHoldsItsLease | crates/event-sorcery/src/engine.rs:1147-1181 | A won claim appends its event, leaves a current row showing it under its own lease, and hands out a handle with the folded attempt |
| JobTheorems.LeaseExcludesOthers | crates/event-sorcery/src/job.rs:645-656 | While a claim's lease runs, through any claims, any renewals and settlements under other claims, and crashes and recoveries that find the rows, nobody else wins or settles the job: log, view and history stand still, and only the holder's own renewal touches the row |
| JobTheorems.RenewalTouchesOnlyTheLease | crates/event-sorcery/src/engine.rs:361-387 | A holder's renewal is held iff its claim is the row's version, and changes no event, version, payload or history |
| JobEffects.RenewalsMoveTheLease | crates/event-sorcery/src/engine.rs:361-387 | In every run a won claim's renewal sets the lease iff the row is at that claim, and changes nothing else |
| JobTheorems.FirstExecutionIsExact | crates/event-sorcery/src/job.rs:163-166 | A won claim has sequence 2 iff no claim precedes it, and no two won claims share a sequence |
| JobTheorems.ClaimBudget | crates/event-sorcery/src/job.rs:683-749 | The folded claim count is the claims since the last defer, never exceeds the budget, and a never-deferred job has at most 2M+2 events |
| JobTheorems.AttemptCountsRetries | crates/event-sorcery/src/job.rs:499-533 | The folded attempt and every handle's attempt count the recorded retries |
| JobTheorems.RecoveryRestoresTheRow | crates/event-sorcery/src/projection.rs:400-417 | After a crash, replaying a row makes it the fold of the whole log, keeps a surviving lease and drops a lost one, and repeating it changes nothing |
| JobWorker.RetryBudget | crates/event-sorcery/src/job_backend.rs:1091-1133 | Under workers with budget m >= 1 a job records at most m-1 retries and dies of exhaustion exactly at its m-th failure |
| JobWorker.AckRecordsTheResult | crates/event-sorcery/src/job_backend.rs:1091-1133 | In every run an ack that lands records its execution's result: success, a defer by the delay given, rejection, or a failure that retries after the backoff with its error, or dies of exhaustion when the failures on the stream have reached the budget |
| JobWorker.FacadeRecordsWhatWasAsked | crates/event-sorcery/src/job_backend.rs:315-407 | A facade settlement becomes a command iff its instant is representable and its attempt counter has room; one that lands records what was asked |
| JobWorker.FinalAttemptAgreesWithAck | crates/event-sorcery/src/job.rs:171-173 | The final-attempt test and the ack agree on every transient failure iff the budget is positive |
| JobWorker.SurfacesStayWithinTheirClaim | crates/event-sorcery/src/job_backend.rs:315-407 | Native acks and facade settlements only produce commands fenced by their own claim, with a retry numbered one past the claim's attempt |
| Jobs.SettledExactlyWhenHeld | crates/event-sorcery/src/job.rs:546-575 | A settlement command emits its outcome iff the job is held under its claim; scratch validation never overrules that, and a job without a stream emits nothing |
| Jobs.FoldedIsReadOff | crates/event-sorcery/src/job.rs:448-544 | A folded job is exactly the state read off its stream without folding: the enqueued kind and payload, the last schedule, the last claimer, the retry and claim counts, or how it ended |
| Jobs.LiveExactlyWhenWellFormed | crates/event-sorcery/src/job.rs:448-544 | A stream folds to a live job iff it starts with its only enqueue, has nothing after a terminal event, and follows a claim with every success, retry and defer |
| Jobs.LiveStreamShape | crates/event-sorcery/src/job.rs:448-544 | A job stream that folds starts with its only enqueue, ends at its first terminal event, and follows a claim with every other outcome |
| DeliveryTheorems.VerdictBeforeAck | crates/event-sorcery/src/dispatch.rs:759-826 | In every run with origins that retain their events: a dispatched job recorded as succeeded is confirmed on its origin, finally and never failed; one recorded as rejected is failed there and never confirmed |
| DeliveryEffects.EndsAreJustified | crates/event-sorcery/src/dispatch.rs:759-826 | In every run an execution ends as it last heard and its claim calls for: success and rejection only with their verdict, a final failure with a dead-letter verdict and any other with none, a defer by the delay given or by the delivery's own |
| DeliveryEffects.DeliveryLandsExactly | crates/event-sorcery/src/dispatch.rs:775-822 | A delivery with nobody in between is recorded iff its job is in flight, absorbed iff already told, and only then the execution reports its result; otherwise nothing is written and it is put off |
| DeliveryEffects.StaleDeliveryWritesNothing | crates/event-sorcery/src/dispatch.rs:775-822 | A delivery that lost a race writes nothing and is retried, absorbed or refused by what it had loaded |
| DeliveryEffects.LostOutcomesPutOff | crates/event-sorcery/src/dispatch.rs:775-822 | A delivery whose outcome is lost defers a settled job, reports a final failure anyway, and a timeout ends any execution |
| DeliveryEffects.PlaceLandsExactly | crates/event-sorcery/src/engine.rs:894-918 | A placing commit lands iff nobody wrote since it loaded, nothing is open or confirmed, the job encodes at a representable instant and its id is new; event and enqueue then appear together, otherwise neither |
| DeliveryEffects.ActLandsExactly | crates/event-sorcery/src/sqlite_event_repository.rs:108-131 | A domain commit lands whole iff nobody wrote to its origin since it loaded |
| DeliveryEffects.SendsLoadTheStream | crates/event-sorcery/src/lib.rs:383-391 | A send decides on the stream as it is when it loads |
| DeliveryEffects.WonClaimsAreExecuted | crates/event-sorcery/src/job_backend.rs:876-924 | Every won claim of a dispatched job is executed at most once, starting with a submit or a reconcile |
| DeliveryEffects.SubmitAnswersAreTaken | crates/event-sorcery/src/dispatch.rs:759-826 | A submit's answer is next on record and brings the execution to its delivery or end |
| DeliveryEffects.ReconcileAnswersAreTaken | crates/event-sorcery/src/dispatch.rs:764-773 | So is a reconcile's, and one that found nothing submitted goes on to submit |
| DeliveryEffects.AcksReachTheQueue | crates/event-sorcery/src/job_backend.rs:1004-1069 | An ended execution's ack is in flight on its job's current stream, under its own claim |
| DeliveryTheorems.NoBlindResubmission | crates/event-sorcery/src/dispatch.rs:764-773 | An execution submits straight away iff no earlier claim exists, at most one execution of a job ever does, and every other submit directly follows a not-submitted reconcile |
| DeliveryTheorems.VerdictsAreProofs | crates/event-sorcery/src/dispatch.rs:775-822 | Every verdict on an origin's stream was heard by an execution of that job, under a claim really won, and counts its attempts |
| DeliveryTheorems.DispatchedExactlyWhenEnqueued | crates/event-sorcery/src/engine.rs:894-918 | A dispatched event is on an origin's stream iff the job is that origin's, and then the job's stream starts with its enqueue |
| DeliveryTheorems.OriginStreamsAreSound | crates/event-sorcery/src/dispatch.rs:515-605 | Every origin stream of every run, under racing sends and domain commands, replays; its dispatch events alternate, dispatch no id twice and give a job at most one verdict |
| DeliveryTheorems.QueueFollowsItsProtocol | crates/event-sorcery/src/job_backend.rs:876-924 | Every run of origins and workers drives the job queue through a run of its own protocol, so the queue's theorems hold for it |
| DeliveryTheorems.RunKeepsWorld | crates/event-sorcery/src/dispatch.rs:648-666 | The composed invariant, including in-flight loads, deliveries and acks, holds after every run |
| Dispatches.ReplaysIffAlternates | crates/event-sorcery/src/dispatch.rs:577-605 | A dispatch stream replays iff it is dispatched-failed pairs, optionally ending in an open dispatch or one final confirmation, each verdict naming the id before it |
| Origins.OriginReplaysIffAlternates | crates/event-sorcery/src/dispatch.rs:577-605 | With any domain events interleaved, an origin's stream replays iff its dispatch events alternate, and its machine is read off the last of them |
| Origins.CommandsKeepTheGrammar | crates/event-sorcery/src/dispatch.rs:515-571 | Streams grown by dispatches, verdicts and domain commands always replay and alternate, and delivering a verdict twice changes nothing |
| Origins.PlaceAcceptedExactly | crates/event-sorcery/src/dispatch.rs:515-532 | On any stream that replays, a dispatch adds its event iff nothing was dispatched or the last dispatch failed; otherwise the stream stays and the answer is that one is in flight, or that one is confirmed |
| Origins.VerdictAcceptedExactly | crates/event-sorcery/src/dispatch.rs:533-571 | A verdict is recorded whole iff its job is the one in flight, absorbed iff the last verdict was of its kind for its job, and refused as a mismatch otherwise |
| Origins.DomainAcceptedAlways | crates/event-sorcery/src/lifecycle.rs:150-229 | A domain command always adds its events in order |
| Origins.JournalFollowsItsEvents | crates/event-sorcery/src/dispatch.rs:577-605 | The entity's own state is that of its domain events, whatever dispatch events are interleaved |
| Origins.GuardsDecide | crates/event-sorcery/src/lifecycle.rs:150-229 | For every state and command the lifecycle's validated answer is the dispatch guards' answer |
| Origins.DeliveredVerdictIsRecorded | crates/event-sorcery/src/dispatch.rs:533-571 | On a stream with any domain events, a verdict the origin accepts is recorded afterwards, by one event or by none when it was there already |
| OriginCommits.AcceptedVerdictIsLoadedExactly | crates/event-sorcery/src/sqlite_event_repository.rs:108-131 | On an origin that may be compacted, an accepted verdict is among the events later loads see iff its worker held the current version, its commit took a snapshot, or it was on record before |
| OriginCommits.LostConfirmation | crates/event-sorcery/src/sqlite_event_repository.rs:121-130 | A concrete compacted origin that accepts a confirmation and keeps showing the job in flight |
| Dispatches.AcceptedVerdictIsRecorded | crates/event-sorcery/src/dispatch.rs:533-571 | An accepted verdict adds at most its own event, and the stream then records it |
| OutboxRuns.EnqueuedOnceInOrder | crates/event-sorcery/src/job.rs:812-894 | Over every interleaving of buffering, preparing, committing and draining, jobs are enqueued once and in dispatch order, and every job not enqueued is still buffered, in order |
| OutboxRuns.SuccessfulCommitTakesEveryEarlierDispatch | crates/event-sorcery/src/job.rs:867-894 | A successful commit leaves every job dispatched before its preparation enqueued and none dispatched after |
| OutboxRuns.RefusedCommitKeepsTheBuffer | crates/event-sorcery/src/sqlite_event_repository.rs:121-131 | A commit is refused iff its events are or one of its jobs is already enqueued, and then enqueues nothing and loses nothing |
| Outbox.PendingScope.PreparePending | crates/event-sorcery/src/job.rs:867-894 | Preparing gives one request per buffered push in order, or the first push's error, and leaves the buffer alone |
| Outbox.PreparedExactly | crates/event-sorcery/src/job.rs:867-894 | A buffer is prepared iff every push encodes and its delay fits, each becoming its own job, kind, payload and instant; otherwise the first that cannot says why |
| OutboxRuns.UncontendedCommitTakesAll | crates/event-sorcery/src/job.rs:812-894 | With nothing else undrained, preparing, committing and draining enqueues every dispatched job and empties the buffer iff every push can be enqueued |
| Engine.SentDispatchIsEnqueued | crates/event-sorcery/src/lifecycle.rs:183-190 | Whoever wrote between its load and its commit, a successful send of a dispatching command puts its event right after the loaded version, starts the job's stream with its enqueue, seeds its row, and touches no other job |
| Engine.CarriedEnqueueIsTheProtocols | crates/event-sorcery/src/engine.rs:894-918 | The enqueue a commit carries is the job queue protocol's enqueue: same log, same row, refused alike |
| Engine.AcceptedBatchEnqueuesEach | crates/event-sorcery/src/engine.rs:891-915 | An accepted commit enqueues every job of its batch, each new and distinct, and leaves all other jobs alone |
| Engine.BatchAcceptedExactly | crates/event-sorcery/src/engine.rs:891-915 | A batch of jobs is accepted iff every instant is representable and every job id is new and distinct |
| Engine.UnracedSendLandsExactly | crates/event-sorcery/src/lib.rs:383-391 | With no other writer, a send is refused iff its handler refuses or its job cannot be enqueued; otherwise its events are the next of the stream, and an emitting command touches no job |
| Engine.SqliteEngine.CommitSerialized | crates/event-sorcery/src/engine.rs:833-919 | The commit loop writes events, snapshot and jobs as specified, and any failure leaves every table unchanged |
| Engine.SqliteEngine.ClaimJob | crates/event-sorcery/src/engine.rs:1147-1181 | The claim transaction has the outcome the protocol's theorems are about, touches only its job, and rolls back when skipped or contended |
| Engine.SqliteEngine.RenewJob | crates/event-sorcery/src/engine.rs:361-387 | Renewal reports held iff the row still shows the claim, and writes only that row's lease |
| Engine.SqliteEngine.EnqueueJob | crates/event-sorcery/src/engine.rs:389-414 | An enqueue appends and seeds together, or refuses a used id or bad instant and changes nothing |
| Engine.SqliteEngine.StoreSnapshot | crates/event-sorcery/src/engine.rs:1082-1145 | Storing a snapshot follows the three refusals and bumps its version |
| Engine.SqliteEngine.CompactEvents | crates/event-sorcery/src/lib.rs:525-545 | Compaction deletes what snapshots cover and changes neither what any stream loads nor its version; only rows above the snapshot survive, and the retain policy changes nothing |
| Engine.SqliteEngine.Persist | crates/event-sorcery/src/sqlite_event_repository.rs:108-131 | Preparing, committing and draining happen in that order; the buffer is drained only after a successful commit |
| Engine.SqliteEngine.HandleIn | crates/event-sorcery/src/lib.rs:383-391 | Loading and deciding writes no table, yields the validated decision and buffers exactly what it dispatches |
| Engine.SqliteEngine.Flush | crates/event-sorcery/src/sqlite_event_repository.rs:108-131 | Committing a decision against whatever the tables hold by then, with the snapshot its size calls for, writes all of it or nothing |
| Engine.SqliteEngine.Send | crates/event-sorcery/src/lib.rs:383-391 | The two halves in a row, with no writer in between, change the tables as the decision says, all of it or nothing |
| EventStore.DerivedStateAgreesWithHistory | crates/event-sorcery/src/engine.rs:932-958 | Over every run of expected-version commits, snapshot stores and compactions the stream version counts all events ever committed, and snapshot plus tail loads the fold of the full history |
| EventStore.StaleWriterIsAlwaysRefused | crates/event-sorcery/src/engine.rs:833-852 | A writer is served iff nothing was committed since it read; an older one always gets the optimistic lock with nothing written, whatever was compacted |
| EventStore.HistoryOnlyGrows | crates/event-sorcery/src/engine.rs:932-958 | No continuation of a run shortens the history or lowers the version |
| EventStore.CompactKeepsStream | crates/event-sorcery/src/lib.rs:525-545 | Compaction changes neither what a stream loads nor its version |
| EventStore.ExpectedVersionIsExact | crates/event-sorcery/src/engine.rs:1301-1308 | A commit at an expected version succeeds iff it is the current one, the events follow it, and a snapshot comes with events |
| EventStore.SnapshotStoredExactly | crates/event-sorcery/src/engine.rs:1082-1145 | A snapshot is stored iff there is history, it reaches no further than it and no less than the stored one; each refusal says which, and the version counts up |
| EventStore.CurrentReadersAreServed | crates/event-sorcery/src/engine.rs:833-919 | In every run a read is of the whole history, and a reader nobody overtook commits any consecutive events with the snapshot it asks for |
| EventStore.SnapshotsAndCompactionTakeEffect | crates/event-sorcery/src/lib.rs:525-545 | In every run a snapshot reaching no less than the stored one is stored, and compaction leaves no covered row |
| NativeCommits.StaleCommitAcceptedExactly | crates/event-sorcery/src/sqlite_event_repository.rs:108-131 | Without an expected version, a stale writer is accepted, with or without a snapshot, iff compaction deleted every sequence it needs; its events then precede the surviving rows and its snapshot replaces the stored one |
| NativeCommits.StaleCommitLosesItsOwnEvents | crates/event-sorcery/src/engine.rs:833-919 | Without a snapshot such a commit loses exactly its events at sequences the history had reached |
| NativeCommits.StaleSnapshotLosesOthersEvents | crates/event-sorcery/src/engine.rs:856-892 | With its snapshot, however many of its own events that folded, such a commit drops from the load what others committed since it read, up to the surviving rows, and its own unfolded events; the version falls to its own when none survive |
| NativeCommits.LostWriteExample | crates/event-sorcery/src/sqlite_event_repository.rs:121-130 | A concrete stream on which an accepted write is never loaded |
| NativeCommits.LostHistoryExample | crates/event-sorcery/src/engine.rs:856-892 | A concrete stream on which an accepted write with a snapshot lowers the version from 3 to 2 and drops two committed events |
| NativeCommits.CoveredUpToTheLastDue | docs/cqrs.md:903-913 | What a snapshot folds ends at the last multiple of the snapshot size within its commit, or is nothing if there is none |
| NativeCommits.CommitLoadsWhatItFolded | crates/event-sorcery/src/engine.rs:856-861 | A commit at the current version with a snapshot of its first events is accepted and counted whole, but loads see only those events: the full history if that is all of them, and for an entity whose state tells event lists apart only if |
| NativeCommits.CutShortExample | docs/cqrs.md:903-913 | A first commit of three events at snapshot size two leaves version 3 and loads two |
| NativeCommits.WholeCommitKeepsStream | crates/event-sorcery/src/engine.rs:833-919 | A commit at the current version that is not cut short is accepted and agrees with the history it extends |
| NativeCommits.CompactionIsInvisible | crates/event-sorcery/src/lib.rs:525-545 | On any ordered stream, whatever its snapshot holds, compaction changes neither load nor version and leaves only rows above the snapshot |
| NativeRuns.VersionCountsExactly | crates/event-sorcery/src/engine.rs:833-919 | Over every run of racing native commits, snapshots and compactions the version never exceeds the number of accepted events, and equals it iff no accepted commit came from a writer behind the current version |
| NativeRuns.CurrentWritersAreServed | crates/event-sorcery/src/sqlite_event_repository.rs:108-131 | In every run a writer at the current version is accepted and its events are the last of the history |
| NativeRuns.SnapshotsAndCompactionTakeEffect | crates/event-sorcery/src/lib.rs:525-545 | In every run a writer's snapshot replaces one that reaches no further, and compaction leaves no covered row and the same load |
| NativeRuns.LoadAgreesExactly | crates/event-sorcery/src/engine.rs:833-919 | In such a run loading gives the fold of everything accepted if no accepted commit came from a writer behind or took a snapshot cut short; for an entity whose state tells event lists apart, only if |
| NativeRuns.LossesStay | crates/event-sorcery/src/engine.rs:833-919 | After either has happened, no later commit, snapshot or compaction makes up for it |
| NativeRuns.SmallCommandsAreNeverCut | docs/cqrs.md:903-913 | Runs with snapshot size one or one event per command are never cut short |
| NativeRuns.RetainedStreamsRefuseStaleWriters | crates/event-sorcery/src/sqlite_event_repository.rs:108-131 | Without compaction no run is ever overtaken, and a writer is accepted iff nothing was committed since it read, whatever snapshots were taken |
| NativeRuns.RetainedLoadsAgreeExactly | crates/event-sorcery/src/engine.rs:833-919 | Without compaction loads give the full history if no snapshot was cut short; for an entity whose state tells event lists apart, only if |
| EventTable.InsertSerializedEventsBatch | crates/sqlite-es/src/event_repository.rs:412-461 | The chunked insert has the row-by-row outcome for every batch length: all rows, or none from the first conflict |
| EventTable.PlaceKeepsOrder | crates/sqlite-es/src/event_repository.rs:412-461 | Inserting a free sequence keeps a stream's rows strictly ordered |
| Paging.PagingReadsEverything | crates/event-sorcery/src/engine.rs:428-487 | For any limit and any sparse sequences, page after page concatenates to exactly the ordered load |
| Paging.LoadEventsPage | crates/event-sorcery/src/engine.rs:428-487 | A page is a prefix of what follows the checkpoint, at most the limit, and short only when that is all |
| Paging.LoadsWhatFollows | crates/event-sorcery/src/engine.rs:428-487 | A load holds exactly the rows past the checkpoint, in order |
| Lifecycles.ReplayKeepsTheLongestApplicablePrefix | crates/event-sorcery/src/lifecycle.rs:231-283 | For arbitrary events the entity of the longest applicable prefix survives, the next event is the cause, and each later one adds one nested failure |
| Lifecycles.FailedIsSticky | crates/event-sorcery/src/lifecycle.rs:231-283 | A failed lifecycle stays failed with its last valid entity, one nesting per event |
| Lifecycles.Handled | crates/event-sorcery/src/lifecycle.rs:150-229 | Events accepted from a command never fold to a failed state |
| Lifecycles.HandledExactly | crates/event-sorcery/src/lifecycle.rs:150-229 | A command is answered as its entity answers it, except that events the entity could not apply are refused with the first failure they cause, a failed entity answers with its failure, and a dispatch outside a scope is refused |
| Lifecycles.Aggregate.Handle | crates/event-sorcery/src/lifecycle.rs:150-229 | Handling leaves the aggregate unchanged, buffers a dispatch before validation, and returns all events or the first failure |
| Lifecycles.Aggregate.Load | crates/event-sorcery/src/lifecycle.rs:231-283 | Applying events one by one in place is the fold |
| Projection.CatchingUpIsFullReplay | crates/event-sorcery/src/projection.rs:313-417 | Replaying only what a view missed, over any gaps or an undecodable payload, equals replaying everything |
| Projection.HealedExactly | crates/event-sorcery/src/projection.rs:226-269 | Catch-up ends at the full replay at the last sequence for every missing, behind or current view, except exactly a current view that does not decode |
| Projection.HealingIsIdempotent | crates/event-sorcery/src/projection.rs:226-269 | A second run finds nothing behind and changes nothing |
| Projection.ViewTable.ReplayMissedEvents | crates/event-sorcery/src/projection.rs:313-417 | The replay loop overwrites one row with the caught-up view, or stops at a malformed payload and writes nothing |
| Projection.ViewTable.CatchUp | crates/event-sorcery/src/projection.rs:226-269 | Catch-up succeeds iff every missed event decodes, and then every view is healed; a failed run leaves each view untouched or healed |
| Projection.ViewTable.RebuildAll | crates/event-sorcery/src/projection.rs:297-310 | From arbitrary rows, a rebuild succeeds iff every event decodes and then the table is exactly the full replays |
| Projection.ViewTable.Rebuild | crates/event-sorcery/src/projection.rs:276-293 | Rebuilding one view gives its full replay and heals the others |
| Reactions.ViewFoldsWhatWasSaved | crates/event-sorcery/src/projection.rs:532-622 | Over every interleaving of reactions loading and saving one view, with conflicts, retries and losses, the view is the fold of the rows startup found and then of exactly the events saved, in that order, and counts them |
| Reactions.UnracedReactionIsSaved | crates/event-sorcery/src/projection.rs:532-622 | In every run a reaction nobody comes in between is saved, one event and one version on |
| Reactions.PrefixFoldExactly | crates/event-sorcery/src/projection.rs:532-622 | On a stream with any sequence gaps, a view is a prefix fold if the saved events are the next rows, in order and without a gap; for an entity whose state tells event lists apart, only if |
| Reactions.HealsExactly | crates/event-sorcery/src/projection.rs:226-269 | Catch-up takes such a view to the full replay over any sequence gaps, and for such an entity no other |
| Reactions.LostReactionMisfolds | crates/event-sorcery/src/projection.rs:562-621 | A concrete lost update in stream order that leaves a view catch-up makes wrong for good |
| Reactions.ReactingOutOfOrderMisfolds | crates/event-sorcery/src/projection.rs:532-622 | A concrete pair of updates in the other order passes every version check and leaves a wrong view that catch-up never revisits |
| SchemaRecovery.RecordedVersionKeepsItsPromise | crates/event-sorcery/src/wire.rs:130-191 | Through any crashes and restarts of one code version, from whatever was left behind, on streams with any sequence gaps, and as long as no reaction is saved past a lost one, while it is recorded every snapshot and view is in its format and a fold of its stream |
| SchemaRecovery.ReactionKeepsGoodExactly | crates/event-sorcery/src/projection.rs:532-622 | A reaction keeps a view good if its event is the one at the sequence right after the view's version; for an entity whose state tells event lists apart, only if |
| SchemaRecovery.RecordingFollowsFullRecovery | crates/event-sorcery/src/wire.rs:157-182 | Whenever the version is recorded, at that moment every view is the full replay in its format |
| SchemaRecovery.RefusedChangeDeletesNothing | crates/event-sorcery/src/schema_registry.rs:209-215 | A version change of a compactable aggregate is refused however often it is tried, and nothing is deleted |
| SchemaRecovery.RestartsKeepSnapshots | crates/event-sorcery/src/schema_registry.rs:181-250 | From any database at a recorded version, through any crashes, starts of that version lose no snapshot and move none back; for an entity that compacts, no start of any version does |
| SchemaRecovery.EveryOtherStartCanFinish | crates/event-sorcery/src/schema_registry.rs:181-250 | A start is refused unchanged iff it would change the version of an entity that compacts; any other is up and recorded once its missing and lagging views are replayed, in any order, with every event kept |
| SchemaRecovery.UpServes | crates/event-sorcery/src/wire.rs:130-191 | While up, an append takes the next sequence of its stream alone, a reaction moves a decodable view one version on, and a snapshot reaches the end of its stream |
| SchemaRecovery.OthersRegisterFreely | crates/event-sorcery/src/schema_registry.rs:108-140 | Another entity's version is recorded without touching this one |
| SchemaRollback.RunKeepsAny | crates/event-sorcery/src/schema_registry.rs:181-250 | Whatever versions start, crash and resume, every view stays a fold in the format that wrote it and every snapshot in the recorded one |
| SchemaRollback.RecoveryRestoresExactly | crates/event-sorcery/src/schema_registry.rs:181-235 | A finished start of a version restores its promise iff another version is recorded or no view found was written by another version up to the end of its stream; then every view is the full replay in its format |
| SchemaRollback.EveryRestartRestoresExactly | crates/event-sorcery/src/schema_registry.rs:181-250 | After every run from an empty database, through any versions and crashes, the next finished start of a version restores its promise iff another version is recorded or the run left no view stranded for it |
| SchemaRollback.RollbackMidwayStrandsAView | crates/event-sorcery/src/schema_registry.rs:199-207 | The concrete run in which a view is stranded and stays undecodable |
| SchemaRegistry.LoadRegistry | crates/event-sorcery/src/schema_registry.rs:253-281 | Replaying the registry stream yields the last version recorded under every name |
| SchemaRegistry.RegisteringSetsOneVersion | crates/event-sorcery/src/schema_registry.rs:108-140 | Registering sets one name's version, keeps all others, and repeating it appends nothing |
| ClaimRegistryRuns.CapacityHolds | crates/event-sorcery-ffi/src/lib.rs:1121-1149 | Over every interleaving, tokens plus reservations stay within capacity, the counter is the live reservations, and releasing one never saturates |
| ClaimRegistryRuns.ExactlyOneGuard | crates/event-sorcery-ffi/src/lib.rs:1335-1380 | A token is renewing or settling iff exactly one such guard is alive, so completing a live renewal never fails |
| ClaimRegistryRuns.GuardProtectsItsToken | crates/event-sorcery-ffi/src/lib.rs:1200-1252 | Until its own guard ends, no eviction, retirement, re-claim or other guard changes a token in use |
| ClaimRegistryRuns.StepDecidesEachToken | crates/event-sorcery-ffi/src/lib.rs:1121-1400 | In every run each step decides each token: an idle one goes only when its own job is issued a token, or lapsed, as the oldest at capacity or with its job's lapsed ones; a renewal or settlement takes it out and gives it back renewed, as it was, or spent; only an issue brings one in |
| ClaimRegistryRuns.StepDecidesReservations | crates/event-sorcery-ffi/src/lib.rs:1121-1149 | In every run a slot is reserved iff there is room or an oldest lapsed token makes it, and is given back by an issue or a drop |
| ClaimRegistryRuns.AtMostOneSettlement | crates/event-sorcery-ffi/src/lib.rs:2239-2271 | A token completes at most one settlement and never returns afterwards |
| ClaimRegistryRuns.RefusedOnlyWhenFullOfLiveClaims | crates/event-sorcery-ffi/src/lib.rs:1121-1149 | A claim is turned away iff the registry is full and nothing in it has lapsed |
| ClaimRegistryRuns.IssuedIsTheOnlyAvailable | crates/event-sorcery-ffi/src/lib.rs:1286-1307 | When issued, a token is its job's only available one |
| ClaimRegistryRuns.RenewedTokenStaysBesideItsSuccessor | crates/event-sorcery-ffi/src/lib.rs:1335-1354 | Re-claiming a job while an earlier token renews ends with both available |
| ClaimRegistry.Registry.EvictOldestExpired | crates/event-sorcery-ffi/src/lib.rs:1236-1245 | The search evicts an expired token no other lapsed before, or nothing when none lapsed |
| ClaimRegistry.Registry.PrepareClaim | crates/event-sorcery-ffi/src/lib.rs:1121-1149 | Reserving below capacity keeps every token, at capacity evicts one expired, and otherwise refuses unchanged |
| ClaimRegistry.Registry.JobClaim | crates/event-sorcery-ffi/src/lib.rs:805-850 | A claim call gives its reservation back whatever the queue answers; it issues on a win, retires the job's lapsed tokens when nothing runs under them, and otherwise keeps all but a token evicted at capacity |
| ClaimRegistry.Registry.JobRenew | crates/event-sorcery-ffi/src/lib.rs:877-902 | A renewal call moves the lease when held, retires the token when lost, and leaves the registry as it was when it fails or the token was not available |
| ClaimRegistry.Registry.JobSettle | crates/event-sorcery-ffi/src/lib.rs:2239-2271 | A settlement call spends the token exactly when it was available and the settlement landed, and otherwise leaves the registry as it was |
| StoreHandleRuns.LeasesAreCounted | crates/event-sorcery-ffi/src/lib.rs:1604-1734 | Over every interleaving of opens, calls and closers, the call count is the live leases, the store's engine slot is empty only at none, and no lease drop ever poisons |
| StoreHandleRuns.ExactlyOneDestroyer | crates/event-sorcery-ffi/src/lib.rs:1550-1584 | A store no longer open has exactly one destroyer; every other closer joins |
| StoreHandleRuns.ClosersAgree | crates/event-sorcery-ffi/src/lib.rs:1642-1704 | A closer returns only after the destroyer and with its outcome, with no lease counted and the store's engine slot empty |
| StoreHandleRuns.HandleReleasedOnce | crates/event-sorcery-ffi/src/lib.rs:1586-1601 | The raw handle is released exactly when the registry forgets the store, once, and by the time any closer is done |
| StoreHandleRuns.OwnerMatchesRegistry | crates/event-sorcery-ffi/src/lib.rs:1529-1584 | The owner cell is null or names the registered store, which it does iff that store is open |
| StoreHandleRuns.ClosingStoresTakeNoCalls | crates/event-sorcery-ffi/src/lib.rs:1604-1640 | Once closing has begun a store never reopens or gains a lease |
| StoreHandleRuns.OpeningSucceedsExactly | crates/event-sorcery-ffi/src/lib.rs:1529-1584 | Opening succeeds iff no store is registered, and gives an open store without calls |
| StoreHandleRuns.OpenStoresServeCalls | crates/event-sorcery-ffi/src/lib.rs:1604-1640 | A call gets its lease iff the registered store is open |
| StoreHandleRuns.LeasesCanBeDropped | crates/event-sorcery-ffi/src/lib.rs:1707-1734 | A live lease can always be given back, open or closing |
| StoreHandleRuns.ClosersTakePart | crates/event-sorcery-ffi/src/lib.rs:1550-1584 | A new closer clears the owner and, while a store is registered, destroys it if open and joins if not |
| StoreHandleRuns.DestroyerFinishes | crates/event-sorcery-ffi/src/lib.rs:1642-1704 | Once no call is left the destroyer gets through with its teardown's outcome: store closed, slot empty, handle released, entry gone |
| StoreHandleRuns.JoinersFinish | crates/event-sorcery-ffi/src/lib.rs:1642-1704 | Once the store is closed a joiner gets through with its outcome |
| StoreHandle.EsStore.DropLease | crates/event-sorcery-ffi/src/lib.rs:1707-1734 | Dropping a lease lowers the count, or poisons the store when the count is already zero or the store closed |
| StoreHandle.EsStore.LinearizeClose | crates/event-sorcery-ffi/src/lib.rs:1550-1584 | Only the closer that finds the store open gets to destroy it |
| StoreHandle.EsStore.Close | crates/event-sorcery-ffi/src/lib.rs:1642-1704 | A closer that wakes returns iff it may: a joiner with the outcome it finds, changing nothing, the destroyer with its own, leaving the slot empty and the store closed |

## Left out

- SQL text, SQLite locking, pools and migrations: a transaction is an atomic step and the unique key a compare-and-swap.
- Encodings (CBOR, JSON), C buffers and pointers, panics at the C boundary, and the size limits checked there.
- The worker framework: polling, heartbeats, timers and floating-point backoff. An execution's result, its delays and a timeout at any moment are arbitrary.
- The renewal loop's `lost` flag: a worker here may try to ack a claim it lost, which the fences refuse; the code tries less often.
- Liveness: that a verdict is eventually delivered, or a closer eventually returns, is not claimed.
- Integer widths: sequences, counters and call counts are unbounded; only instants are range-checked.
- Snapshots of jobs and of dispatching origins: both load the fold of their full stream. Jobs retain their events and append one at a time, and then a snapshot-backed load is that fold (`NativeRuns.RetainedLoadsAgreeExactly`, `NativeRuns.SmallCommandsAreNeverCut`).
- DeliveryTheorems.VerdictBeforeAck: does not cover origins that compact their events or commit several events across a snapshot boundary, because there an accepted event can be missing from later loads, as `OriginCommits.LostConfirmation` and `NativeCommits.CutShortExample` show.
- Domain events an origin commits together with a dispatch or a verdict: in the delivery runs they are commits of their own.
- The moment a lease's own reference to the engine is dropped: it outlives the count, so only the store's slot is modelled.
- The reactor's retry limit: a conflicting update may be retried any number of times, or given up at any point.
- Discarding a snapshot of a compacted stream, and rebuilding a retained aggregate whose snapshot does not decode.
- More than one dispatched job per origin entity, type-level job lists and macros.
- Id listings, vacuuming, SQLite URL parsing and the examples: easy members or input and output.
