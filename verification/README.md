# Event delivery of process-path-management

A Dafny model of how this service turns commands into events and events into a report, and proofs of what
that chain promises over whole runs: any number of requests, transactions, relay passes and restarts, in any
interleaving. `dafny verify dfyconfig.toml` checks the project.

The model has four parts, each as the code has it.

* **Aggregates and use cases** (`ProcessPaths`, `CptSchedules`, `Catalogue`, `Decisions`, `SerialRuns`,
  `UseCases`, `PathStore`, `ScheduleStore`): the two aggregates as classes, the four write use cases as methods over a
  database that may fail at every call and in which others commit between a use case's load and its save, and
  the two repositories over their tables, with the precision and order the columns keep.
* **Transactional outbox** (`Outbox` is the step machine, `Infrastructure` the calls the code makes on it;
  `OutboxInvariant`, `OutboxTheorems`, `Histories`, `RelayOrder`, `Replay`, `RelayPass`, `Relay`, `TwoRelays`,
  `StaleLoads`, `Commands`, `Interference`): transactions with row locks, saves decided on a committed version
  that may no longer be the current one, ids taken at insert and visible at commit, relay passes, sends that
  may fail after delivery, lost acknowledgements, crashes.
* **Idempotency keys** (`Idempotency` is the machine, `Middleware` the code for one request; `KeyedRequests`
  makes one machine of it and the outbox).
* **Analytics** (`Analytics`, `AnalyticsStores`: the projection's two forms and the report; `Consumer`,
  `ConsumerTheorems`, `ConsumerLoop`: the consume loop with its two stores and its dead-letter topic), and
  `EndToEnd`, which joins it to the outbox.

A machine's step that is not enabled changes nothing, so every sequence of steps is a run and a theorem about
`Exec(EMPTY, steps)` is about every run. Each imperative method returns a ghost `trace`: the run of the
machine that the call amounts to. The calls it makes fail nondeterministically unless the world is `calm`, and
others act in between unless it is `alone`.

No lock is held between a use case's load and its save, so a change may be decided on a version that another
has replaced since. The machine lets it: `version` of a `Save` step is the number of committed changes the load
saw. Theorems about rows, ids, passes, order and delivery hold of every run. Those that compare what is stored
with what is published say exactly when it agrees; `Current(h)` names the histories in which every save was
decided on what it replaced, as in every run whose loads are still current at their saves
(`Histories.CurrentLoadsMakeChains`), and there it always does.

## What the proofs found

* **Two relays do not keep per-path order.** `outbox_relay.go:29-32`, and ADR 0014 which allows four replicas
  because of it, say that `SKIP LOCKED` preserves ordering across relays. It keeps batches disjoint, not
  ordered. `TwoRelays.OverlappingRelaysLeaveTheTopicStale` is a run in which every row ends published and the
  topic, replayed from the start, shows the superseded definition; `TwoRelays.ClaimKeepsOrderIff` gives the
  exact condition on a claim, which one relay at a time always meets.
* **An analytics event can be lost.** `analytics_consumer.go:236-245` takes a marked id for one that an earlier
  run "fully processed". A crash between the mark and the apply
  (`ConsumerTheorems.CrashAfterMarkLosesTheEvent`), or with no crash a mark that was recorded but reported as an
  error and retried (`UnacknowledgedMarkLosesTheEvent`), leaves the event counted nowhere and dead-lettered
  nowhere, for ever (`StrandedForEver`). `LostIffStranded` says exactly when that happens.
* **Overlapping use cases on one path part the store from the topic.** A second definition that loaded before
  the first committed passes the existence check of `define_path.go:34-41`; the upsert keeps the first `direct`
  and role and the event announces the second (`StaleLoads.OverlappingDefinitionsSplit`). A deactivation that
  loaded before a revision committed saves the old definition over it, while the topic keeps the revision
  (`OverlappingRetirementSplits`). `Replay.QuietReplayIsTheStore` says exactly when replay rebuilds the store,
  and `OutboxTheorems.PathHistoryShape` exactly when a path's events are Created, Updated*, Deactivated?.
* **A duplicate is not always an idempotent overwrite** (`outbox_relay.go:25-29`). A retirement carries no
  definition, so sent again after a lost pass it retires whatever definition came last. If an update decided on
  a stale load had followed it, the topic meanwhile shows a path that never was
  (`StaleLoads.ResentRetirementShowsNoVersion`). `Replay.ReplayShowsWhatIsTold` says what every moment shows and
  exactly when that is the published version: when the last definition on the topic is the one published last
  up to the latest message; so whenever no retirement is gone back over.
* **A cycle time below one microsecond is stored as zero**, and the stored path no longer passes `validate`
  (`OutboxTheorems.StoredPathsValidIff`). Any sub-microsecond part makes the event and the stored path differ,
  and sending the same revision again publishes again (`Catalogue.ResubmissionIsNoOpIff`,
  `SubMicrosecondRevisionRepublishes`). A schedule whose cutoffs were not sent in cptId order does the same.
* **A stored schedule may come to name a retired path**: the path check holds when the schedule is written, and
  nothing checks it at retirement (`SerialRuns.RetiredPathStaysScheduled`). Schedules stay on active paths
  exactly as long as no path is retired that a stored schedule names (`LiveIffNotScheduled`,
  `LiveThroughoutIff`).

## Assumptions

* A SQL error poisons its transaction: later statements fail and a commit only rolls back.
* Encoders succeed on the four event kinds unless the subject is empty; event ids are minted distinct.
* A use case loads a committed version of its aggregate, the current one or an older, and its path check may
  have seen any set of active paths; its save takes the row lock, or the key's for a new row, and meets the row
  as it is then. A schedule's load is two statements outside any transaction (`cpt_schedule_repo.go:66-114`) and
  may mix two versions; the model's load is one version. A schedule write replaces the whole, so a mixed load
  can only change whether a request is taken for a repetition of what is stored.
* `Env.before`, the collation of the database, is a total order; `Env.isLower` and `Env.knownZone` are arbitrary.
* An apply, an offset commit, a dead-letter write, a mark or a COMMIT that reports an error may have taken effect.

## Model

| member | source | states |
|---|---|---|
| OutboxInvariant.Reachable | internal/adapters/outbound/postgres/unit_of_work.go:60-92 | every state of every run keeps the whole invariant: change and rows together, id order, locks, disjoint passes, marks only after sends |
| OutboxTheorems.EveryChangeHasItsRows | internal/adapters/outbound/postgres/outbox_publisher.go:48-68 | each committed change has exactly one row per encoder, all under one event id and with its event |
| OutboxTheorems.NoRowWithoutChange | internal/adapters/outbound/postgres/unit_of_work.go:47-50 | a committed row has its committed change, and the stored value is that of the aggregate's last change |
| OutboxTheorems.TopicsAgree | internal/adapters/outbound/postgres/outbox_publisher.go:53-66 | integration and analytics rows of an aggregate carry the same events in the same id order |
| OutboxTheorems.CommitOrderIsIdOrder | internal/application/usecases/define_path.go:49-63 | of two rows of one aggregate the later committed has the higher id, under concurrent transactions |
| OutboxTheorems.NothingLostNothingFalse | internal/adapters/outbound/postgres/outbox_relay.go:95-158 | a committed row stays, pending or published, for ever; published means a send of it succeeded and its message is on the topic |
| OutboxTheorems.PassesAreDisjoint | internal/adapters/outbound/postgres/outbox_relay.go:102-109 | two passes in flight never hold a common row, and hold only pending ones |
| OutboxTheorems.PathHistoryShape | internal/domain/processpath/process_path.go:141-179 | in every run id, direct, role and createdAt of a path never change; its events are Created, Updated*, Deactivated? exactly when no later save was decided on an empty load or met a retired row, and always where loads were current |
| OutboxTheorems.StoredPathsValidIff | internal/domain/processpath/process_path.go:209-226 | in every run a stored path passes `validate` exactly when the definition it was saved from lasts at least a microsecond |
| OutboxTheorems.StoredPathsAreWellFormed | internal/domain/processpath/process_path.go:209-226 | in every run a stored path has an id, a nonempty lower-case prefix, at least one capability, one of the four roles and a whole number of microseconds |
| OutboxTheorems.StoredSchedulesAreWellFormed | internal/domain/cptschedule/cpt_schedule.go:224-242 | in every run a stored schedule has a known zone and at least one cutoff, ids ascending, each cutoff with everything `NewCutoff` demands |
| Histories.UpdatesDiffer | internal/domain/processpath/process_path.go:156-159 | an update differs from the stored definition it was decided on, and repeats that version's event only where the columns had lost part of it |
| Histories.SaveAgreesIff | internal/adapters/outbound/postgres/process_path_repo.go:35-48 | a save stores the definition published last exactly when a creation met no row with other immutable fields and a retirement had loaded that definition |
| Histories.CurrentLoadsMakeChains | internal/application/usecases/define_path.go:34-49 | in a run whose saves all meet what was loaded, every aggregate's changes are a legal succession |
| StaleLoads.OverlappingDefinitionsSplit | internal/application/usecases/define_path.go:34-63 | a run with one relay and nothing pending after which neither topic shows the stored path: two definitions loaded before either committed |
| StaleLoads.OverlappingRetirementSplits | internal/application/usecases/deactivate_path.go:25-47 | another such run: a retirement saves the definition it loaded over a revision committed since |
| RelayOrder.RunKeepsOrder | internal/adapters/outbound/postgres/outbox_relay.go:89-94 | safe claims keep, through sends, failures, lost passes and crashes, every topic without gaps and caught up with its published rows |
| RelayOrder.OneRelayIsSafe | internal/adapters/outbound/postgres/outbox_relay.go:29-32 | with one relay at a time every claim is safe |
| Replay.NoEventOvertakes | internal/adapters/outbound/postgres/outbox_relay.go:89-158 | a message arrives only after every earlier-committed event of its aggregate and topic arrived at least once |
| Replay.ReplayShowsWhatIsTold | internal/adapters/outbound/postgres/outbox_relay.go:22-32 | at every moment, duplicates and stale loads included, replaying a topic shows of a path the last definition on it, retired exactly when the last message is a retirement; that is the published version of the latest message, no older than any published row, exactly when that definition was the one published last up to there, and the committed version exactly when it is the one stored there |
| StaleLoads.ResentRetirementShowsNoVersion | internal/adapters/outbound/postgres/outbox_relay.go:25-29 | a run with one relay in which a retirement sent again after a stale update makes the topic show a retired update, no version the path ever had |
| Replay.ReplayShowsACommittedVersion | internal/adapters/outbound/postgres/outbox_relay.go:22-32 | for an aggregate whose saves were all decided on what they replaced, that is always one of its committed versions |
| Replay.QuietReplayIsTheStore | internal/adapters/outbound/postgres/outbox_relay.go:25-29 | with no pending row, replaying a topic from offset zero rebuilds a stored path or schedule, at the columns' precision and order, exactly when its last save agrees with what was published; always where loads were current |
| Replay.QuietReplayIsExactIff | internal/adapters/outbound/postgres/outbox_relay.go:25-29 | the rebuilt entry equals the stored one exactly when moreover the columns hold all of the last published definition |
| Replay.QuietReplayFieldByField | internal/adapters/outbound/postgres/outbox_relay.go:25-29 | where loads were current and nothing is pending, replay holds exactly the stored aggregates: each field of a path, the cycle time to the microsecond, and of a schedule the timezone and the cutoffs up to order |
| TwoRelays.ClaimKeepsOrderIff | internal/adapters/outbound/postgres/outbox_relay.go:29-32 | a claim keeps the topic caught up in every safe continuation if and only if no other pass holds a lower row of a claimed row's aggregate and topic |
| TwoRelays.OverlappingRelaysLeaveTheTopicStale | internal/adapters/outbound/postgres/outbox_relay.go:29-32 | a run of two overlapping passes after which nothing is pending and the topic shows a superseded definition |
| Outbox.ScanTakesLowest | internal/adapters/outbound/postgres/outbox_relay.go:102-109 | the claim query returns the lowest unlocked pending ids in order, leaving one out only when full |
| Relay.ClaimTakesLowest | internal/adapters/outbound/postgres/outbox_relay.go:102-109 | what a pass claims beside others: rows unpublished and in no other pass, ascending; one left out is in another pass, or the batch is full of lower ones |
| RelayPass.CleanPassRuns | internal/adapters/outbound/postgres/outbox_relay.go:131-157 | claim, sends, marks and commit add up to: the batch on the topic in order, exactly its rows marked |
| RelayPass.CleanPassPublishesLowest | internal/adapters/outbound/postgres/outbox_relay.go:89-94 | a pass without error publishes exactly the min(limit, pending) lowest pending rows |
| Relay.OutboxRelay.RelayOnce | internal/adapters/outbound/postgres/outbox_relay.go:95-158 | what a pass returns and leaves in each case: clean, send failed at position j, SQL trouble, lost acknowledgement; `PassMarks` and `PassSends` spell it out |
| Relay.OutboxRelay.RecordFailure | internal/adapters/outbound/postgres/outbox_relay.go:133-143 | on a failed send the rows before it are marked, it gains an attempt, later rows are untouched, or nothing is |
| Relay.PassMarks | internal/adapters/outbound/postgres/outbox_relay.go:131-157 | row by row what a pass leaves: without error exactly the batch is published, each row with one more attempt; after a recorded failure at position j the rows before j are, row j is still pending with one more attempt, and all others are as they were |
| Relay.PassSends | internal/adapters/outbound/postgres/outbox_relay.go:131-157 | the topics gained the messages of the batch's first rows, in order, and at most the one of the row whose send failed or was not marked |
| Relay.OutboxRelay.Run | internal/adapters/outbound/postgres/outbox_relay.go:72-87 | is a run of one relay while others commit; left alone with nothing failing it drains the table in as many nonempty passes as the batch size demands |
| Relay.PassesForIsCeiling | internal/adapters/outbound/postgres/outbox_relay.go:67-71 | that number of passes is the ceiling of pending rows over batch size |
| Catalogue.DecisionsLand | internal/application/usecases/revise_path.go:27-63 | whatever row its save meets, a change decided on a loaded version is legal on that version, keeps the row's immutable columns and leaves a loadable row |
| Catalogue.DecisionsFollow | internal/application/usecases/revise_path.go:27-63 | every change a use case decides on is a legal next value and event of its aggregate, and leaves a loadable row |
| Decisions.DefineDecides | internal/application/usecases/define_path.go:33-71 | created exactly when nothing was loaded and every rule holds, with the submitted definition stored and published; each refusal by its first failing rule |
| Decisions.ReviseDecides | internal/application/usecases/revise_path.go:27-63 | silent exactly when all four submitted fields are the loaded ones; otherwise the value and the event have the four submitted fields and keep the rest; each refusal by its first failing rule |
| Decisions.DeactivateDecides | internal/application/usecases/deactivate_path.go:24-47 | retires an active path and keeps all else, silent on a retired one, refused exactly on a missing one |
| Decisions.ScheduleDecides | internal/application/usecases/cpt_schedule.go:33-77 | silent exactly when the submitted timezone and cutoffs are the loaded ones; otherwise the value and the event have them; ineligible ids are refused before the schedule's own rules, in order |
| Catalogue.ResubmissionIsNoOpIff | internal/application/usecases/revise_path.go:12-17 | sending an accepted definition again publishes nothing exactly when the columns hold all of it, and otherwise publishes it again |
| Catalogue.StoredPathIsValidIff | internal/domain/processpath/process_path.go:222-224 | a stored definition passes `validate` exactly when its cycle time was at least one microsecond |
| Catalogue.SubMicrosecondRevisionRepublishes | internal/adapters/outbound/postgres/process_path_repo.go:170-172 | one nanosecond past a microsecond, the identical revision publishes an identical event |
| SerialRuns.SchedulesNameLivePaths | internal/application/usecases/cpt_schedule.go:33-101 | in every serial run each CPTScheduleChanged names only paths created before and not retired before, and stored schedules name only stored paths |
| SerialRuns.LiveIffNotScheduled | internal/application/usecases/deactivate_path.go:24-47 | a write keeps every stored schedule on active paths if and only if it does not retire a path that some schedule names |
| SerialRuns.LiveThroughoutIff | internal/application/usecases/cpt_schedule.go:18-22 | a serial run keeps them there throughout if and only if it never does that |
| SerialRuns.RetiredPathStaysScheduled | internal/application/usecases/deactivate_path.go:24-47 | a run after which a stored schedule names a retired path |
| Commands.CommandRuns | internal/application/usecases/define_path.go:49-63 | begin, save, both inserts and commit, run alone, are the whole change and nothing else |
| Commands.SerialRunIsARun | internal/application/usecases/define_path.go:33-71 | every serial run of use cases is a run of the machine, transaction by transaction, with the same store and its events as the rows of both topics in order |
| Commands.StoredSchedulesNameStoredPaths | internal/application/usecases/cpt_schedule.go:83-101 | after such a run the machine's stored schedules name only stored paths |
| UseCases.OutboxPublisher.Publish | internal/adapters/outbound/postgres/outbox_publisher.go:50-68 | success leaves every encoder's row inserted under one event id; failure leaves a transaction that can only roll back |
| UseCases.UnitOfWork.Execute | internal/adapters/outbound/postgres/unit_of_work.go:64-92 | own scope: all or nothing, success meaning all; joined scope: all prepared, or a transaction that can only roll back |
| UseCases.WriteUseCases.Atomically | internal/application/usecases/define_path.go:79-87 | whatever others committed since the load, the decision is written as it was made: whole, or not at all, or prepared in the joined transaction |
| UseCases.WriteUseCases.DefinePath | internal/application/usecases/define_path.go:33-71 | carries out, alone or joined and with others committing between load and save, exactly the decision over the data it loaded; success means the path was absent and, on its own, that the submitted fields are stored and the last event is its Created; declines without a trace |
| UseCases.WriteUseCases.RevisePath | internal/application/usecases/revise_path.go:27-63 | likewise; success leaves the four submitted fields stored, with an Updated of them published, or nothing touched exactly when all four were already there |
| UseCases.WriteUseCases.DeactivatePath | internal/application/usecases/deactivate_path.go:24-47 | likewise; success leaves the path retired, with a Deactivated published, or nothing touched when it already was |
| UseCases.WriteUseCases.ValidateEligiblePathIds | internal/application/usecases/cpt_schedule.go:83-101 | accepts exactly when every id in the union of the cutoffs' path ids is Active, and writes nothing |
| UseCases.WriteUseCases.DefineCPTSchedule | internal/application/usecases/cpt_schedule.go:33-77 | carries out exactly the decision: path check first, then define or wholesale replace; success leaves the submitted timezone and exactly the submitted cutoffs stored, with a CPTScheduleChanged published, or nothing touched exactly when both were already so |
| UseCases.KeyedRequestIsAtomic | internal/adapters/inbound/http/idempotency.go:54-72 | a use case under the middleware's transaction: commit installs its change whole, over what others committed meanwhile, if and only if it succeeded with one; rollback installs nothing |
| KeyedRequests.KeyRowsAndChangesGoTogether | internal/adapters/inbound/http/idempotency.go:224-258 | in every run of both machines a key has a committed row exactly when one request of it ran to its commit; what that handler saved is committed with its rows, what any other ended request's handler saved is not |
| KeyedRequests.ServiceRunsAsBefore | internal/adapters/outbound/postgres/unit_of_work.go:64-92 | the joint machine leaves out no run of the outbox: without requests its own transactions and relays go as before |
| KeyedRequests.ProtocolRunsAsBefore | internal/adapters/inbound/http/idempotency.go:41-133 | nor any run of the key protocol: with handlers that save nothing it goes as before |
| KeyedRequests.KeyedDefinitionCommits | internal/adapters/inbound/http/idempotency.go:224-258 | a run in which a keyed definition commits its key row, its one run and its change with a row on every topic |
| ProcessPaths.ProcessPath.Define | internal/domain/processpath/process_path.go:102-121 | succeeds exactly on a nonempty id, a nonempty lower-case prefix, some capability, a known role and a positive cycle time, with status Active and both timestamps now; each refusal by its first failing rule |
| ProcessPaths.ProcessPath.Revise | internal/domain/processpath/process_path.go:149-166 | the first failing rule with no change, or exactly the four submitted fields replaced, `changed` exactly when one of them differed |
| ProcessPaths.ProcessPath.Deactivate | internal/domain/processpath/process_path.go:173-179 | retires an active path and leaves a retired one untouched, its timestamp included |
| ProcessPaths.CapabilitiesEqual | internal/domain/processpath/process_path.go:228-238 | true exactly on equal lists |
| CptSchedules.NewCutoff | internal/domain/cptschedule/cpt_schedule.go:67-98 | the first failing rule, each spelled out, or the cutoff |
| CptSchedules.IsValidLocalTime | internal/domain/cptschedule/cpt_schedule.go:114-124 | true exactly on the 1440 readings of a clock from 00:00 to 23:59 |
| CptSchedules.ParseDigits | internal/domain/cptschedule/cpt_schedule.go:126-135 | the decimal value, or a fault exactly when some character is no digit |
| CptSchedules.Validate | internal/domain/cptschedule/cpt_schedule.go:224-242 | the first failing rule; duplicate cptIds exactly when two cutoffs share one |
| CptSchedules.CutoffsEqual | internal/domain/cptschedule/cpt_schedule.go:244-258 | true exactly on equal cutoff lists |
| CptSchedules.CptSchedule.Define | internal/domain/cptschedule/cpt_schedule.go:155-166 | a new schedule, or the first failing rule |
| CptSchedules.CptSchedule.Revise | internal/domain/cptschedule/cpt_schedule.go:187-198 | wholesale replacement, `changed` exactly when timezone or cutoffs differ; a fault changes nothing |
| CptSchedules.CptSchedule.AllEligiblePathIds | internal/domain/cptschedule/cpt_schedule.go:209-222 | exactly the union of the cutoffs' path ids, ascending and without repeats |
| CptSchedules.ByCptIdFixes | internal/adapters/outbound/postgres/cpt_schedule_repo.go:83-88 | ordering by cptId changes a schedule exactly when it was not in that order, and never twice |
| PathStore.ProcessPathRepo.Save | internal/adapters/outbound/postgres/process_path_repo.go:35-48 | after the upsert a load sees the path at column precision, an existing row's direct, role and createdAt kept, other paths untouched; an undeclared role is NULL, the cycle time whole microseconds |
| PathStore.ProcessPathRepo.FindByID | internal/adapters/outbound/postgres/process_path_repo.go:50-57 | the row as `scanProcessPath` rebuilds it, or none |
| PathStore.IntervalToDuration | internal/adapters/outbound/postgres/process_path_repo.go:179-187 | microseconds, 24-hour days and 30-day months, summed modulo 2^64; exact and without overflow for the values the service writes |
| PathStore.DurationRoundTrip | internal/adapters/outbound/postgres/process_path_repo.go:165-187 | any 64-bit duration loses less than a microsecond toward zero, overflows nowhere, and loses nothing the second time |
| PathStore.SaveAndReload | internal/adapters/outbound/postgres/process_path_repo.go:94-125 | every other field survives; a second round trip is exact |
| PathStore.RevisionAfterReload | internal/domain/processpath/process_path.go:156-159 | after a reload the identical revision reports no change exactly for whole microseconds |
| ScheduleStore.CPTScheduleRepo.Save | internal/adapters/outbound/postgres/cpt_schedule_repo.go:33-64 | delete and reinsert leave exactly the new cutoffs, other sites untouched; it fails, changing nothing, exactly on repeated cptIds |
| ScheduleStore.CPTScheduleRepo.FindBySiteID | internal/adapters/outbound/postgres/cpt_schedule_repo.go:66-114 | the saved schedule with cutoffs in cptId order, or an error exactly when some stored cutoff is malformed |
| ScheduleStore.ScheduleRoundTrip | internal/adapters/outbound/postgres/cpt_schedule_repo.go:47-113 | the same cutoffs sorted by cptId, exact when they were already sorted, a fixed point afterwards |
| Idempotency.AtMostOnceApplied | internal/adapters/inbound/http/idempotency.go:30-72 | at most one handler run per key has committed writes; a key without a row and a run that panicked left none |
| Idempotency.ReplayAlwaysFindsAnOutcome | internal/adapters/inbound/http/idempotency.go:153-204 | every committed row has its outcome and its run, so replay's missing-row and null-status branches are never taken |
| Idempotency.EveryAnswerIsTheStoredOne | internal/adapters/inbound/http/idempotency.go:153-204 | every answer but an infrastructure error or a panic is 400, the one stored response, or 422 for another hash |
| Idempotency.StoredForEver | internal/adapters/inbound/http/idempotency.go:147-152 | a stored response and a committed run never change again |
| Idempotency.WaiterTakesOver | internal/adapters/inbound/http/idempotency.go:54-72 | a waiter blocks until its predecessor ends; after a rollback it is the fresh request, after a commit it replays |
| Idempotency.StepKeeps | internal/adapters/inbound/http/idempotency.go:108-130 | every step of every request keeps the protocol's invariant |
| Middleware.IdempotencyMiddleware.RequireIdempotencyKey | internal/adapters/inbound/http/idempotency.go:73-133 | others go on while its insert waits; a key committed by then is answered without a run, otherwise run, key and response commit together or not at all; nothing fails when the store does not and the key is free |
| Middleware.IdempotencyMiddleware.ReplayCachedResponse | internal/adapters/inbound/http/idempotency.go:153-204 | the stored response to its own hash, 422 to another, and no write |
| Middleware.IdempotencyMiddleware.RunFreshRequest | internal/adapters/inbound/http/idempotency.go:214-272 | the response is sent only once it is committed with the handler's writes; panic, poisoned update and failed commit leave nothing |
| Middleware.CopyHeaders | internal/adapters/inbound/http/idempotency.go:263-269 | every recorded value of every header is added, in order, after what was there |
| Analytics.CountersCountFirstDeliveries | internal/adapters/outbound/analyticsstore/memory_store.go:44-94 | after any deliveries each counter is the number of distinct events whose first delivery had that kind and day |
| Analytics.ColumnsCountFirstDeliveries | internal/adapters/outbound/analyticsstore/memory_store.go:79-94 | a row's three columns are the numbers of distinct events first delivered on that day as created, updated and deactivated |
| Analytics.CountersSumToProcessed | internal/adapters/outbound/analyticsstore/memory_store.go:58-66 | over all days the counters sum to the size of the processed set |
| Analytics.QueryCountsEvents | internal/adapters/outbound/analyticsstore/memory_store.go:96-111 | summing a query's rows counts the distinct events with From <= time < To, both rounded up to whole days; exact for day-aligned bounds |
| Analytics.ProjectionIgnoresOrderAndRepeats | internal/adapters/outbound/analyticsstore/memory_store.go:17-20 | neither order nor repetition of deliveries shows in the stores |
| AnalyticsStores.MemoryStore.Mutate | internal/adapters/outbound/analyticsstore/memory_store.go:44-94 | holds the projection of all deliveries so far; a duplicate changes nothing |
| AnalyticsStores.MemoryStore.ApplyProcessPathCreated | internal/adapters/outbound/analyticsstore/memory_store.go:80-83 | a new event adds one to the day's paths defined, a known one nothing; no other column or day moves |
| AnalyticsStores.MemoryStore.ApplyProcessPathUpdated | internal/adapters/outbound/analyticsstore/memory_store.go:85-88 | likewise for paths revised |
| AnalyticsStores.MemoryStore.ApplyProcessPathDeactivated | internal/adapters/outbound/analyticsstore/memory_store.go:90-94 | likewise for paths deactivated |
| AnalyticsStores.MemoryStore.Query | internal/adapters/outbound/analyticsstore/memory_store.go:98-111 | exactly the rows of the days in range, once each, and what their counters sum to |
| AnalyticsStores.PostgresProjection.Apply | internal/adapters/outbound/analyticsstore/postgres_projection.go:46-95 | holds the projection of the committed deliveries; an error means all of this one or none of it |
| AnalyticsStores.PostgresProjection.ApplyProcessPathCreated | internal/adapters/outbound/analyticsstore/postgres_projection.go:81-84 | the same on the tables, whole or, with an error, possibly not at all |
| AnalyticsStores.PostgresProjection.ApplyProcessPathUpdated | internal/adapters/outbound/analyticsstore/postgres_projection.go:86-89 | likewise for paths revised |
| AnalyticsStores.PostgresProjection.ApplyProcessPathDeactivated | internal/adapters/outbound/analyticsstore/postgres_projection.go:91-95 | likewise for paths deactivated |
| AnalyticsStores.PostgresProjection.UpsertRollup | internal/adapters/outbound/analyticsstore/postgres_projection.go:97-114 | the day's row is its old counters, or zeroes, plus the delta; other days are untouched |
| AnalyticsStores.FormsAgree | internal/adapters/outbound/analyticsstore/memory_store.go:1-6 | after the same deliveries, in any order and repeated any number of times on either side, both forms hold the same rows and ids |
| AnalyticsStores.RedeliveryChangesNothing | internal/adapters/outbound/analyticsstore/postgres_projection.go:14-20 | applying an event again, as after a lost acknowledgement, changes nothing |
| AnalyticsStores.ConsumedEventsRepo.MarkProcessed | internal/adapters/outbound/analyticsstore/consumed_events_repo.go:23-33 | new exactly when the id was absent; an error may hide that it was recorded |
| Consumer.Reachable | internal/adapters/inbound/kafka/analytics_consumer.go:224-277 | every state of every run: each mark is settled, in hand or stranded; everything passed is settled or stranded; applied implies marked |
| ConsumerTheorems.NothingCountedTwice | internal/adapters/outbound/analyticsstore/postgres_projection.go:30-79 | in every run each event is counted at most once, through redelivery, retries and lost acknowledgements |
| ConsumerTheorems.MarkedIsAccountedFor | internal/adapters/inbound/kafka/analytics_consumer.go:12-28 | a marked event is applied, dead-lettered, in hand, or stranded |
| ConsumerTheorems.BehindTheOffset | internal/adapters/inbound/kafka/analytics_consumer.go:158-165 | behind the committed offset junk is dead-lettered and a projecting event is missing exactly when stranded |
| ConsumerTheorems.StrandedIffStep | internal/adapters/inbound/kafka/analytics_consumer.go:236-249 | an event is stranded if and only if some step ended its handling between mark and apply or dead-letter write, or a retried mark met its own unacknowledged record |
| ConsumerTheorems.LostIffStranded | internal/adapters/inbound/kafka/analytics_consumer.go:224-277 | an event behind the offset is lost if and only if such a step occurred and no dead-letter copy exists; without one it is counted once or dead-lettered |
| ConsumerTheorems.StrandedForEver | internal/adapters/inbound/kafka/analytics_consumer.go:242-244 | a stranded event is never applied afterwards |
| ConsumerTheorems.CrashAfterMarkLosesTheEvent | internal/adapters/inbound/kafka/analytics_consumer.go:265-271 | a run with one crash that loses an event behind the committed offset |
| ConsumerTheorems.UnacknowledgedMarkLosesTheEvent | internal/adapters/inbound/kafka/analytics_consumer.go:279-293 | a run without a crash that loses an event behind the committed offset |
| ConsumerLoop.AnalyticsConsumer.HandleFetchedMessage | internal/adapters/inbound/kafka/analytics_consumer.go:254-277 | touches its own event only; success has the offset behind the message and the message accounted for; with healthy stores a new event is applied exactly once and nothing else moves |
| ConsumerLoop.AnalyticsConsumer.MarkProcessedWithRetry | internal/adapters/inbound/kafka/analytics_consumer.go:285-293 | at most three attempts; new, not new, or given up, and only after three failures or a cancelled wait, and what the gate then holds |
| ConsumerLoop.AnalyticsConsumer.ApplyProjectionWithRetry | internal/adapters/inbound/kafka/analytics_consumer.go:301-305 | at most three applies of this event and of no other; success means at least one committed, giving up that three failed or a wait was cancelled |
| ConsumerLoop.AnalyticsConsumer.WriteDLQ | internal/adapters/inbound/kafka/analytics_consumer.go:434-447 | at most forty attempts while the topic is not ready, at most one copy; success means one copy |
| ConsumerLoop.AnalyticsConsumer.DeadLetterAndCommit | internal/adapters/inbound/kafka/analytics_consumer.go:322-330 | the offset moves only behind a written copy |
| ConsumerLoop.AnalyticsConsumer.Commit | internal/adapters/inbound/kafka/analytics_consumer.go:357-359 | moves the offset behind the message, or stops the loop |
| ConsumerLoop.AnalyticsConsumer.Run | internal/adapters/inbound/kafka/analytics_consumer.go:166-179 | keeps the invariant while messages arrive and fetches fail, and stops only on a failure; with healthy stores it passes every message that was there and strands nothing |
| EndToEnd.RollupCountsCommittedEvents | internal/adapters/inbound/kafka/analytics_consumer.go:87-89 | outbox drained and topic consumed: each counter is the number of committed events of that kind and day but those never applied, each of them stranded or dead-lettered |
| EndToEnd.RowCountsCommittedEvents | internal/adapters/inbound/kafka/analytics_consumer.go:400-414 | column by column: drained and consumed, a day's row is the numbers of its committed Created, Updated and Deactivated events but those never applied, each of them stranded or dead-lettered; never more at any moment; schedule events count nowhere |
| EndToEnd.StreamGrows | internal/adapters/outbound/postgres/outbox_publisher.go:53-66 | what the consumer reads grows at its end as the topic does, by analytics messages only |
| EndToEnd.NothingUncommittedIsCounted | internal/adapters/inbound/kafka/analytics_consumer.go:87-89 | at every moment no counter exceeds the committed events of its kind and day |

## Left out

- HTTP routing, DTO mapping, problem documents, CORS, logging, telemetry, readiness: plumbing and tables.
- JSON and CloudEvents encoding, UUID minting, SHA-256: an encoder is a total function, fresh ids are distinct, a hash is an arbitrary value.
- kafka-go, pgx and the backoff library: only the effect and outcome of each call; no timing, jitter or partition balancing. The consumer is one process at a time on one partition.
- Unicode lower-casing, IANA zones and the database collation: arbitrary predicates and an arbitrary total order.
- Freshness lag: clock reads with a clamp over two precisions.
- The direct-publish and in-memory configurations, which have no unit of work: the model is of the Postgres wiring.
- The ON CONFLICT clause of the outbox insert: event ids are distinct, so it never applies.
- `pgx.ErrTxClosed` on a relay commit: the pass opens its own transaction and nobody else closes it.
- The listing queries, the reports API, the MCP server, migrations, charts and the web UI: easy members or I/O.
- The message key's partition: a topic is one sequence, and order is claimed per aggregate only.
- The response body and header of a panic: the outer recoverer answers it.
- `method` and `path` columns of an idempotency row: the code stores them and compares only the body hash.
- A relay batch size of zero: `Run` would publish nothing; `OutboxRelay.Run` requires a positive one.
- History variables: `ordinal`, `loaded`, `history`, `acked`, `runs`, `saved`, `marked` and `stranded` are not in the code; `history` only serves to say, by `version`, which committed value a load saw, and no decision reads the others.
- UseCases.WriteUseCases.DefinePath: others act between the load and the unit of work; between the unit's own statements interleaving is the machine's, not the method's, and the path lookups of a schedule see one state where a `Save` step allows any set of active paths. So for the other use cases, and for the statements of one relay pass, of one keyed handler and of one message's handling.
- Idempotency keys and the outbox in `KeyedRequests`: a handler returns only when its use case has, with nothing saved, all rows inserted or an error met; a crash of the process is the end of each of its transactions.
- CptSchedules.IsValidLocalTime: a string is a sequence of characters where the source counts bytes; the two accept the same strings, all of them ASCII.
- Aliasing of returned slices: the accessors copy, and a sequence is a value.
