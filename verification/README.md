# Scrape-queue coordination, modelled and proved

The scraper keeps its work in two tables: the queue (`scrape_queue`) and the registry of player URLs
(`tbl_player_urls`). A producer peeks at PENDING jobs without locking them and fills a bounded buffer; workers take
references from it, claim the rows, navigate, and commit a success, a failure or a release. A shared rate-limit gate
stops navigation and reopens through a recovery task that can be cancelled or superseded. This project models that
protocol, the transactions over the two tables, the loops that drain them, and the data transformations around them,
and proves what they keep over every run.

## Layout

| file | models |
|---|---|
| `tally.dfy` | sums over sequences |
| `tables.dfy`, `queue_ops.dfy` | the two tables, their keys, and what each operation does to them, as functions |
| `queue_repository.dfy` | the repositories, statement by statement, proved against those functions |
| `lifecycle.dfy` | runs of operations and transactions over the tables |
| `transitions.dfy` | the same operations as one table: which rows each touches and what it changes in them |
| `lock_protocol.dfy` | concurrent failure, recovery, success, claim and release transactions with row locks |
| `gate.dfy` | the rate-limit gate and its recovery tasks |
| `dispatch.dfy` | the candidate buffer |
| `buffered_run.dfy` | tables, buffer, producer, gate and N workers as one state machine |
| `worker_loop.dfy` | what a worker does with a job from claim to end, and its effect on the gate |
| `conservation.dfy`, `navigation_bound.dfy`, `shutdown.dfy` | further properties of its runs |
| `job_loop.dfy`, `startup_drain.dfy` | the two draining loops |
| `city_migration.dfy`, `country_migration.dfy` | migrations p18a and p10b |
| `player_discovery.dfy`, `profile_url.dfy` | bulk insert, profile URLs |
| `lookup_table.dfy`, `position_cache.dfy`, `job_processor.dfy` | lookup tables, the position cache in one job, key resolution |
| `shared_cache.dfy` | the position cache as several jobs in flight share it |
| `pick.dfy` | ORDER BY ... LIMIT |

Objects that the program updates in place (repositories, gate, buffer, job loop, processor, migrated tables) are
classes whose methods are proved against functions of the old state. Interleavings are runs of a step function: one
step is what happens between two awaits, or one committed transaction.

## Assumptions

- One process at a time works on the player_info queue. It may crash at any step; the next one begins by recovering
  stale rows (`Reboot`).
- A database call that raises has committed nothing, and a statement that fails in the database makes every later
  statement of its transaction fail.
- A worker completes a job that it holds: `BufferedRun.SingleOwner` proves that the row is then IN_PROGRESS and locked,
  which is what the unlocked read of the success transaction relies on (`LockProtocol.AnUnheldCompletion`).
- URLs are unique in the registry, (url, job_type) is unique in the queue, and each player_info queue row is linked
  to the registry row with its URL. These hold initially and every transaction is proved to keep them.
- A registry row without a queue row has `retry_count` 0 initially; this is kept too.
- The retry ceiling is at least 1, and the database clock does not run backwards.
- A cancelled task ends, without running further, the next time it is resumed.
- Page loads, parsing and probes have any outcome; they are chosen by the environment.

## What turned out not to hold as promised

Each of these is stated with the exact condition under which the code does what it promises, and with an input that
shows the failing side.

- The bulk `recover_failed` resets only the queue half of a pair: queue and registry stay in step exactly when it has
  no FAILED row to reset (`Lifecycle.BulkRecoverKeepsPairIffNothingFailed`, `Lifecycle.BulkRecoverBreaksAPair`).
- Failing or re-marking a row without looking at its status breaks the timestamp rule exactly when the row is already
  finished and does not end up finished again (`Lifecycle.StampsKept`, `Lifecycle.FailingADoneJobBreaksStamps`).
- A rate-limit signal is lost exactly while the gate is closed and its recovery has been asked to cancel but has not
  ended (`Gate.SignalDroppedIff`, `Gate.ASignalIsLost`).
- The position cache survives a rollback: it still agrees with the tables exactly when the rolled-back job had no
  position code that was new (`LookupTable.RollbackKeepsCacheIff`, `PositionCache.ANewCodeRolledBack`). With several
  jobs in flight, a cached id is committed exactly when the transaction that inserted it is over and was not rolled
  back (`SharedCache.CachedIsCommittedIff`); an entry that was rolled back stays, and every later job that needs it
  can only roll back (`SharedCache.PoisonedJobsNeverCommit`, `SharedCache.APoisonedCode`).
- Cached and uncached position resolution name the same positions, but the numbers agree exactly when no code is new
  after a cached one, since an upsert of a known code uses up a sequence value (`PositionCache.SameSerialsIff`,
  `PositionCache.ANewCodeAfterARepeat`).
- A slug that contains "-Stats-" or ends in "-Stats" does not survive the profile URL, and an id is read back as it
  stands in the link, which is the stored, lower-cased id only for lower-case links (`ProfileUrl.NameRoundTripIff`,
  `ProfileUrl.UncleanSlugs`, `ProfileUrl.IdRoundTrip`, `ProfileUrl.AnUpperCaseId`).
- On a page with a repeated player id, the player row comes from the first occurrence and the registry row carries the
  URL of the last (`PlayerDiscovery.APlayerListedTwice`). The insert into the registry is called best-effort in the
  source; that holds for errors raised before the database sees it, while one raised by the database loses the whole
  page (`PlayerDiscovery.DiscoveryStore.BulkEnqueue`).
- Upgrading again after a p18a downgrade loses the cities nobody refers to, and only those
  (`CityMigration.UnreferencedCitiesAreLost`, `CityMigration.ACityWithoutPlayers`).

## Model

| member | source | states |
|---|---|---|
| LockProtocol.Serializable | infrastructure/persistence/repositories/player_info_queue.py:60-263 | for any number of concurrent failure, recovery, success, claim and release transactions and any interleaving of their read, lock, commit and abort steps, the tables equal running the committed ones one after the other in commit order, each exactly once, if jobs are completed by workers that hold them |
| LockProtocol.NoCompletionsNoReads | infrastructure/persistence/repositories/player_info_queue.py:88-263 | without success transactions that proviso is void |
| LockProtocol.CommitMeansApplies | infrastructure/persistence/repositories/player_info_queue.py:98-155 | in any interleaving, a transaction that can commit finds what it demands: a player_info job with no dangling link to fail, a FAILED job with a STALE registry row to recover, a job to complete, a PENDING one to claim, an IN_PROGRESS one to give back |
| LockProtocol.GivingUpMeansNot | infrastructure/persistence/repositories/player_info_queue.py:185-215 | one that ends unaborted without committing does not find it, or is a claim that met a locked row, and changes nothing |
| LockProtocol.LeftAloneCommitsIffApplies | infrastructure/persistence/repositories/player_info_queue.py:185-263 | from any state in which no other transaction holds a lock, however a transaction runs to its end unaborted, it commits iff it finds what it demands |
| LockProtocol.FirstAndAloneCommitsIffApplies | infrastructure/persistence/repositories/player_info_queue.py:185-263 | in particular from the start |
| LockProtocol.LeftAloneFinishes | infrastructure/persistence/repositories/player_info_queue.py:185-263 | and it does run to its end, leaving behind its serial effect or nothing |
| LockProtocol.ClaimNeverWaits | infrastructure/persistence/repositories/scrape_queue.py:88-115 | a claim never waits, and gives up on a row somebody has locked |
| LockProtocol.BlockedIffWaiting | infrastructure/persistence/repositories/player_info_queue.py:98-104 | any other transaction at a lock is blocked iff it has an edge in the waits-for graph |
| LockProtocol.AnUnheldCompletion | infrastructure/persistence/repositories/scrape_queue.py:117-133 | with one that reads its row unlocked before another worker claims it, the tables differ from the committed transactions run in order |
| LockProtocol.RunKeepsInv | infrastructure/persistence/repositories/player_info_queue.py:98-155 | mutual exclusion on both row locks, and every row copy read under a lock is still the stored row, in every reachable state |
| LockProtocol.CommitIsSerial | infrastructure/persistence/repositories/scrape_queue.py:88-133 | what a commit writes from the copies it read earlier is what the whole transaction would write if run alone on the current tables |
| LockProtocol.CommitKeepsReads | infrastructure/persistence/repositories/player_info_queue.py:179-263 | no commit changes what another transaction has read under its locks |
| LockProtocol.OverwrittenMeans | infrastructure/persistence/repositories/scrape_queue.py:126-133 | a completion writes the columns that differ from its unlocked copy and leaves the others as they are by then |
| LockProtocol.WaitsClimb | infrastructure/persistence/repositories/player_info_queue.py:98-104 | along every path of the waits-for graph the number of locks held strictly increases |
| LockProtocol.WaitsForIsAcyclic | infrastructure/persistence/repositories/player_info_queue.py:98-104 | no waits-for path leads back to its start: the fixed lock order excludes deadlock |
| LockProtocol.SomeoneCanStep | infrastructure/persistence/repositories/player_info_queue.py:158-263 | while a transaction is unfinished, some transaction can read, lock or commit without aborting |
| LockProtocol.AllFinishWithinFourStepsEach | infrastructure/persistence/repositories/player_info_queue.py:88-263 | every run of n transactions ends within 4n steps |
| Lifecycle.PairKept | infrastructure/persistence/repositories/player_info_queue.py:145-263 | each committed transaction keeps keys, links and the agreement of queue and registry rows |
| Lifecycle.PairAlways | scripts/scrape_player_info.py:619-668 | over every run of transactions: FAILED iff STALE, equal retry counts until DONE, DONE implies ACTIVE with count 0, FAILED implies an exhausted budget |
| Lifecycle.ScheduleTarget | scripts/scrape_player_info.py:904-921 | the row that ON CONFLICT finds is the job the outer join saw: none for an unqueued URL, otherwise a DONE one |
| Lifecycle.BulkRecoverKeepsPairIffNothingFailed | infrastructure/persistence/repositories/scrape_queue.py:175-196 | the bulk reset keeps queue and registry in step if and only if no row is FAILED |
| Lifecycle.BulkRecoverBreaksAPair | infrastructure/persistence/repositories/scrape_queue.py:175-196 | tables in step that the bulk reset puts out of step |
| Lifecycle.StampsKept | infrastructure/persistence/repositories/scrape_queue.py:45-220 | after any operation, `locked_at` is set iff IN_PROGRESS and `completed_at` iff DONE or FAILED, if and only if the operation did not revive a finished row |
| Lifecycle.FailingADoneJobBreaksStamps | infrastructure/persistence/repositories/scrape_queue.py:369-410 | tables whose timestamps follow the status until a DONE job is failed below the ceiling |
| Lifecycle.StampsAlways | infrastructure/persistence/repositories/scrape_queue.py:313-410 | the same over every run of such operations |
| Lifecycle.BudgetAlways | infrastructure/persistence/repositories/scrape_queue.py:313-410 | over every run of claims, marks, releases, recoveries, schedulings and failures, whichever repository commits them: `retry_count` is the number of failures, and FAILED means it reached the ceiling |
| Lifecycle.FailedOnExactlyTheLastFailure | infrastructure/persistence/repositories/scrape_queue.py:313-410 | a job activated with `retry_count` 0 is FAILED iff it has failed exactly `max_queue_retries` times, and it cannot fail more often |
| Lifecycle.AJobLoopRowFails | infrastructure/persistence/repositories/scrape_queue.py:313-410 | a row of another job type, marked and failed twice by the job loop's repository, is such a run |
| Transitions.QueueTable | infrastructure/persistence/repositories/scrape_queue.py:45-410 | for every operation: the queue rows it touches, by the conditions of its statement, and every column it changes in them |
| Transitions.RegistryTable | infrastructure/persistence/repositories/backend_urls.py:109-202 | the same for the registry |
| Transitions.NewRows | scripts/scrape_player_info.py:900-924 | only scheduling creates rows, one at most, PENDING with a clean counter |
| Transitions.OutcomeTable | infrastructure/persistence/repositories/player_info_queue.py:185-220 | a failure is skipped for a missing or foreign job and rejected for a dangling registry link |
| Transitions.NothingInProgressAfterRecovery | infrastructure/persistence/repositories/scrape_queue.py:150-173 | after stale recovery no row of the type is IN_PROGRESS; those that were are PENDING and unlocked with every other column as before; nothing else changes and a second recovery finds nothing |
| Transitions.FailedRowsCounted | infrastructure/persistence/repositories/scrape_queue.py:175-196 | the bulk reset counts the FAILED rows of its type |
| QueueRepository.QueueStore.PeekPendingIds | infrastructure/persistence/repositories/scrape_queue.py:67-86 | the lowest ids of the PENDING rows of the type, in order, up to the limit |
| QueueRepository.QueueStore.ClaimNext | infrastructure/persistence/repositories/scrape_queue.py:45-65 | claims the lowest PENDING id that nobody has locked, or nothing iff there is none |
| QueueRepository.QueueStore.ClaimById | infrastructure/persistence/repositories/scrape_queue.py:88-115 | claims iff the row is unlocked, PENDING and of the type; otherwise changes nothing |
| QueueRepository.QueueStore.ReleaseToPending | infrastructure/persistence/repositories/player_info_queue.py:60-85 | true iff the row was IN_PROGRESS; retry count untouched |
| QueueRepository.QueueStore.MarkDone | infrastructure/persistence/repositories/scrape_queue.py:126-133 | the row is DONE with its completion time and unlocked; a missing id is an error and changes nothing |
| QueueRepository.QueueStore.MarkFailedForever | infrastructure/persistence/repositories/scrape_queue.py:135-148 | the generic failure policy requeues without a ceiling |
| QueueRepository.QueueStore.MarkFailed | infrastructure/persistence/repositories/player_info_queue.py:42-58 | first coding of the retry ceiling, equal to the common one |
| QueueRepository.QueueStore.MarkJobFailed | infrastructure/persistence/repositories/scrape_queue.py:369-410 | second coding of the retry ceiling, equal to the common one |
| QueueRepository.QueueStore.RecordJobFailure | infrastructure/persistence/repositories/player_info_queue.py:158-263 | third coding of the ceiling; both rows written together, skipped for a missing or foreign job, rejected with nothing changed for a missing registry row |
| QueueRepository.QueueStore.RecoverFailedJob | infrastructure/persistence/repositories/player_info_queue.py:88-155 | both rows reset iff the job is a FAILED player_info job with a STALE registry row; each error condition exactly, with nothing changed |
| QueueRepository.QueueStore.RecoverAllStale | infrastructure/persistence/repositories/scrape_queue.py:150-173 | no row of the type is IN_PROGRESS afterwards, and the count is the number that were |
| QueueRepository.QueueStore.RecoverFailed | infrastructure/persistence/repositories/scrape_queue.py:175-196 | every FAILED row of the type is reset, with the count; the registry is untouched |
| QueueRepository.QueueStore.RecoverStale | infrastructure/persistence/repositories/scrape_queue.py:198-220 | only rows locked before the cutoff are released |
| QueueRepository.QueueStore.MarkScraped | infrastructure/persistence/repositories/backend_urls.py:109-145 | ACTIVE, clean counter, next scrape one cadence later |
| QueueRepository.QueueStore.RecoverStaleUrl | infrastructure/persistence/repositories/backend_urls.py:186-202 | resets the row iff it is STALE |
| QueueRepository.QueueStore.CommitSuccess | scripts/scrape_player_info.py:619-668 | job and registry row change in one transaction |
| QueueRepository.QueueStore.RecordFailureWithRetry | scripts/scrape_player_info.py:128-170 | the failure is recorded exactly once, at the first attempt that does not raise, or not at all |
| Gate.RunKeepsInv | infrastructure/browser/gate.py:74-199 | in every reachable state an uncancelled recovery is the current one and the gate is closed; each task's probes and sleeps follow its phase |
| Gate.OneRecovery | infrastructure/browser/gate.py:74-103 | at most one recovery without a cancel request, and none while the gate is open |
| Gate.WhoOpens | infrastructure/browser/gate.py:105-193 | a closed gate opens iff an engine proves ready or the current, uncancelled recovery ends its cooldown without a probe or gets a good probe |
| Gate.RecoveryIsBounded | infrastructure/browser/gate.py:105-169 | at most `max_probe_attempts` probes and cooldown + (max - 1) * min(cooldown, 300) seconds of sleep requested |
| Gate.SleepsExactly | infrastructure/browser/gate.py:105-169 | a recovery that ended by itself after n probes has requested exactly cooldown + (n - 1) * min(cooldown, 300) seconds |
| Gate.ProbesAreSpaced | infrastructure/browser/gate.py:113-161 | at its n-th probe it has requested exactly the cooldown and n - 1 back-offs |
| Gate.GivesUpAfterAllProbes | infrastructure/browser/gate.py:121-169 | a recovery that ends by itself with the gate closed has made all its probes |
| Gate.SignalCloses | infrastructure/browser/gate.py:74-103 | a signal closes the gate with its reason and starts a recovery with its probe, or does nothing if the gate is closed and its recovery has not ended |
| Gate.CancelStopsRecovery | infrastructure/browser/gate.py:171-199 | cancel, shutdown and engine-ready leave no recovery that is not asked to cancel; only engine-ready opens |
| Gate.CancelledJustEnds | infrastructure/browser/gate.py:166-169 | a cancelled task changes nothing but its own end |
| Gate.WhyStuck | infrastructure/browser/gate.py:160-199 | a closed gate with no recovery was stranded by one identifiable step (exhausted probes, `cancel_recovery`, `shutdown`) and has been stuck since |
| Gate.SignalDroppedIff | infrastructure/browser/gate.py:74-103 | a signal leaves the gate without recovery iff it arrives while closed with a cancelled but unfinished recovery |
| Gate.ASignalIsLost | infrastructure/browser/gate.py:74-103 | a run of two steps after which it does |
| Gate.RateLimitGate.SignalRateLimit | infrastructure/browser/gate.py:74-103 | the object does the step of the machine |
| Gate.RateLimitGate.CancelRecovery | infrastructure/browser/gate.py:171-181 | only requests the cancel, and only of a running recovery |
| Gate.RateLimitGate.MarkEngineReady | infrastructure/browser/gate.py:183-193 | cancels and opens |
| Gate.RateLimitGate.ResumeTask | infrastructure/browser/gate.py:105-169 | one await-to-await part of any recovery task, whatever has happened since its last, is the step of the machine |
| Gate.RateLimitGate.RunRecovery | infrastructure/browser/gate.py:105-169 | the coroutine left alone is a run of such steps; it reopens iff it has no probe or one of its probes succeeds, and stops at the first that does |
| Dispatch.BufferAlways | infrastructure/browser/dispatch.py:48-125 | under any interleaving of puts, gets, abort and close: `_seen` is exactly queued ids plus ids reserved by blocked puts, no id queued twice, references bounded by `maxsize` and before every sentinel |
| Dispatch.PutBeginKeepsInv | infrastructure/browser/dispatch.py:78-95 | a put up to its first sleep keeps that invariant, and a put that blocks reserves an id nobody else waits for |
| Dispatch.PutResumeKeepsInv | infrastructure/browser/dispatch.py:95-107 | so does a put that wakes, whether it is admitted, blocks again or gives its reservation back |
| Dispatch.GetKeepsInv | infrastructure/browser/dispatch.py:109-116 | so does a get; a sentinel comes out only when no reference is left |
| Dispatch.PutOutcomes | infrastructure/browser/dispatch.py:88-107 | a put is accepted iff the buffer is open, the id neither queued nor reserved, and there is room; refused iff closed; already present iff open and queued or reserved |
| Dispatch.CallsEnabled | infrastructure/browser/dispatch.py:69-125 | any call can be made at any time, except that `get` waits for an item |
| Dispatch.FirstInFirstOut | infrastructure/browser/dispatch.py:78-116 | over every run, the ids queued at the start and then those accepted, in order, are those taken out and then those still queued |
| Dispatch.SentinelsAccounted | infrastructure/browser/dispatch.py:109-125 | every sentinel sent is taken once or still queued |
| Dispatch.WaitingStep | infrastructure/browser/dispatch.py:92-107 | an id is reserved exactly while its put waits for room; only abort and close close the buffer |
| Dispatch.BoundedCandidateBuffer.BeginPut | infrastructure/browser/dispatch.py:78-107 | the object does the step of the machine, with its outcome |
| Dispatch.BoundedCandidateBuffer.ResumePut | infrastructure/browser/dispatch.py:95-107 | likewise after each sleep |
| Dispatch.BoundedCandidateBuffer.GetNext | infrastructure/browser/dispatch.py:109-116 | first in, first out; the id may be offered again |
| Dispatch.BoundedCandidateBuffer.AbortBuffer | infrastructure/browser/dispatch.py:69-76 | closes without touching the queue |
| Dispatch.BoundedCandidateBuffer.CloseBuffer | infrastructure/browser/dispatch.py:121-125 | closed, n more sentinels, the same references |
| BufferedRun.StepIsTransaction | scripts/scrape_player_info.py:540-758 | every step of the running system changes the tables by at most one committed transaction |
| BufferedRun.OwnershipKept | scripts/scrape_player_info.py:559-596 | each step keeps single ownership: held jobs are IN_PROGRESS and held once |
| BufferedRun.TablesAlways | scripts/scrape_player_info.py:455-758 | pair agreement, timestamps and ownership over every interleaving, crashes included |
| BufferedRun.SingleOwner | infrastructure/persistence/repositories/scrape_queue.py:88-115 | however references are duplicated, stale or raced for, no two workers hold the same job, and its row is IN_PROGRESS and locked |
| WorkerLoop.TraceAlways | scripts/scrape_player_info.py:559-758 | over every run, a worker's place in the loop agrees with what can be seen since its claim: the gate at its first step, navigations, faults |
| WorkerLoop.NavigatesOnlyIfOpen | scripts/scrape_player_info.py:581-609 | a worker begins a navigation only for a job it holds, if the gate was open at its first step after the claim, and at most three for one claim |
| WorkerLoop.ReleasesOnlyIfClosed | scripts/scrape_player_info.py:581-597 | it gives a job back with its retry count unchanged only if the gate was closed then, before any navigation |
| WorkerLoop.HowAJobLeaves | scripts/scrape_player_info.py:581-758 | a held job leaves its worker only by that worker's step: completed (one navigation more than soft faults), failed once more (three soft faults or a hard one), given back (gate closed at the check), or left to a raise; with the gate open at the check it is never given back |
| WorkerLoop.EngineAfterFailure | scripts/scrape_player_info.py:676-758 | after a recorded failure the worker keeps its engine iff the fault was unexpected |
| WorkerLoop.ClaimedIsHeld | scripts/scrape_player_info.py:565-579 | the worker that claims a row holds it, and nobody held it before |
| WorkerLoop.WorkerChoices | scripts/scrape_player_info.py:540-758 | exactly what can happen to a worker at each place of its loop: the gate checks wait for an open gate, `get` for an item, a navigation for a fetch slot; faults and raises can come where the source meets them |
| WorkerLoop.WithoutAJob | scripts/scrape_player_info.py:550-579 | a claim succeeds iff its row is unlocked, PENDING and player_info; after a claim in vain, a release or a success the worker starts over at the gate, after a raise with a new engine |
| WorkerLoop.WithAJob | scripts/scrape_player_info.py:581-758 | an open gate at the check leads on, a closed one to the release; the first two soft faults lead to another try at the gate, the third and any hard fault to the recording, which is tried three times |
| WorkerLoop.OthersUnmoved | scripts/scrape_player_info.py:540-758 | a worker's step leaves the other workers, the producer and the clock alone, and its own navigations count the ones it begins |
| WorkerLoop.WorkersOnTheGate | scripts/scrape_player_info.py:486-538 | workers touch the gate in three ways only: a rate limit closes it, an engine that comes up opens it, one that fails to start cancels its recovery |
| WorkerLoop.GateAlways | infrastructure/browser/gate.py:74-199 | the gate's invariant holds over every run of the whole system |
| WorkerLoop.RebootRecovers | scripts/scrape_player_info.py:960-972 | a new process begins with no player_info job IN_PROGRESS and with everything else in the tables as it was |
| WorkerLoop.RebootResets | scripts/scrape_player_info.py:960-1106 | and with an open gate, an empty open buffer and nobody at work |
| NavigationBound.DebtIsConstant | scripts/scrape_player_info.py:603-609 | while the gate is closed, each worker's navigations begun plus its place past the check is constant |
| NavigationBound.NavigationsAfterClosing | infrastructure/browser/gate.py:68-72 | after closing, a worker begins at most one more navigation, exactly if it was past the check, and all together at most as many as were past it |
| Conservation.AllCount | scripts/scrape_player_info.py:619-673 | over every run without a crash, the workers' counters together grow by exactly the number of queue rows that went from not DONE to DONE |
| Conservation.EachCounts | scripts/scrape_player_info.py:619-673 | and each worker's counter by the number that its own steps made DONE |
| Conservation.CountersSinceBoot | scripts/scrape_player_info.py:670-673 | so from boot the counters add up to the transitions to DONE committed by this process |
| Conservation.CadenceRespected | scripts/scrape_player_info.py:906-920 | over every run, crashes included, the event of a URL that follows a completion is an activation, no sooner than the completion's time plus the URL's cadence_hours |
| Conservation.StepCompletes | scripts/scrape_player_info.py:663-672 | the rows a step makes DONE are none, or exactly the job whose holder's success step it is |
| Conservation.HistoryAlways | scripts/scrape_player_info.py:906-920 | a URL whose last event is a completion has a DONE job and is due one cadence after it |
| Conservation.DueIsACadenceLater | infrastructure/persistence/repositories/backend_urls.py:130-141 | a success step logs a completion of the URL of the row it makes DONE, and the registry then holds the commit time plus that URL's cadence |
| Shutdown.BufferAlways | infrastructure/browser/dispatch.py:171-217 | over every run: the buffer invariant, the producer's counts, the fetch slots, and after the producer's end at least one sentinel per unfinished worker |
| Shutdown.BackOffMeansAllPresent | infrastructure/browser/dispatch.py:188-204 | the producer backs off after a batch only if every id of it was already present |
| Shutdown.ProducerFinishesIff | infrastructure/browser/dispatch.py:180-217 | the producer finishes iff it finds itself stopped, fails, or finds no PENDING player_info job and an empty buffer |
| Shutdown.ProducerMoves | infrastructure/browser/dispatch.py:183-212 | it peeks only with the gate open, goes through its batch unless stopped, and sleeps after a batch without news or an empty look |
| Shutdown.ProducerChoices | infrastructure/browser/dispatch.py:180-217 | exactly what the producer can do at each place of its loop |
| Shutdown.ProducerCanStep | infrastructure/browser/dispatch.py:180-217 | until it has finished, the producer can step unless it waits for the gate |
| Shutdown.TheRestIsFree | scripts/scrape_player_info.py:960-1106 | crashes, stops, recoveries, due schedulings, the clock and the gate's tasks are not held up by anything |
| Shutdown.AcceptedIsHandedOut | infrastructure/browser/dispatch.py:78-116 | over every run without a crash, the ids queued at the start and then those the producer counts as accepted are those handed to workers and then those still queued, in order |
| Shutdown.WorkerAtTheBuffer | scripts/scrape_player_info.py:550-562 | past the gate a worker waits for a reference, or exits iff the buffer is closed and empty; it takes the head of the queue |
| Shutdown.NothingLeftBehind | scripts/scrape_player_info.py:550-562 | once a worker has exited, the buffer is closed and holds no reference, for good |
| Shutdown.EverythingHandedOut | scripts/scrape_player_info.py:550-562 | so from boot, once a worker has exited, the references handed out are exactly those accepted |
| Shutdown.TwoNavigateAtMost | scripts/scrape_player_info.py:990-990 | navigations under way and free fetch slots are two together, at any time |
| Shutdown.NoGetBlocks | infrastructure/browser/dispatch.py:109-125 | after the producer's end no worker waits in `get()` on an empty queue |
| Shutdown.RefsGoOutInOrder | infrastructure/browser/dispatch.py:109-125 | the remaining references are taken once each, in order, before any sentinel |
| Shutdown.DrainIsBounded | scripts/scrape_player_info.py:550-758 | after the producer's end the workers take a bounded number of steps besides failing engine starts; restarts and retries are included |
| Shutdown.ShutdownIsBounded | scripts/scrape_player_info.py:455-538 | the same from boot, whatever ended the producer: an empty queue, a stop with abort, or an exception |
| Shutdown.SomeWorkerCanStep | scripts/scrape_player_info.py:550-562 | while a worker is unfinished and the gate is open, some worker can step |
| JobLoop.InterleavingIrrelevant | infrastructure/jobs/job_loop.py:164-183 | however the coroutines of a batch interleave, each commit at its own time, the rows and the provenance come out the same |
| JobLoop.BatchIsLighter | infrastructure/jobs/job_loop.py:138-183 | a batch lowers the sum over PENDING rows of max(1, max_queue_retries - retry_count) by at least the number of its rows whose IN_PROGRESS mark is committed |
| JobLoop.BatchMeans | infrastructure/jobs/job_loop.py:240-299 | what becomes of each row of a batch, column by column, for each outcome |
| JobLoop.NothingBegins | infrastructure/jobs/job_loop.py:240-247 | a batch in which no mark is committed changes nothing, so that the next iteration finds it again |
| JobLoop.BatchCompletions | infrastructure/jobs/job_loop.py:215-299 | the DONE rows gained are exactly the rows of the batch that succeeded |
| JobLoop.FlatIsSchedule | infrastructure/jobs/job_loop.py:164-183 | the one-by-one execution the class performs is one of those interleavings |
| JobLoop.JobLoop.ListPending | infrastructure/persistence/repositories/scrape_queue.py:239-260 | the lowest PENDING ids that nobody has locked, up to the limit |
| JobLoop.JobLoop.Process | infrastructure/jobs/job_loop.py:215-299 | one row through its two commits, with its provenance; a vanished row, or one whose mark fails, is left alone |
| JobLoop.JobLoop.RunBatch | infrastructure/jobs/job_loop.py:164-183 | what a batch does to the table, with no reference to an order |
| JobLoop.JobLoop.Drain | infrastructure/jobs/job_loop.py:138-162 | with every mark committed it terminates; the result is at most the initial measure minus what is left; unstopped, no PENDING row is left that others have not locked; SUCCESS provenance rows added are exactly the rows moved to DONE |
| StartupDrain.SchedulableIsIdle | scripts/scrape_player_info.py:906-913 | the join condition means: a profile URL that is not STALE and whose job is absent or DONE |
| StartupDrain.DueMeans | scripts/scrape_player_info.py:906-913 | due is: a profile URL, not STALE, its time come, no unfinished player_info job linked to it |
| StartupDrain.PickedPrecede | scripts/scrape_player_info.py:910-911 | every picked row precedes every due row that is not picked, and the next picked, by (priority, next_scrape_at, id) |
| StartupDrain.ScheduledMeans | scripts/scrape_player_info.py:900-921 | a scheduled job is PENDING with a clean counter, no error and no times, under its URL |
| StartupDrain.EnqueueSetsOneLife | scripts/scrape_player_info.py:900-924 | one selected row: exactly its own URL's job changes, jobs that were not DONE are untouched, queue and registry stay in step |
| StartupDrain.DrainProgress | scripts/scrape_player_info.py:893-933 | batches are disjoint, add up, and strictly lower the number of idle rows |
| StartupDrain.SelectDue | scripts/scrape_player_info.py:904-914 | the due rows in order of priority, due time and id, up to the limit |
| StartupDrain.DrainBatch | scripts/scrape_player_info.py:896-926 | every selected row is returned; nothing is returned only if nothing is due |
| StartupDrain.Drain | scripts/scrape_player_info.py:878-935 | terminates for every batch size, returns the number of registry rows due and idle at the start, schedules exactly those, leaves none due and every job that was not DONE untouched |
| StartupDrain.DrainTwice | scripts/scrape_player_info.py:893-933 | an immediate second drain returns 0 |
| StartupDrain.DrainBoth | scripts/scrape_player_info.py:878-935 | two drains of equal tables, with any batch sizes and clocks that last looked at the same time, return the same number and leave every URL's job in the same state |
| CityMigration.RoundTrip | infrastructure/persistence/migrations/versions/p18a_create_tbl_cities_normalize_player_info_city.py:89-125 | downgrade after upgrade restores every player's city name, NULLs included |
| CityMigration.KeyIsTheCity | infrastructure/persistence/migrations/versions/p18a_create_tbl_cities_normalize_player_info_city.py:18-86 | between them a non-NULL key refers to exactly one city, the one with the old name |
| CityMigration.UnreferencedCitiesAreLost | infrastructure/persistence/migrations/versions/p18a_create_tbl_cities_normalize_player_info_city.py:18-125 | upgrade after downgrade restores the city names if and only if no city was unreferenced |
| CityMigration.ACityWithoutPlayers | infrastructure/persistence/migrations/versions/p18a_create_tbl_cities_normalize_player_info_city.py:18-125 | a city that is lost |
| CityMigration.InsertDistinct | infrastructure/persistence/migrations/versions/p18a_create_tbl_cities_normalize_player_info_city.py:18-86 | each name in use once, under distinct ids |
| CityMigration.PlayerInfoTable.Upgrade | infrastructure/persistence/migrations/versions/p18a_create_tbl_cities_normalize_player_info_city.py:18-86 | the result is the normalised form of the old column |
| CityMigration.PlayerInfoTable.Downgrade | infrastructure/persistence/migrations/versions/p18a_create_tbl_cities_normalize_player_info_city.py:89-125 | every name is the referenced city's, NULL otherwise |
| CityMigration.PlayerInfoTable.UpgradeThenDowngrade | infrastructure/persistence/migrations/versions/p18a_create_tbl_cities_normalize_player_info_city.py:18-125 | the column is the old column again |
| CountryMigration.RekeyKeepsRelation | infrastructure/persistence/migrations/versions/p10b_refactor_country_pk.py:59-158 | re-keying through a join keeps which flag belongs to which country, and its uniqueness |
| CountryMigration.UniqueFkIsOneFlagEach | infrastructure/persistence/migrations/versions/p10b_refactor_country_pk.py:59-158 | the unique constraint on the foreign key means one flag a country |
| CountryMigration.FillThrough | infrastructure/persistence/migrations/versions/p10b_refactor_country_pk.py:52-91 | filling the new key column through the join never leaves a NULL, and no flag changes country |
| CountryMigration.CountrySchema.Upgrade | infrastructure/persistence/migrations/versions/p10b_refactor_country_pk.py:43-158 | from a schema with its constraints it always succeeds, its check for flags without a country never fires, and no flag changes country |
| CountryMigration.CountrySchema.Downgrade | infrastructure/persistence/migrations/versions/p10b_refactor_country_pk.py:161-271 | succeeds iff the drawn UUIDs are distinct; then no flag changes country |
| CountryMigration.CountrySchema.UpThenDown | infrastructure/persistence/migrations/versions/p10b_refactor_country_pk.py:43-271 | for any injective UUIDs the relation is the original one |
| PlayerDiscovery.InsertEachIsFirstWins | infrastructure/persistence/repositories/player_discovery.py:57-163 | row-by-row ON CONFLICT DO NOTHING keeps old rows and gives a new key its first row |
| PlayerDiscovery.InsertInParts | infrastructure/persistence/repositories/player_discovery.py:57-163 | inserting in parts is inserting the whole |
| PlayerDiscovery.Chunked | infrastructure/persistence/repositories/player_discovery.py:37-39 | the chunks concatenate to the list, none is empty, all but the last are full |
| PlayerDiscovery.FirstWinsIsUnique | infrastructure/persistence/repositories/player_discovery.py:57-163 | a first-wins insert has one result |
| PlayerDiscovery.InsertedCount | infrastructure/persistence/repositories/player_discovery.py:57-163 | the rows gained are the distinct new keys |
| PlayerDiscovery.PageOutcome | infrastructure/persistence/repositories/player_discovery.py:57-163 | a page, repeated ids or not, is a first-wins insert whose count is the number of distinct new ids |
| PlayerDiscovery.NewPlayerRow | infrastructure/persistence/repositories/player_discovery.py:76-101 | a new id's player row has the columns of its first entry and the page's country |
| PlayerDiscovery.RegistryGetsLastUrl | infrastructure/persistence/repositories/player_discovery.py:74-143 | a new id's registry row has the last URL listed for it, cadence 168, priority 5, and is due at once |
| PlayerDiscovery.APlayerListedTwice | infrastructure/persistence/repositories/player_discovery.py:57-163 | a page whose player row and registry row come from different entries |
| PlayerDiscovery.DiscoveryStore.BulkEnqueue | infrastructure/persistence/repositories/player_discovery.py:57-163 | players and count are those of one insert of the page, for every chunk size; the registry gets the chunks whose insert ran, the whole page if all did; the page fails as a whole iff one of these inserts aborted its transaction |
| PositionCache.CachedAndUncached | core/application/scrape_job_processor.py:155-168 | resolving through the cache and upserting every time leave the same codes in the table, with the cached run behind in the sequence iff it had a hit |
| LookupTable.UpsertMeans | infrastructure/persistence/repositories/player_info.py:41-75 | a known name keeps its id, a new one gets the next of the sequence, and either uses one up |
| PositionCache.CachedIdsName | core/application/scrape_job_processor.py:155-168 | resolving keeps cache and table in agreement, keeps old ids, adds the codes and nothing else, and yields each code's id |
| PositionCache.SameSerialsIff | core/application/scrape_job_processor.py:155-168 | both give the same numbers iff no code is new after a cached one |
| PositionCache.ANewCodeAfterARepeat | core/application/scrape_job_processor.py:155-168 | three slots for which they differ |
| PositionCache.CachingIsUpToRenaming | infrastructure/persistence/repositories/player_info.py:41-75 | either way two ids are equal exactly when their codes are |
| LookupTable.RollbackKeepsCacheIff | core/application/scrape_job_processor.py:161-164 | after a rollback the cache agrees with the table iff it holds only committed codes |
| PositionCache.ANewCodeRolledBack | core/application/scrape_job_processor.py:161-164 | one new code, rolled back, and they no longer agree |
| SharedCache.StartsInv | core/application/scrape_job_processor.py:56-70 | a process that starts with an empty cache starts in order |
| SharedCache.RunKeepsInv | core/application/scrape_job_processor.py:155-168 | over every interleaving of lookups, upserts, commits and rollbacks of several jobs: every id given out is committed, undecided in exactly one open transaction, or lost, and stands for one code |
| SharedCache.MissResolves | core/application/scrape_job_processor.py:155-168 | a code that is not cached gets its committed id, or its own transaction's, or the next of the sequence, which advances in any case; cache and job hold it then |
| SharedCache.HitResolves | core/application/scrape_job_processor.py:161-166 | a cached code costs nothing, and the job refers to what the cache says |
| SharedCache.CommitsItsRows | core/application/scrape_job_processor.py:72-153 | a job all of whose ids are committed or its own can commit, and its rows are committed then |
| SharedCache.RollsBackItsRows | core/application/scrape_job_processor.py:161-164 | a rollback is always possible and leaves table and cache as they were |
| SharedCache.CachedIsCommittedIff | core/application/scrape_job_processor.py:155-168 | a cached id is the committed id of its code iff the transaction that inserted it is over and was not rolled back; it never stands for another code |
| SharedCache.QuietCacheAgreesIff | core/application/scrape_job_processor.py:161-164 | with no transaction open, the cache agrees with the table iff no cached id was rolled back |
| SharedCache.PoisonedForever | core/application/scrape_job_processor.py:161-164 | a rolled-back entry is never replaced once no upsert of its code is under way |
| SharedCache.PoisonedJobsNeverCommit | core/application/scrape_job_processor.py:155-168 | a job that asks for such a code, at any later time, can never commit |
| SharedCache.APoisonedCode | core/application/scrape_job_processor.py:161-164 | four steps of one job that make such an entry |
| JobProcessor.ResolvedRowOk | core/application/scrape_job_processor.py:99-153 | writing a resolved row leaves every key of every row pointing to an existing row |
| JobProcessor.Processor.UpsertPosition | infrastructure/persistence/repositories/player_info.py:41-75 | the id under which the table now holds the code |
| JobProcessor.Processor.UpsertCity | infrastructure/persistence/repositories/player_info.py:171-205 | the id under which the table now holds the name |
| JobProcessor.Processor.UpsertTeamStub | infrastructure/persistence/repositories/player_info.py:207-228 | an existing team is untouched, a missing one gets a stub |
| JobProcessor.Processor.ResolvePositions | core/application/scrape_job_processor.py:155-168 | each slot gets the id that `upsert_position` would return now, and cache and table are those of the cached run |
| JobProcessor.Processor.ResolveCountries | core/application/scrape_job_processor.py:99-138 | names become known country ids or nothing, the citizenship's included |
| JobProcessor.Processor.Process | core/application/scrape_job_processor.py:72-153 | every committed call keeps referential integrity and cache agreement, writes the player's row, photo and citizenship and nobody else's, adds the page's cities, teams and positions and no others, and fails without effect on an empty page |
| JobProcessor.Processor.ProcessAndRollBack | core/application/scrape_job_processor.py:155-168 | a rolled-back call takes its rows back and not its sequence values, and keeps cache agreement iff all its codes were in the table before |
| ProfileUrl.PathOfLink | infrastructure/scraping/players.py:95-101 | from a relative link, or an absolute one with any parameters, query or fragment, the path is what is taken |
| ProfileUrl.BuiltIsJoin | infrastructure/scraping/players.py:102-107 | the URL built from the path is the slash-joined list of its eight parts, with or without a trailing slash |
| ProfileUrl.IdRoundTrip | scripts/scrape_player_info.py:774-787 | the parsed id is the one in the link, relative or absolute, and the stored id iff the link is in lower case |
| ProfileUrl.AnUpperCaseId | infrastructure/scraping/players.py:91-107 | a link whose id is not read back as it is stored |
| ProfileUrl.SlugRoundTripIff | scripts/scrape_player_info.py:761-771 | cutting at the first marker gives the slug back if it is clean and something shorter otherwise |
| ProfileUrl.NameRoundTripIff | scripts/scrape_player_info.py:761-771 | the parsed name is the slug with spaces for hyphens iff the slug neither contains "-Stats-" nor ends in "-Stats" |
| ProfileUrl.UncleanSlugs | scripts/scrape_player_info.py:761-771 | a slug of each kind that does not come back |
| ProfileUrl.JoinHasParts | scripts/scrape_player_info.py:761-787 | a URL joined from slash-free segments is split into them again |
| ProfileUrl.PlainProfileUrl | scripts/scrape_player_info.py:761-787 | of a URL without "all_comps", the id is the segment after "players" and the name the one after that |
| ProfileUrl.ShortProfileUrl | scripts/scrape_player_info.py:761-787 | one that ends with the id, or with "all_comps" after it, has the id and no name |
| ProfileUrl.NoPlayersNoId | scripts/scrape_player_info.py:761-787 | a URL without a segment after "players" is its own id and has no name |
| Pick.TakeFirst | infrastructure/persistence/repositories/scrape_queue.py:67-86 | ORDER BY ... LIMIT: the first k rows, in order |
| Pick.FirstIsUnique | infrastructure/persistence/repositories/scrape_queue.py:67-86 | such a query has one answer |
| Pick.FirstExists | infrastructure/persistence/repositories/scrape_queue.py:67-86 | and it has one |

## Left out

- The producer and the worker loops of buffered mode are step functions on values, not classes: their behaviour is the interleaving, and each step is what runs between two awaits or one committed transaction.
- `step2_done` of the producer: the player_info run passes none, so the queue being empty is all it waits for.
- `CandidateProducer._active`, `task_done`, metrics, labels and logging: they influence nothing modelled.
- A `put` cancelled while it sleeps: its reservation is never given back, so `_seen` then keeps an id that is not queued; the buffer invariant is about puts that are not cancelled.
- Shutdown.DrainIsBounded: failing engine starts are steps of the model but are not counted, because the source repeats them without bound (scripts/scrape_player_info.py:506-526). Termination is a bound on the other steps plus the existence of one while the gate is open; the gate need not reopen, and a worker waiting at a closed gate waits.
- No claim that a worker does not navigate while the gate is closed, nor that no PENDING job is left when the producer stops: the code allows both.
- LockProtocol.Serializable: the bulk recoveries, which run at start-up before any worker, are not among the concurrent transactions, and a completion's `completed_at` is its commit time.
- StartupDrain.EnqueueAll: recursion over the selected rows stands for one INSERT statement, which the database executes row by row.
- JobLoop.JobLoop.Process: whatever follows the IN_PROGRESS commit is one outcome (success, recorded failure, death of the coroutine). The content hash and the fetch settings of provenance rows are not modelled.
- Exclusive claims between several processes running `JobLoop`: the row is marked without a status check, and nothing is claimed.
- SharedCache.PoisonedJobsNeverCommit: a foreign key that fails is noticed at the latest when the job would commit; at which statement the database raises it is left open.
- ProfileUrl.PathOfLink: an absolute link's path is free of `?`, `#` and `;`, which end it. Title-casing of the name is left out.
- JobProcessor.Processor.Process: the columns of the player row that are not keys, and the statistics tables written in the same transaction.
- CountryMigration and CityMigration model tables as columns over fixed rows: constraint names, indexes, views and timestamps are left out.
- The rest of `PlayerListScraper`: fetching with retries, and everything in `parse` that reads HTML.
- Browser start-up, warm-up, back-off timing and the content of probes: outcomes and requested sleeps only.
- HTML parsing, the statistics parsers, the remaining migrations, the pipeline script and the command line.
