# Verification of python_stdx

A Dafny model of the parts of `python_stdx` whose correctness does not show in any single function: the
protocol by which several pods share a task table, the lease protocol of the Redis loading cache, the two
tagged caches, the permits and the shutdown of the Redis client, truncation in UTF-8, and two small languages
(LIKE patterns and blocking Redis commands). `dafny verify dfyconfig.toml` checks everything.

## How it is built

**Task protocol.** `TaskRows.dfy` gives each SQL transaction as a function on a table of rows, with NULL as `None`
and comparisons with NULL false; `SqlTaskStore.dfy` is the store as a class that updates its table in place, tied
to those functions. `TaskProtocol.dfy` is a state machine for any finite set of pods: every transaction, and every
stretch of code between two awaits, is one event, and submissions, scheduled handlers, cleanups, crashes, cancelled
runs, failing store calls and ticks that fail halfway interleave freely under one clock that moves on with every
event. `Runners.dfy` is the code of the two dynamic runners: it keeps its own in-flight map, calls the store's
methods and the executor's retry loop, and awaits arbitrary events of everybody else; map and table are coupled to
the state machine, which the code itself never looks at, so the results about runs are results about this code.
`TaskInvariants.dfy` holds the invariant of all runs, and `RowHistory.dfy` says what each column means in terms of
what happened; the results follow in `Listings.dfy`, `RetentionLaws.dfy`, `LockFencing.dfy`, `LockExclusion.dfy`,
`StrayRows.dfy`, `LockRecovery.dfy`, `TriggeredTasks.dfy`, `OneshotTasks.dfy`, `RerunLimit.dfy` and `CapLimit.dfy`.
Recovery, the cooldown, the local cap and what follows from the order of events hold for all handlers. Ten results,
and what `Runners.dfy` says about the lock after its release, ask for a handler without a schedule;
`ScheduledClash.dfy` shows for each of the ten, by a run that fails, that it holds exactly then. A history variable
counts the acquisitions of each row and remembers recorded starts; no step of the program reads it.

**Caches, client, text.** `LeaseScripts.dfy`, `LoadingCache.dfy`, `LoadingClock.dfy` and `FollowerWait.dfy` are the
loading cache (scripts in place, all interleavings of callers for one key, the same under a clock, the polling
loop); `TaggedRedis.dfy`, `TaggedHits.dfy` and `TaggedMemory.dfy` the tagged caches; `Lifetime.dfy` and
`LifetimeProtocol.dfy` the permits and the close; `Utf8.dfy` and `Truncation.dfy` the truncation over RFC 3629,
sections 3 and 4; `LikePatterns.dfy` and `NamespacedStore.dfy` prefix cleanup over section 8.5 of ISO/IEC 9075-2;
`RedisCommands.dfy` the option parser.

## What the proofs found

Where the code does less than its documentation says, the model follows the code; a lemma gives a run that fails,
and another the exact condition.

- A handler may carry `@schedule` and still be submitted: only `@oneshot` or `@trigger` on top of a schedule is
  rejected (src/python_stdx/scheduler/decorator.py:171-186 and 230-245), and `submit_task` takes any registered
  handler. The scheduled runner records and releases by task name and owner, so it also marks, counts and unlocks
  the handler's other rows in the middle of their execution; and it locks the row that has its key, also a
  submitted one, without a look at cap and limit. Fencing, the inertness of overtaken runs, exclusion, the lock of
  a running row that was not broken off, the order of recorded starts, the delivery of triggers, that a served
  trigger is not listed again, the bound on executions, the rows that may never run and the cap of N + K - 1
  therefore hold for a handler if and only if it has no schedule (`ScheduledClash.FencedExactlyWithoutSchedule`,
  `InertExactlyWithoutSchedule`, `ExclusiveExactlyWithoutSchedule`,
  `StrayOnlyByCancellationExactlyWithoutSchedule`, `RunAtGrowsExactlyWithoutSchedule`,
  `TriggersKeptExactlyWithoutSchedule`, `SettledStaysExactlyWithoutSchedule`, `BoundedExactlyWithoutSchedule`,
  `UntouchedExactlyWithoutSchedule`, `CappedExactlyWithoutSchedule`).
- A cancelled run strands its row. `docs/scheduler.md` promises that a row left in a running state becomes eligible
  again after its TTL, and that tasks still running after the grace period are cancelled. The `finally` block of a
  cancelled run, or of one that fails to record, releases the lock, which leaves `status` running with no expiry.
  In every run, and for every handler, an owed row that is due is listed if and only if it is not in that state
  (`StrayRows.RecoverableExactly`), and any one pod that knows the handler then executes it
  (`LockRecovery.OnePodRecovers`); the release of the row while it is marked as running is the only way into that
  state (`StrayRows.StrayArises`), which without a schedule takes a run of that very row that was broken off
  (`StrayRows.CrashedRowsRecover`); and, but for the row that a schedule locks, only an entry that some pod still has
  queued leads out (`LockRecovery.QueuedStrayIsExecuted`, `StrayRows.StrandedForever`).
- The deletion that follows a run has no owner guard. With a retention of zero for its outcome, a run that lost its
  lock deletes the row under its successor; every other step of such a run is without effect
  (`LockFencing.StaleRunsAreInert`, `LockExclusion.DeletedUnderTheSuccessor`).
- A oneshot row can run more often than `max_runs`, because the lock never looks at the status: at most once more
  per pod, and that bound is reached for every limit and every number of pods (`OneshotTasks.BoundedReexecution`,
  `RerunLimit.BoundIsReached`).
- An execution can outlive its lock: the lock lasts one timeout and 60 seconds, an execution may take `max_runs`
  timeouts and its backoffs. Two pods never execute a row at once as long as the other timeouts, the backoffs and
  the overhead fit 60 seconds, and as soon as they do not, two pods can
  (`LockExclusion.ExecutionsNeverOverlap`, `LockExclusion.ExecutionsOverlapOtherwise`).
- The cap of a handler is documented to be exceeded by 1 to K rows on K pods; it is exceeded by at most K - 1, or
  by K if the handler also has a schedule, and that happens (`OneshotTasks.SoftCap`, `CapLimit.SoftCapIsReached`).
- A monitor has no lock, and what holds of the permits depends on what the tasks that share it refrain from. The
  permits in use stay between the blocking executions and the maximum if and only if it is not closed while a task
  enters it - otherwise one permit is given back twice, and more blocking executions than the maximum can run. They
  are conserved if and only if, besides, no two tasks enter it at once; and a finished close leaves none in use if
  and only if, besides, it is neither entered nor closed again while it is being closed
  (`LifetimeProtocol.BoundedExactly`, `BlockingOverflows`, `ConservedExactly`, `ClosedExactly`).
- `docs/cache.md` leaves stale entries of the Redis tagged cache to their TTL; in the code a get that finds one deletes
  whatever the key holds by then. That is a current entry exactly if a set has stored one since the get read the stale
  one (`TaggedRedis.DropRemovesCurrentExactly`), and it happens (`TaggedRedis.FreshEntryIsDropped`).
- A lease TTL above the load timeout, which is all that the constructor asks for, does not exclude two loaders. They
  never overlap if and only if the delay between the acquire script and the loader plus the load timeout stays below
  the lease, which is cut to milliseconds (`LoadingClock.NeverTwoLoadersExactly`, `LoadingClock.AcceptedIsNotEnough`).

## Model

| member | source | states |
|---|---|---|
| `SqlTaskStore.TaskStore.ListPending` | src/python_stdx/scheduler/store/sqlalchemy.py:659-704 | the listing query returns exactly the listable rows, oldest first, ties by id |
| `SqlTaskStore.TaskStore.AcquireDynamicTaskLock` | src/python_stdx/scheduler/store/sqlalchemy.py:255-298 | acquires iff the row exists and is unlocked or expired (a missing expiry is expired), writes owner, times and status, and nothing else |
| `SqlTaskStore.TaskStore.ReleaseDynamicTaskLock` | src/python_stdx/scheduler/store/sqlalchemy.py:300-317 | clears the lock columns of a row this pod owns, and only those |
| `SqlTaskStore.TaskStore.RecordDynamicSuccess` | src/python_stdx/scheduler/store/sqlalchemy.py:433-466 | on a row this pod owns: start time, one more run, no failure, success; every other column, those of the lock included, and every other row as before |
| `SqlTaskStore.TaskStore.RecordDynamicFailure` | src/python_stdx/scheduler/store/sqlalchemy.py:468-504 | on a row this pod owns: start time, one more run, failed, and the failure with its message, start and attempt; every other column, those of the lock included, and every other row as before |
| `SqlTaskStore.TaskStore.AcquireNamedLock` | src/python_stdx/scheduler/store/sqlalchemy.py:147-234 | locks the row that has the key of the handler's schedule if it is unlocked or expired, and inserts it, locked, if there is none; keys stay unique |
| `SqlTaskStore.TaskStore.ReleaseNamedLock` | src/python_stdx/scheduler/store/sqlalchemy.py:236-253 | clears the lock columns of every row of that name that this pod owns, of whatever type and key |
| `SqlTaskStore.TaskStore.RecordSuccess` | src/python_stdx/scheduler/store/sqlalchemy.py:360-393 | the same as a success on every row of that name that this pod owns, of whatever type and key |
| `SqlTaskStore.TaskStore.RecordFailure` | src/python_stdx/scheduler/store/sqlalchemy.py:395-431 | the same as a failure on every row of that name that this pod owns, of whatever type and key |
| `SqlTaskStore.TaskStore.Find` | src/python_stdx/scheduler/store/sqlalchemy.py:795-797 | finds the one row, of whatever type, that has the unique key, or there is none |
| `SqlTaskStore.TaskStore.SubmitOneshotTask` | src/python_stdx/scheduler/store/sqlalchemy.py:561-622 | idempotent in (name, biz_name): a oneshot row with the key is returned unchanged, any other row with it is an integrity error, otherwise one pending row is added; keys stay unique |
| `SqlTaskStore.TaskStore.SubmitTriggeredTask` | src/python_stdx/scheduler/store/sqlalchemy.py:757-852 | one row per key: a new pending one, or the existing one with its request refreshed and its status, lock and run_at as they were; keys stay unique |
| `SqlTaskStore.TaskStore.CleanupExpiredOneshotTasks` | src/python_stdx/scheduler/store/sqlalchemy.py:972-1031 | deletes exactly the unlocked finished oneshot rows past the retention of their outcome, and returns how many |
| `SqlTaskStore.TaskStore.CleanupExpiredOneshotTasksByNamePrefix` | src/python_stdx/scheduler/store/sqlalchemy.py:1033-1100 | the same among the names that match the escaped prefix pattern |
| `Runners.OwnRunsSuffice` | src/python_stdx/scheduler/runner/base.py:64-66 | in every reachable state a runner that knows only its own in-flight rows decides as if it knew those of the whole pod |
| `Runners.Runner.LooksFree` | src/python_stdx/scheduler/runner/oneshot.py:63-85 | the tests on registration, the runner's own in-flight map and its local count go on iff the state machine, on the whole pod, does |
| `Runners.Runner.BelowCap` | src/python_stdx/scheduler/runner/oneshot.py:86-93 | the count that the store returns lets the row pass iff the handler has fewer live rows than its cap |
| `Runners.Runner.TryLock` | src/python_stdx/scheduler/runner/oneshot.py:95-119 | the store's lock is taken iff the row is there and free; then, and only then, the row is in the in-flight map; table and map come out as the state machine has them |
| `Runners.Runner.LockOne` | src/python_stdx/scheduler/runner/oneshot.py:62-119 | whatever happens elsewhere at its awaits, a turn takes its row iff the row passes the local tests when looked at, the count when counted and the lock when locked; no later test is made after a failed one |
| `Runners.Runner.Tick` | src/python_stdx/scheduler/runner/triggered.py:51-90 | a tick lists at one instant and then makes the turns of all listed rows in order; it launches exactly the rows whose turns took them, and its history is a run of the state machine |
| `Runners.CalmTickLaunches` | src/python_stdx/scheduler/runner/oneshot.py:57-119 | undisturbed, a tick launches every listed row that was free at the listing if its handler is registered and uncapped and the row is not in flight, and nothing that is unregistered, in flight or locked throughout |
| `Runners.Runner.ExecuteRun` | src/python_stdx/scheduler/executor.py:53-107 | a run succeeds iff some attempt of its retry loop does, is dated to its start, takes at least what its attempts and the backoffs between them take, and ends within n timeouts and the backoffs, or as soon as the event loop lets it |
| `Runners.Runner.RunOne` | src/python_stdx/scheduler/runner/oneshot.py:168-191 | executes, then records under the owner guard unless broken off before; a record that is cancelled after it was committed counts as no success |
| `Runners.Runner.Finalize` | src/python_stdx/scheduler/runner/oneshot.py:139-166 | releases, deletes if the retention of the outcome is zero, and leaves the in-flight map, also when a step fails; unless the release failed the pod does not own the row afterwards, whatever happened meanwhile, if the handler has no schedule |
| `Runners.Runner.RunOneAndFinalize` | src/python_stdx/scheduler/runner/oneshot.py:121-166 | whether it succeeds, fails or is broken off, the task ends not in flight and, unless the release failed or the handler has a schedule, without the lock; undisturbed, the row ends recorded and unlocked, or deleted |
| `Runners.TickerWaits` | src/python_stdx/scheduler/runner/triggered.py:63-90 | nothing that happens elsewhere changes what a pod's ticker has before it |
| `Runners.RunWaits` | src/python_stdx/scheduler/runner/triggered.py:63-90 | nothing but a crash of its pod disturbs a background task; and while it is in flight its pod, if it does not own the row, does not come to own it, unless the handler has a schedule |
| `TaskInvariants.InvAlways` | src/python_stdx/scheduler/store/sqlalchemy.py:255-317 | every run keeps the invariant: owner, expiry and lock time are NULL together; for handlers without a schedule the owner column names a pod exactly while its run is the latest acquisition and unreleased; queues hold distinct rows, no two runs share an acquisition |
| `TaskInvariants.UniqueKeysAlways` | src/python_stdx/scheduler/store/sqlalchemy.py:72-72 | no two rows ever share a (task_name, biz_name) |
| `TaskInvariants.RowStep` | src/python_stdx/scheduler/store/sqlalchemy.py:360-504 | one event changes a row only as a lock, a guarded record, a guarded release or a resubmission does, or as the scheduled runner's lock, record or release by name does |
| `TaskInvariants.RowGone` | src/python_stdx/scheduler/store/sqlalchemy.py:972-1031 | only oneshot rows disappear, by deletion after a run or by cleanup |
| `RowHistory.RowsShowTheirHistory` | src/python_stdx/scheduler/store/sqlalchemy.py:255-504 | in every run and for every handler, each column of each row is what happened: running from a lock to the next record, else success or failed as the last recorded outcome was and pending without one; run_at, count and failure those of the records; owner, times and expiry those of the lock not yet released; the rest that of the last submission, whose request is not before it nor within the cooldown of the last recorded run |
| `RowHistory.LiveExactly` | src/python_stdx/scheduler/store/sqlalchemy.py:718-755 | what counts against a cap are the oneshot rows of the handler that were locked, have not recorded since, and whose lock has not expired |
| `Listings.ListedExactly` | src/python_stdx/scheduler/store/sqlalchemy.py:875-901 | in every run a listing has exactly the rows of its type that are not held under a live lock and have to run: oneshot rows that have not finished and have runs left, triggered rows that are due and whose last recorded run started before the request |
| `Listings.EntriesTellTheirRows` | src/python_stdx/scheduler/store/sqlalchemy.py:680-704 | entries have the handler and timeout of the last submission, 30 seconds for a timeout of zero |
| `Listings.EntriesComeByAge` | src/python_stdx/scheduler/store/sqlalchemy.py:680-704 | entries come by the age of their rows, and by id among rows of one age |
| `Listings.SettledRowsAreNotListed` | src/python_stdx/scheduler/store/sqlalchemy.py:882-891 | without a schedule: once a run that started at or after the request was recorded, nobody lists the row again before the next submission |
| `RetentionLaws.DeletedExactly` | src/python_stdx/scheduler/runner/oneshot.py:139-166 | after a run its row goes iff it is a oneshot row, the deletion does not fail and the retention is zero for what became of the run: success, or failure, cancellation and a lost record |
| `RetentionLaws.CleanedExactly` | src/python_stdx/scheduler/store/sqlalchemy.py:972-1031 | a cleanup takes exactly the unlocked oneshot rows that have finished and whose last recorded run started longer ago than the positive retention for its outcome, and changes no other row |
| `ScheduledClash.FencedExactlyWithoutSchedule` | src/python_stdx/scheduler/store/sqlalchemy.py:236-253 | in all runs the owner guard admits a handler's runs iff they are the latest acquisition, if and only if the handler has no schedule |
| `ScheduledClash.StrayOnlyByCancellationExactlyWithoutSchedule` | src/python_stdx/scheduler/store/sqlalchemy.py:360-431 | in all runs a row that was never broken off is locked whenever it is running, if and only if its handler has no schedule |
| `ScheduledClash.ExclusiveExactlyWithoutSchedule` | src/python_stdx/scheduler/store/sqlalchemy.py:236-253 | in all runs in which retries fit the lock and executions are on time no two pods execute a row of a handler at once, if and only if it has no schedule |
| `ScheduledClash.BoundedExactlyWithoutSchedule` | src/python_stdx/scheduler/store/sqlalchemy.py:147-234 | in all runs a handler's rows run at most max_runs times and once per pod, if and only if it has no schedule: a submission may take the key of the schedule, which then runs it for ever |
| `ScheduledClash.TriggersKeptExactlyWithoutSchedule` | src/python_stdx/scheduler/store/sqlalchemy.py:360-431 | in all runs a triggered row still asks for a run after a submission, or one that started since was recorded for it, if and only if its handler has no schedule |
| `ScheduledClash.InertExactlyWithoutSchedule` | src/python_stdx/scheduler/store/sqlalchemy.py:147-234 | in all runs an overtaken run changes no row, a deletion excepted, if and only if its handler has no schedule: one can take the row back for the run's pod |
| `ScheduledClash.UntouchedExactlyWithoutSchedule` | src/python_stdx/scheduler/store/sqlalchemy.py:147-234 | in all runs a handler's oneshot rows with max_runs of zero or less are never queued, locked or run, if and only if it has no schedule |
| `ScheduledClash.CappedExactlyWithoutSchedule` | src/python_stdx/scheduler/store/sqlalchemy.py:147-234 | in all runs a oneshot handler with cap N, known to all K pods, has at most N + K - 1 live rows, if and only if it has no schedule |
| `ScheduledClash.RunAtGrowsExactlyWithoutSchedule` | src/python_stdx/scheduler/store/sqlalchemy.py:360-431 | in all runs run_at of a handler's rows never decreases, if and only if it has no schedule: one reports an earlier start on a row that its own run has recorded |
| `ScheduledClash.SettledStaysExactlyWithoutSchedule` | src/python_stdx/scheduler/store/sqlalchemy.py:360-431 | in all runs a triggered row for whose request a run has been recorded is not listed before the next submission, if and only if its handler has no schedule |
| `LockFencing.OwnerGuardIsAFencingToken` | src/python_stdx/scheduler/store/sqlalchemy.py:300-317 | in every run, for a handler without a schedule, `WHERE id AND owner` admits a run's write iff the run is the latest acquisition and has not released |
| `LockFencing.AcquisitionTakesOver` | src/python_stdx/scheduler/runner/triggered.py:63-69 | a lock taken from a run in flight is taken by another pod, never by its own, and overtakes that run |
| `LockFencing.StaleRunsAreInert` | src/python_stdx/scheduler/runner/triggered.py:104-124 | for a handler without a schedule, whatever happens in between, no event of an overtaken run changes any row or result, except its unguarded deletion; that one changes the table iff it does not fail, the row exists, is oneshot and its retention is zero |
| `LockExclusion.NeverTwoAtOnce` | src/python_stdx/scheduler/runner/oneshot.py:95-98 | if executions keep to budgets that fit their locks, no two pods ever execute a row of a handler without a schedule at once |
| `LockExclusion.OverlapOtherwise` | src/python_stdx/scheduler/runner/oneshot.py:95-98 | as soon as a budget does not fit, two pods can execute a row at once though both keep to their budgets |
| `LockExclusion.ExecutionFitsTheLock` | src/python_stdx/scheduler/runner/base.py:14-15 | what the retry loop guarantees fits the lock iff the other timeouts, the backoffs and the overhead fit into 60 seconds |
| `LockExclusion.ExecutionsNeverOverlap` | src/python_stdx/scheduler/executor.py:53-107 | if they fit, and executions start within the overhead and take no longer than the retry loop guarantees, no two pods ever execute a row of a handler without a schedule at once |
| `LockExclusion.ExecutionsOverlapOtherwise` | src/python_stdx/scheduler/executor.py:53-107 | if they do not fit, some run has two pods execute a row at once though both executions keep to what the retry loop guarantees |
| `LockExclusion.DeletedUnderTheSuccessor` | src/python_stdx/scheduler/store/sqlalchemy.py:706-716 | for either outcome, with a retention of zero for it, some run from the start ends with the row deleted by a run that lost its lock, while its successor executes it |
| `Executor.Execute` | src/python_stdx/scheduler/executor.py:53-107 | succeeds iff some attempt does, reports the first that does or the error of the last, dates the run to its start, and returns exactly when the attempts made and the backoffs between them are over, within n timeouts and the backoffs |
| `Executor.BackoffClosedForms` | src/python_stdx/scheduler/types.py:78-90 | n attempts wait 5(n-1), n(n-1)/2 or 2^n - 2 seconds |
| `StrayRows.RecoverableExactly` | src/python_stdx/scheduler/store/sqlalchemy.py:683-693 | in every run and for every handler a row that owes an execution and is due can be locked, and is listed iff it is not running without an owner |
| `StrayRows.StrayArises` | src/python_stdx/scheduler/runner/oneshot.py:134-141 | a row gets into that state exactly by a release while it is marked as running: by the run that holds it or, if its handler has a schedule, by a scheduled run on the pod that holds it |
| `StrayRows.CrashedRowsRecover` | src/python_stdx/scheduler/store/sqlalchemy.py:683-693 | as long as no run of this row was broken off and its handler has no schedule, whatever crashed and whatever happened to other rows, it is locked whenever it is running, and listed and lockable as soon as it is owed and due |
| `StrayRows.CancellationStrands` | src/python_stdx/scheduler/runner/oneshot.py:134-141 | a cancelled run, or one that cannot record, leaves the row it holds running without lock or expiry; stranded unless somebody has it queued or a schedule locks it |
| `StrayRows.StrandedForever` | src/python_stdx/scheduler/store/sqlalchemy.py:882-891 | no later events, resubmissions included, ever list or acquire a row that is stray, queued nowhere and not the one that its handler's schedule locks |
| `LockRecovery.OnePodRecovers` | src/python_stdx/scheduler/runner/oneshot.py:49-119 | an owed row that is due and not stray is executed by any one pod whose last tick is over and that knows the handler, whatever its cap and whatever else is on its list, by events of that pod alone: it finishes its own runs and waits for other locks to expire |
| `LockRecovery.QueuedStrayIsExecuted` | src/python_stdx/scheduler/runner/oneshot.py:62-119 | a stray row is executed by a pod that still has it queued, if the pod knows the handler, does not run the row already and the cap, if any, is at least 1 |
| `TriggeredTasks.NoLostTrigger` | src/python_stdx/scheduler/store/sqlalchemy.py:794-844 | for a handler without a schedule, after a submission, in every continuation, the row still asks for a run no earlier than it, or a recorded execution started at or after it |
| `TriggeredTasks.RunAtNeverDecreases` | src/python_stdx/scheduler/store/sqlalchemy.py:443-465 | for a handler without a schedule run_at never decreases: runs are recorded in the order of their starts |
| `TriggeredTasks.StartsWereRecorded` | src/python_stdx/scheduler/executor.py:61-61 | every start in the history was recorded by an event that passed the owner guard |
| `TriggeredTasks.TriggeredRowRemains` | src/python_stdx/scheduler/store/sqlalchemy.py:780-783 | a triggered row is never deleted, and its last submission never goes back |
| `TriggeredTasks.CooldownCoalesces` | src/python_stdx/scheduler/store/sqlalchemy.py:802-811 | any number of submissions inside the cooldown, until a record or a schedule's report passes the row's guard, ask for one run: not listed before the end of the cooldown, owed until then, settled by exactly the runs that start no earlier |
| `TriggeredTasks.DispatchWaitsForCooldown` | src/python_stdx/scheduler/store/sqlalchemy.py:882-891 | a run from a listing taken after such a submission was listed, and starts, no earlier than the end of the cooldown |
| `TriggeredTasks.StartsAfterItsListing` | src/python_stdx/scheduler/runner/triggered.py:51-90 | a run starts after it was acquired, and that after its listing |
| `OneshotTasks.BoundedReexecution` | src/python_stdx/scheduler/store/sqlalchemy.py:683-693 | for a handler without a schedule, in every run, run_count is at most max_runs (or 0 if negative) plus the number of pods |
| `OneshotTasks.NoRunsWithoutPermission` | src/python_stdx/scheduler/store/sqlalchemy.py:683-693 | a row of a handler without a schedule with max_runs of zero or less is never queued, locked or run |
| `RerunLimit.BoundIsReached` | src/python_stdx/scheduler/store/sqlalchemy.py:262-296 | for every max_runs of at least 1 and every set of pods some run records a row as often as max_runs plus the number of pods |
| `OneshotTasks.SoftCap` | src/python_stdx/scheduler/runner/oneshot.py:73-92 | a handler with cap N on K pods never has more than N + K - 1 live rows, or N + K if it also has a schedule, nor, with or without one, more than N runs in flight on one pod |
| `CapLimit.SoftCapIsReached` | src/python_stdx/scheduler/runner/oneshot.py:73-98 | for every cap N and every set of K pods some run has N + K - 1 live rows, or N + K if the handler also has a schedule |
| `LikePatterns.EscapeIsPerCharacter` | src/python_stdx/scheduler/store/sqlalchemy.py:39-44 | the three replacements in sequence escape character by character |
| `LikePatterns.EscapedParses` | src/python_stdx/scheduler/store/sqlalchemy.py:39-44 | an escaped text read as a pattern stands for its own characters, whatever pattern follows |
| `LikePatterns.PrefixPatternIsExact` | src/python_stdx/scheduler/store/sqlalchemy.py:1045-1054 | the pattern of a prefix matches a name iff the name starts with the prefix |
| `LikePatterns.UnescapedPatternLeaks` | src/python_stdx/scheduler/store/sqlalchemy.py:1045-1045 | without the escape a foreign name can match |
| `NamespacedStore.NamesRoundTrip` | src/python_stdx/scheduler/store/namespaced.py:27-37 | the two name maps are inverse to each other in both directions |
| `NamespacedStore.NamespacesAreDisjoint` | src/python_stdx/scheduler/store/namespaced.py:32-37 | two environments share no stored name iff neither prefix extends the other |
| `NamespacedStore.CleanupStaysInside` | src/python_stdx/scheduler/store/namespaced.py:232-233 | cleanup selects exactly the names that the namespace reads back |
| `NamespacedStore.NamespaceCleanup` | src/python_stdx/scheduler/store/namespaced.py:232-233 | cleanup of a namespace keeps every foreign row and treats its own rows as the plain cleanup does |
| `NamespacedStore.FilterPendingRows` | src/python_stdx/scheduler/store/namespaced.py:39-49 | the loop returns the scoped listing in order |
| `NamespacedStore.ScopedExactly` | src/python_stdx/scheduler/store/namespaced.py:39-49 | a row is in the scoped listing iff its stored form is in the full one |
| `NamespacedStore.ScopeCounts` | src/python_stdx/scheduler/store/namespaced.py:186-194 | the scoped counts are the stored counts under the scoped names; no two stored names merge |
| `LeaseScripts.RedisKeys.EvalAcquireLease` | src/python_stdx/cache/loading/redis.py:19-26 | sets the lease iff there is none or a failure marker |
| `LeaseScripts.RedisKeys.EvalPublishFailure` | src/python_stdx/cache/loading/redis.py:28-34 | replaces the lease iff it is the caller's token |
| `LeaseScripts.RedisKeys.EvalReleaseLease` | src/python_stdx/cache/loading/redis.py:36-41 | removes the lease iff it is the caller's token |
| `LeaseScripts.RedisKeys.EvalPublishValue` | src/python_stdx/cache/loading/redis.py:43-52 | under the caller's token removes the lease and stores the value unless one is present; otherwise changes nothing |
| `LeaseScripts.TokensAreNotFailures` | src/python_stdx/cache/loading/redis.py:16-17 | a token never reads as a failure marker |
| `LoadingCache.LoadsAtMostOnce` | src/python_stdx/cache/loading/redis.py:129-153 | each call runs its loader at most once |
| `LoadingCache.OneOwnerHoldsTheLease` | src/python_stdx/cache/loading/redis.py:129-184 | of two callers past acquisition, loading or not, at most one has its token in the lease |
| `LoadingClock.LoadersExclude` | src/python_stdx/cache/loading/redis.py:155-165 | while the delay and the load timeout stay below the lease, no two loaders that are on time are at work at once |
| `LoadingClock.NeverTwoLoadersExactly` | src/python_stdx/cache/loading/redis.py:102-110 | that holds in all runs iff the delay from the acquire script to the loader plus the load timeout is below the lease in milliseconds |
| `LoadingClock.EnoughMargin` | src/python_stdx/cache/loading/redis.py:104-110 | a lease TTL that exceeds the load timeout by the delay and one millisecond suffices |
| `LoadingClock.AcceptedIsNotEnough` | src/python_stdx/cache/loading/redis.py:104-110 | some settings that the constructor accepts let two loaders overlap even without any delay |
| `LoadingCache.ResultsHaveASource` | src/python_stdx/cache/loading/redis.py:129-184 | a value that a call returns is its own load or was stored by a set or a publication |
| `LoadingCache.StoredValuesWereStored` | src/python_stdx/cache/loading/redis.py:123-127 | every stored value was put there by a set or by a publication of a loaded value |
| `LoadingCache.ExpiredOwnersAreInert` | src/python_stdx/cache/loading/redis.py:155-184 | once its token has left the lease, no event of that owner ever changes lease or value again |
| `LoadingCache.HeldLeasesChangeOnlyByTheirOwner` | src/python_stdx/cache/loading/redis.py:28-52 | a held lease changes only by an event of its owner or by expiry |
| `LoadingCache.PresentValuesSurvive` | src/python_stdx/cache/loading/redis.py:43-52 | a value that a set stored survives every load until a set or its expiry |
| `LoadingCache.PublicationStores` | src/python_stdx/cache/loading/redis.py:43-52 | in every run a publication by the holder of the lease leaves the key without a lease and with a value: its own load, or the value that was there; any other changes nothing; the call returns its load unless the reply is lost |
| `LoadingCache.LoadsAreReused` | src/python_stdx/cache/loading/redis.py:129-153 | until a set or an expiry every later look, and every call that waited, returns the published load without one of its own |
| `LoadingCache.SetsAreReturned` | src/python_stdx/cache/loading/redis.py:123-127 | a set replaces what was there, and until the next set or an expiry every later look returns it |
| `LoadingCache.ClaimIsExact` | src/python_stdx/cache/loading/redis.py:19-26 | a claim takes the lease iff nobody's token is in it; the call is then its owner, otherwise it waits, and with a lost reply it ends with an error either way |
| `LoadingCache.FailuresAreTakenOver` | src/python_stdx/cache/loading/redis.py:28-34 | a failed load leaves its mark in the lease, and the first claim afterwards gets the lease at once |
| `LoadingCache.LeasesAreGivenBack` | src/python_stdx/cache/loading/redis.py:155-184 | a call never ends with its token in the lease, except when it is cancelled before its loader or its cleanup script does not run |
| `LoadingCache.LoadersRunForMissingValues` | src/python_stdx/cache/loading/redis.py:143-151 | a loader starts iff the owner's second look finds nothing |
| `LoadingCache.OnlyWaitersTimeOut` | src/python_stdx/cache/loading/redis.py:149-153 | a call times out iff it gives up waiting for another's lease |
| `LoadingCache.PresentValuesAreReturned` | src/python_stdx/cache/loading/redis.py:132-136 | undisturbed, a call returns a present value at once and leaves the lease alone |
| `LoadingCache.MissingValuesAreLoaded` | src/python_stdx/cache/loading/redis.py:138-147 | undisturbed, a call that finds neither value nor anybody's lease owns the lease and runs its loader |
| `LoadingCache.LoadedValuesAreReturned` | src/python_stdx/cache/loading/redis.py:163-182 | then what the loader returns is stored and returned, and None is returned and not stored; no lease remains |
| `LoadingCache.LateValuesAreReturned` | src/python_stdx/cache/loading/redis.py:143-146 | a value that came between is returned without a load, and no lease remains |
| `LoadingCache.FailedLoadsLeaveTheirMark` | src/python_stdx/cache/loading/redis.py:170-180 | a loader that fails leaves its mark in place of the token, and the call ends with the error |
| `LoadingCache.CancelledLoadsLeaveNoLease` | src/python_stdx/cache/loading/redis.py:170-180 | one that is cancelled leaves no lease |
| `FollowerWait.GetOrLoad` | src/python_stdx/cache/loading/redis.py:129-153 | whatever the answers, at most ceil(wait_timeout / poll_interval) + 1 attempts, polled at least every interval; times out only past the deadline, and not later than its last command and sleep take; loads at most once and only as owner of a missing value, returns what was cached or loaded |
| `TaggedRedis.GetIsValidAtOneInstant` | src/python_stdx/cache/tagged/redis.py:51-68 | a value returned comes from one set of its key, and was stored at one instant during the get at which the namespace and all tags of that set had exactly the generations that the set had read |
| `TaggedRedis.InvalidationIsFinal` | src/python_stdx/cache/tagged/redis.py:90-94 | a get begun after an invalidation or a clear never returns a value whose set had read that counter before |
| `TaggedRedis.DroppedEntriesAreStale` | src/python_stdx/cache/tagged/redis.py:59-67 | a get rejects only entries of which some counter has moved on |
| `TaggedRedis.DropRemovesCurrentExactly` | src/python_stdx/cache/tagged/redis.py:59-67 | in every run the deletion that follows removes a current entry iff the stored entry is no longer the one the get read and is current; it is another one iff a set wrote it since |
| `TaggedRedis.FreshEntryIsDropped` | src/python_stdx/cache/tagged/redis.py:66-67 | some run from the start ends with a fresh entry deleted |
| `TaggedHits.HitExactly` | src/python_stdx/cache/tagged/redis.py:51-68 | in every interleaving a get that has read an entry and is past its comparisons ended in a hit of exactly that entry iff no comparison failed, and in a hit every recorded generation was compared and current when it was |
| `TaggedHits.CurrentEntriesAreReturned` | src/python_stdx/cache/tagged/redis.py:51-68 | a get that finds a current entry, none of whose counters moves before it ends, returns it |
| `TaggedHits.SetThenGet` | src/python_stdx/cache/tagged/redis.py:70-88 | from any state on, what an undisturbed set has stored, with any tags, the undisturbed get that follows returns |
| `TaggedHits.RemovedIsMissed` | src/python_stdx/cache/tagged/redis.py:87-88 | after a delete or expiry no get that begins later returns anything for the key before the next set writes it |
| `TaggedMemory.MemoryTaggedCache.Get` | src/python_stdx/cache/tagged/memory.py:23-25 | the plain map's get: expires, touches and returns |
| `TaggedMemory.MemoryTaggedCache.Set` | src/python_stdx/cache/tagged/memory.py:27-42 | rejects None; otherwise the plain map's set with expiry and eviction of the least recently used key; the indexes stay inverse |
| `TaggedMemory.MemoryTaggedCache.Delete` | src/python_stdx/cache/tagged/memory.py:44-47 | the plain map's delete; the indexes stay inverse |
| `TaggedMemory.MemoryTaggedCache.InvalidateTag` | src/python_stdx/cache/tagged/memory.py:49-53 | removes exactly the live keys that carry the tag in the plain map; the indexes stay inverse |
| `TaggedMemory.MemoryTaggedCache.Clear` | src/python_stdx/cache/tagged/memory.py:55-58 | leaves nothing |
| `TaggedMemory.MemoryTaggedCache.Expire` | src/python_stdx/cache/tagged/memory.py:60-62 | drops exactly the expired keys with their bindings |
| `TaggedMemory.MemoryTaggedCache.RemoveTagBindings` | src/python_stdx/cache/tagged/memory.py:64-71 | forgets one key in both indexes and leaves no empty tag set |
| `TaggedModel.SizeStaysBounded` | src/python_stdx/cache/tagged/memory.py:30-36 | over any sequence of operations the size stays within max_size and the order of use lists exactly the keys present |
| `TaggedModel.ItemsComeFromLatestSet` | src/python_stdx/cache/tagged/memory.py:27-42 | what a key holds comes whole from its latest set: value, tags and expiry |
| `TaggedModel.InvalidationIsExact` | src/python_stdx/cache/tagged/memory.py:49-53 | after any history an invalidation leaves exactly the live keys whose latest set did not carry the tag, unchanged |
| `TaggedModel.GetIsExact` | src/python_stdx/cache/tagged/memory.py:23-25 | after any history a get returns the value of the latest set if the key is there and has not expired, and otherwise nothing; only expired keys go |
| `TaggedModel.DeleteIsExact` | src/python_stdx/cache/tagged/memory.py:44-47 | after any history a delete removes its key, and besides only expired ones |
| `TaggedModel.SetEvictsLeastRecentlyUsed` | src/python_stdx/cache/tagged/memory.py:27-42 | after any history another key goes by a set iff it has expired, or the key is new, the cache is full of live keys, and that one was set or found least recently among them |
| `TaggedModel.SetStoresWhole` | src/python_stdx/cache/tagged/memory.py:27-42 | after any history a set stores value, tags and expiry of its key, and leaves the keys that stay as they were |
| `TaggedModel.ClearedIsEmpty` | src/python_stdx/cache/tagged/memory.py:55-58 | after a clear nothing is left |
| `Lifetime.LifetimeObject.Acquire` | src/python_stdx/redis/_lifetime.py:47-52 | grants a permit iff open and below the maximum; otherwise the right error and no change |
| `Lifetime.LifetimeObject.EnterOperation` | src/python_stdx/redis/_lifetime.py:34-39 | counts the task in, unless closed |
| `Lifetime.LifetimeObject.ExitOperation` | src/python_stdx/redis/_lifetime.py:42-45 | counts the task out, and forgets it at zero |
| `LifetimeProtocol.BaseAlways` | src/python_stdx/redis/_lifetime.py:34-55 | in every interleaving, whatever tasks do to monitors, each task is counted as often as it is inside an operation, and the permits in use are the blocking executions and what was taken for subscriptions and monitors and not given back, within the maximum |
| `LifetimeProtocol.BoundedExactly` | src/python_stdx/redis/_protocols.py:126-168 | the permits in use always lie between the blocking executions and the maximum iff no monitor is closed while a task enters it (or there are no permits) |
| `LifetimeProtocol.ConservedExactly` | src/python_stdx/redis/_protocols.py:126-168 | the permits in use are always the blocking executions, open handles, entries and closes in progress iff, besides, no two tasks enter a monitor at once (or there is one permit) |
| `LifetimeProtocol.ClosingIsTerminal` | src/python_stdx/redis/_lifetime.py:57-62 | once closing has begun, no later events open the client again, grant a permit, start an operation or make a handle |
| `LifetimeProtocol.ClosedExactly` | src/python_stdx/redis/_lifetime.py:64-79 | a finished close leaves no permit in use, no operation open and no resource registered, whatever still happens, iff, besides, no monitor is entered or closed again while it is being closed |
| `LifetimeProtocol.Drained` | src/python_stdx/redis/_lifetime.py:67-73 | under that discipline, once the cancelled tasks are done, no operation is open and every holder of a permit is among the resources to close |
| `LifetimeProtocol.BlockingOverflows` | src/python_stdx/redis/_protocols.py:126-142 | otherwise some run has one blocking execution more at once than there are permits |
| `Utf8.DecodeEncodeOne` | src/python_stdx/text.py:26-26 | the decoder reads an encoded character back, whatever follows |
| `Utf8.EncodeDecodeOne` | src/python_stdx/text.py:26-26 | and accepts nothing but encodings |
| `Utf8.RoundTrip` | src/python_stdx/text.py:61-65 | lossy decoding of an encoded text is that text |
| `Utf8.ContinuationsVanish` | src/python_stdx/text.py:64-65 | what is left of a character cut at its front decodes to nothing |
| `Utf8.FirstBytes` | src/python_stdx/text.py:64-64 | decoding the first n bytes gives the longest beginning that fits into them |
| `Utf8.LastBytes` | src/python_stdx/text.py:65-65 | decoding the last n bytes gives the end that starts where BackStart says |
| `Utf8.BackStartIsLeast` | src/python_stdx/text.py:65-65 | and that is the longest end that fits |
| `Truncation.RejectedExactly` | src/python_stdx/text.py:43-52 | rejected, with the error that says why, iff there is a maximum and an argument is negative or the two given ends alone exceed it; without a maximum the text comes back unchanged |
| `Truncation.TruncationAnatomy` | src/python_stdx/text.py:54-75 | front, removed part and back make up the text; the result is front, replacement and back; both ends are as long as their budgets allow, and a replacement over budget is cut to its longest fitting beginning; the budget of a tail that is not given is that of the head, as far as three units remain |
| `Truncation.TruncationFits` | src/python_stdx/text.py:38-42 | for every replacement function the result keeps within the maximum, and a text that fits comes back unchanged |
| `Truncation.EllipsisIsWholeOrAbsent` | src/python_stdx/text.py:17-26 | the default replacement is a whole ellipsis when one fits, three bytes in UTF-8, and otherwise nothing |
| `Truncation.TruncationIsIdempotent` | src/python_stdx/text.py:29-75 | truncating again changes nothing |
| `RedisCommands.BlockingTimeout` | src/python_stdx/redis/_commands.py:18-56 | the loop computes the timeout of the specification function, whose meaning the following rows give |
| `RedisCommands.ParserInvertsPrinter` | src/python_stdx/redis/_commands.py:31-46 | for every rendered XREAD or XREADGROUP the timeout is that of its first BLOCK option and absent without one, however groups, consumers, counts, keys and ids are spelled |
| `RedisCommands.PopsReadTheirLast` | src/python_stdx/redis/_commands.py:24-26 | a popping or moving command waits as many seconds as its last argument says, whatever its keys are called |
| `RedisCommands.MultiPopsReadTheirFirst` | src/python_stdx/redis/_commands.py:27-28 | BLMPOP and BZMPOP wait as many seconds as their first argument says |
| `RedisCommands.WaitsReadTheirLast` | src/python_stdx/redis/_commands.py:29-30 | WAIT and WAITAOF wait as many milliseconds as their last argument says |
| `RedisCommands.NothingElseBlocks` | src/python_stdx/redis/_commands.py:31-47 | no other command blocks |
| `RedisCommands.SecondsExactly` | src/python_stdx/redis/_commands.py:48-56 | a timeout is a finite number of at least zero, in its unit; anything else is none |
| `RedisCommands.SpelledAlike` | src/python_stdx/redis/_commands.py:14-15 | words are the same command or option iff they differ in the case of letters only |

## Left out

- `RedisTaskStore`; the store's statistics and its cleanup of successful rows by days; and of `ScheduledRunner` everything but its transactions: when a schedule is due, catch-up and jitter. A scheduled release that raises is not modelled either.
- Columns that no decision reads: params, trace ids and `updated_at`. That a dispatch uses the parameters of its listing and not of the last submission is therefore not visible.
- A tick that is cancelled while its lock is being committed: the row then stays locked until its lock expires, as after a crash.
- Cancellation of a background task while it releases or deletes.
- A record that is cancelled while its worker thread goes on, and that commits only after the release, even after the same pod, following a restart of its scheduler, has locked the row again and so passes the owner guard: a cancelled record is committed before the release or never.
- Ties of the wall clock, clocks that differ between pods, and time zones: in the task protocol one clock, later at every event.
- How the database sorts a listing and which index it uses.
- Other names in one transaction: the cluster-wide count is stated per handler, not as one grouped query.
- LockExclusion.ExecutionsNeverOverlap: takes it that executions start within the overhead and take no longer than the retry loop guarantees, so that handlers yield to the event loop; nothing in the code enforces that.
- RerunLimit.BoundIsReached: the run that reaches the bound is that of a handler without a cap; with a retention of zero it has deletions that fail, and so has that of CapLimit.SoftCapIsReached.
- LoadingClock: one clock for Redis and all callers, and a loader stops at its timeout.
- TaggedRedis: a get drops an entry at the first generation that differs, while the source first reads the rest; those reads have no effect.
- LoadingCache: caller events belong to one key; JSON, SHA-256 (taken as injective) and the TTL of values are left out, values expire at any time.
- FollowerWait.GetOrLoad: takes sleeping to last at least as long as asked, and real numbers for floats.
- TaggedMemory: `TTLCache` is a bounded map with expiry and order of last use, and time stands still within one operation.
- LifetimeProtocol: the initiator of a close is not itself inside an operation; the client's pipelines with their WATCH and MULTI state, scripts and scans are left out.
- RedisCommands: how a command string is split into words, how float() reads a word (each token carries its number), upper-casing outside ASCII, and objects whose text spells a keyword.
- Truncation: encodings other than UTF-8, and lone surrogates, which UTF-8 cannot encode.
- LikePatterns: collations that compare letters without case.
- Database sessions, sockets, pools, Sentinel and Cluster discovery, cron schedules, tracing, logging, decorators and the small helpers for iterables, mappings, streams and watchdogs: thin layers, or members that would only be easy.
