# Scale: a verified model of its stateful protocols

Scale queues and runs jobs, ingests files, groups recipes into batches, and drives all of it by command
messages and a clock. This project models the parts whose guarantees are about whole runs and not about
single calls, and proves those guarantees for every run. `dafny verify dfyconfig.toml` checks it.

| module | models |
|---|---|
| `Batches` | concurrent `create_batch_v6` transactions: snapshot query, row lock, recheck, supersede, insert, commit or roll back |
| `Chains` | links of a one-to-one "supersedes" column, shared by batches and jobs |
| `Jobs`, `JobDelivery`, `JobRetry`, `JobLocks`, `JobChains`, `ClusterIds` | the job lifecycle, the reports that drive it, retries of failed executions, its row locks, its supersession chains and its cluster ids |
| `Messaging`, `JobMessages` | the command message loop over an acknowledging broker, and that loop composed with the job lifecycle |
| `Clock`, `DailyMetrics` | the scheduler's firing rule over runs of ticks, and the daily job it feeds |
| `IngestJob` | one ingest over crashed, failed and retried attempts |
| `PlotData`, `IngestStatus`, `ErrorCache` | streaming aggregates and caches against simple definitions of what they stand for |

State machines are total: a step that is not enabled changes nothing. Each class holds the fields its
source object or table holds, and its methods are proved equal to the steps of the state machine, so the
theorems about runs are theorems about sequences of method calls.

What the outside decides is a parameter: clock readings (`Tick`, `when`, `today`), new row ids, the order in
which a query returns rows, the verdict of definition and configuration validation, the result of parsing a
schedule, the outcome of executing a message and how many sends succeed (`Outcome`), and how each storage or
database operation of an ingest goes (`Choice`).

Assumptions taken from the database and the broker:

- A `select_for_update` that had to wait checks its filter again on the row as it is once the lock is free,
  and locks last until the transaction ends. A manager method that holds its rows' locks is one step.
- `superseded_batch` and `superseded_job` are one-to-one columns, (job type, name) is unique among errors, and
  stored outputs are unique per execution and never rewritten.
- `shutil.copy` refuses to copy a file onto itself before it writes anything; only workspaces with local paths use it.
- Different locations are different files: no two workspaces name one directory.
- A message that was taken and not acknowledged goes back to the queue when the connection closes.

Where the code falls short of what one would expect, the code is kept and the exact condition is proved:

- A transaction that waited for a batch that was superseded meanwhile is told that no batch with its root
  exists, although one does (`Batches.LateLock`, and `Batches.LateLockHappens` at one run).
- A schedule of less than an hour that misses its window never fires again (`Clock.ShortScheduleStops`,
  `Clock.HalfHourStops`).
- A running minimum of zero is taken for no minimum, so a plot's minimum is wrong once something follows a zero
  (`PlotData.StreamedMin`, `PlotData.ZeroForgotten`).
- An ingest told to copy a local file onto its own path errs on every attempt and never finishes, with the file
  kept (`IngestJob.SelfCopyNeverFinishes`).
- A move within a workspace is two writes, storage first and the row second: a stop in between leaves the original
  gone and nothing recorded, and every retry fails (`IngestJob.CopySafety`, `IngestJob.StrandedNeverFinishes`).
- An object store moves by copying and deleting, so an object moved onto itself is lost, if the store takes the copy
  (`IngestJob.FileStays`).
- Grouped by data time, hourly counts can sum to less than the totals (`IngestStatus.SumsMatch`,
  `IngestStatus.DataTimeCanFallShort`).
- Saving a new error name twice in one call breaks the unique key (`ErrorCache.SaveSucceeds`,
  `ErrorCache.NewNameTwiceBreaks`).
- A framework id with an underscore makes a cluster id that does not parse back (`ClusterIds.ParsesAlone`,
  `ClusterIds.UnderscoreBreaks`).
- The first daily job is for the day before the processing date, which need not be the event's
  (`DailyMetrics.EveryDayOnce`, `DailyMetrics.LateStartMisses`).

Where the documentation differs from the code, the model follows the code: `get_status` groups by ingest time
when `use_ingest_time` is true, where its description says the reverse.

## Model

| member | source | states |
|---|---|---|
| Batches.SingleLine | scale/batch/models.py:138-156 | In every interleaving of transactions, aborted ones included, the committed batches of one root form one line: each leads back to the root, of any two one leads back to the other, and exactly one is not superseded |
| Batches.OneSuccessor | scale/batch/models.py:448-457 | In every interleaving a batch is superseded exactly when some committed batch names it, and no two name the same one |
| Batches.RowsAreCommits | scale/batch/models.py:138-156 | In every interleaving committed rows and committed transactions correspond one to one, so a rolled back transaction leaves no row |
| Batches.LateLock | scale/batch/models.py:140-144 | When a waiting transaction gets the lock it is refused exactly when its row was superseded while it waited, and its root has a latest batch all the same |
| Batches.LateLockHappens | scale/batch/models.py:140-144 | A concrete interleaving in which a waiter is refused although its root has a latest batch |
| Batches.RunKeeps | scale/batch/models.py:138-156 | Every run keeps the invariant on rows, locks and unsaved ids that the results above rest on |
| Batches.StepKeeps | scale/batch/models.py:138-156 | Every single step of any transaction keeps that invariant |
| Batches.CommitKeeps | scale/batch/models.py:147-156 | Committing one transaction keeps the rows well formed and the rows other transactions hold the latest of their roots |
| Batches.LockKeeps | scale/batch/models.py:425-435 | Taking a lock, or being refused after the recheck, keeps the invariant |
| Batches.AbortKeeps | scale/batch/models.py:138-156 | Rolling back from any point keeps the invariant |
| Batches.SaveKeeps | scale/batch/models.py:152-156 | Saving a new row, not yet visible to others, keeps the invariant |
| Batches.PublishKeeps | scale/batch/models.py:145-156 | Superseding an unsuperseded row and adding its successor keeps every root's line whole, with one latest batch |
| Batches.SoloEffect | scale/batch/models.py:138-156 | A transaction that nothing interleaves with publishes its batch over the row it found, or leaves the table as it was |
| Batches.BatchManager.constructor | scale/batch/models.py:816-819 | The empty table satisfies the invariant |
| Batches.BatchManager.GetLockedBatchFromRoot | scale/batch/models.py:425-435 | Finds an unsuperseded batch of the root, and fails exactly when there is none |
| Batches.BatchManager.SupersedeBatch | scale/batch/models.py:448-457 | Marks that row superseded and changes no other |
| Batches.BatchManager.CreateBatch | scale/batch/models.py:105-168 | Succeeds exactly when validation does and a requested root has a latest batch; a failure changes nothing; otherwise the table is that of the uninterrupted transaction, with the invariant kept |
| Chains.Linear | scale/batch/models.py:818-819 | Rows with one root are on one line |
| Chains.SameRoot | scale/job/models.py:1281-1284 | Rows on one line have one root |
| Chains.TailUnique | scale/batch/models.py:816-819 | A line has at most one row that nothing supersedes |
| Chains.Extend | scale/job/models.py:126-131 | Adding a row that starts a line, or supersedes a row not superseded before, keeps every row's walk ending at its root |
| Jobs.RunKeeps | scale/job/models.py:867-1101 | In every reachable state: PENDING or BLOCKED means never queued; QUEUED, RUNNING, FAILED and COMPLETED mean queued before; queued before means input present; error exactly when FAILED; the end time for COMPLETED and FAILED and otherwise only for a CANCELED job that was queued; an output only for COMPLETED, and it is that of the current execution |
| Jobs.ChangeKeeps | scale/job/models.py:921-1101 | Each guarded status update keeps that relation on its row |
| Jobs.GuardsExact | scale/job/models.py:1315-1389 | In reachable states each of the seven updates is allowed for exactly the jobs of a table by status, whether queued before, input and supersession, although several guards name no statuses |
| Jobs.ChangedDid | scale/job/models.py:921-1101 | Each update writes exactly its status, error, times and counter, and leaves superseded time, input and output alone |
| Jobs.SupersedeMarks | scale/job/models.py:867-876 | Superseding marks exactly the given rows with the time, and changes nothing else |
| Jobs.OutputProcessed | scale/job/models.py:826-829 | Processing gives exactly the completed rows the stored output of their current execution, and changes nothing else |
| Jobs.CreateAdds | scale/job/models.py:84-133 | A new job is PENDING, never queued, and holds the input it was given, if any; other rows stay |
| Jobs.InputSet | scale/job/models.py:834-865 | Setting a job's input replaces that field of that row with what was given |
| Jobs.CounterCounts | scale/job/models.py:1053-1080 | Over any run the execution counter grows by exactly the number of entries to QUEUED |
| Jobs.SupersededFrozen | scale/job/models.py:867-876 | Once superseded, a job stays superseded, never enters the queue again, and its counter is frozen |
| Jobs.CompletedForever | scale/job/models.py:1315-1399 | No run leaves COMPLETED or changes the counter, times, error or collected output of a completed job |
| Jobs.ReadyForever | scale/job/models.py:1583-1590 | A job once ready for its children stays ready, with the output stored for execution `num_exes` |
| Jobs.OutputArrives | scale/job/models.py:811-832 | In any run, a completed job and the first stored output of that execution come together whichever came first and whatever lies between: once processed the job has that output for ever, and is ready for its children exactly when the output is not empty |
| Jobs.Versioned | scale/job/models.py:834-865 | Stored input holds what was given and a version, so it is never empty |
| Jobs.SelectedAll | scale/job/models.py:934-940 | The ids collected before the update query are exactly the given jobs that pass the guard |
| Jobs.JobManager.constructor | scale/job/models.py:1281-1310 | A manager starts from the empty table, where the reachable-state relation holds |
| Jobs.JobManager.Select | scale/job/models.py:934-937 | The loop that collects ids gives the given jobs that pass the guard, in order |
| Jobs.JobManager.UpdateJobs | scale/job/models.py:921-1101 | Updates exactly the given jobs that the table of allowed updates admits, writes each update's own values, returns exactly those ids, and leaves all other rows and fields alone |
| Jobs.JobManager.SupersedeJobs | scale/job/models.py:867-876 | Is the supersede step, keeping the reachable-state relation |
| Jobs.JobManager.ProcessJobOutput | scale/job/models.py:811-832 | Collects stored outputs of completed jobs by their current execution number and returns exactly the ids that have one |
| JobDelivery.AnyOrderAnyRepeat | scale/job/models.py:986-1030 | From QUEUED, any order and repetition of running and agreeing end reports, mixed with reports on other jobs and other executions, leaves FAILED with the report's error and time or COMPLETED with its time, as one in-order delivery does, and a completed job has its stored output |
| JobDelivery.Settled | scale/job/models.py:1333-1351 | After an end report no further report of any execution changes the row's outcome |
| JobDelivery.EndDecides | scale/job/models.py:1382-1389 | While only running reports have come the row stays active; the first end report decides it |
| JobDelivery.DeliverAllCollects | scale/job/messages/completed_jobs.py:170-173 | Over any sequence of reports a completed job has the stored output of its execution |
| JobDelivery.RunningArrives | scale/job/messages/running_jobs.py:143-163 | A running report about the current execution of a queued job makes it RUNNING at the report's time |
| JobDelivery.DeliverRow | scale/job/messages/completed_jobs.py:142-180 | One message changes a row exactly when every job it names exists, the execution number matches and the guard allows it |
| JobDelivery.CurrentExactly | scale/job/messages/running_jobs.py:143-155 | The jobs acted on are exactly those whose execution number matches |
| JobRetry.RequeuedAtMostOnce | scale/queue/messages/queued_jobs.py:126-154 | However often failed reports and requeue messages are repeated, and whatever else happens to the jobs, one execution is requeued at most once |
| JobRetry.RetriedOnce | scale/job/messages/failed_jobs.py:120-187 | From an active execution, over any order and repetition of its running and retried failed reports and the requeue messages they send, the job stays active until a requeue message is delivered and is then queued once for the next execution, untouched by every repeat |
| JobRetry.FailThenRequeue | scale/job/messages/failed_jobs.py:154-181 | A retried failed report of the active execution sends a requeue message, and its delivery queues the next execution |
| JobRetry.FailsForGood | scale/job/messages/failed_jobs.py:154-170 | A failed report that is not retried makes the job FAILED with its cause and time and sends no requeue message for it |
| JobRetry.OtherSteps | scale/job/messages/running_jobs.py:126-168 | Running and completed reports are delivered between retries, and every other step of the jobs may happen |
| JobRetry.TriesBound | scale/job/messages/failed_jobs.py:154-159 | In every run a retry starts no execution beyond the job's tries, unless its job type is long running |
| JobRetry.Chosen | scale/job/messages/failed_jobs.py:147-164 | A failed report retries, or fails, exactly the jobs it names whose execution number matches, that can be failed, and that the decision says |
| JobRetry.QueuesRow | scale/queue/messages/queued_jobs.py:140-153 | A requeue message changes a row exactly when its execution number matches and the job can be requeued |
| JobLocks.LockOrder | scale/job/models.py:624-635 | Rows are locked in ascending order, each once: exactly the ids asked for that exist |
| JobLocks.RunKeeps | scale/job/models.py:624-635 | In every run no two transactions hold one row |
| JobLocks.StepsLock | scale/job/models.py:624-635 | A transaction asks for exactly the existing rows, takes only a free one, and finishes only when it holds them all |
| JobLocks.EndFrees | scale/job/models.py:624-635 | A transaction that ends or is rolled back leaves its rows free |
| JobLocks.NoDeadlock | scale/job/models.py:624-635 | No reachable state has a set of transactions each waiting for a row another of them holds |
| JobLocks.SomeoneCanStep | scale/job/models.py:688-699 | While a transaction is unfinished, some unfinished transaction can lock its next row or finish |
| JobLocks.AllCanFinish | scale/job/models.py:688-699 | From every reachable state all transactions can be brought to their end, within a bounded number of steps |
| JobLocks.StepWorks | scale/job/models.py:688-699 | Each lock taken and each finish uses up work, so no run of them is endless |
| JobLocks.Climbs | scale/job/models.py:634-635 | Whoever holds a row another waits for waits, if at all, for a higher row |
| JobLocks.OppositeOrdersDeadlock | scale/job/models.py:634-635 | The ascending order is needed: with opposite orders two transactions can deadlock |
| JobChains.WalkEndsAtRoot | scale/job/models.py:126-131 | After any run of creations, following `superseded_job` ends at the job the row names as root |
| JobChains.OneLinePerRoot | scale/job/models.py:176-182 | Two jobs name one root exactly when one leads back to the other: chains are linear and those of different roots disjoint |
| JobChains.RunKeeps | scale/job/models.py:1281-1284 | Every run of creations keeps the chain invariant |
| JobChains.CreateAdds | scale/job/models.py:126-133 | A creation that the database accepts adds the row with its superseded job and that job's root, and changes no other |
| ClusterIds.ParsesAlone | scale/job/models.py:2172-2197 | Parsing a cluster id gives it back exactly when the framework id has no underscore |
| ClusterIds.UnderscoreCuts | scale/job/models.py:2183-2184 | With two segments in the framework id, parsing cuts off the job and the execution |
| ClusterIds.UnderscoreBreaks | scale/job/models.py:2172-2197 | For framework "a_b" two different executions are read back as one and the same |
| ClusterIds.ParsesFromTask | scale/job/models.py:2172-2184 | The same for a cluster id followed by an underscore and any suffix |
| ClusterIds.ClusterIdInjective | scale/job/models.py:2186-2197 | For one framework, different (job, execution) pairs have different cluster ids, negative numbers included |
| ClusterIds.ClusterIdIs | scale/job/models.py:2186-2197 | A cluster id is the prefix, the framework, the job and then the execution with their separators, its numbers printed by digits that read back to them |
| ClusterIds.DecimalReads | scale/job/models.py:2197 | A number is printed by the digits that stand for it, without leading zeros |
| ClusterIds.JoinSplit | scale/job/models.py:2183-2184 | Joining the segments of a string gives the string back |
| ClusterIds.SplitJoined | scale/job/models.py:2183-2184 | Splitting two strings joined by an underscore gives their segments in order |
| ClusterIds.Segments | scale/job/models.py:2197 | A cluster id has two segments of prefix, those of the framework id, and one for job and execution |
| Messaging.AckedOnlyWhenDone | scale/messaging/manager.py:62-81 | In every run each acknowledgement directly follows a successful execution of its message and the sends of everything it produced |
| Messaging.NothingLost | scale/messaging/manager.py:119-145 | In every run the messages put or sent are exactly those acknowledged and those still queued, counted with multiplicity |
| Messaging.CompleteIsAcked | scale/messaging/manager.py:68-79 | A message that was executed, whose downstream messages all went out, is acknowledged, and they are at the end of the queue |
| Messaging.RoundForm | scale/messaging/manager.py:49-81 | A round handles the first messages, at most ten, until an exception or a death ends it or the queue is empty; the completed ones are gone, the others are back at the front in their order, and what was sent is at the end |
| Messaging.RoundDelivers | scale/messaging/manager.py:49-81 | When all goes well, up to ten messages are gone after a round and their downstream messages are at the end of the queue |
| Messaging.FailureLogs | scale/messaging/manager.py:119-131 | A message that is not executed to success leaves at most the effect it had |
| Messaging.EnqueueForm | scale/messaging/backends/amqp.py:27-33 | A message put on the queue is at its end |
| Messaging.HandleEarned | scale/messaging/manager.py:119-145 | Handling one message, whatever its outcome, acknowledges it only when earned |
| Messaging.HandleConserves | scale/messaging/backends/amqp.py:35-49 | Handling one message, whatever its outcome, neither loses nor invents a message |
| Messaging.RunConserves | scale/messaging/manager.py:62-81 | Conservation over every run of rounds |
| Messaging.CommandMessageManager.constructor | scale/messaging/manager.py:28-34 | A new manager has an empty queue and log |
| Messaging.CommandMessageManager.ProcessMessage | scale/messaging/manager.py:106-145 | Reports success exactly when execution succeeded and all sends went out; sends that went out before one raised are on the queue |
| Messaging.CommandMessageManager.HandleNext | scale/messaging/manager.py:68-79 | One message taken, processed and possibly acknowledged is one step of the state machine, wherever the process dies |
| Messaging.CommandMessageManager.ReceiveMessages | scale/messaging/manager.py:49-81 | The loop with its break-offs, by an exception or by the process dying at any point up to the acknowledgement, is one round of the state machine and leaves nothing unacknowledged behind |
| JobMessages.AtLeastOnceIsEnough | scale/messaging/manager.py:62-81 | Over any run of the loop with failures, deaths, broken sends and redeliveries, once a job's end report is acknowledged the job ended as after one in-order delivery, with that report's error and time |
| JobMessages.RunCame | scale/messaging/manager.py:119-145 | In every run only messages that were put or sent have an effect |
| JobMessages.AckedWasApplied | scale/messaging/manager.py:119-136 | An acknowledged message's effect was committed |
| Clock.ClosedForm | scale/job/clock.py:132-144 | The rounding-based test holds exactly when the duration is at least an hour and has elapsed, or divides the time since midnight with no more than the duration elapsed |
| Clock.NeverDrifts | scale/job/clock.py:122-144 | With a tick every minute and a duration of whole minutes up to a day, once fired a rule fires at exactly the minutes that are multiples of its duration past midnight |
| Clock.SinceLastEvent | scale/job/clock.py:104-107 | Before each tick the newest event is that of an earlier tick with no due minute in between |
| Clock.NextOnGrid | scale/job/clock.py:134-144 | The decision at one tick, given a last event since which no due minute passed |
| Clock.GridGap | scale/job/clock.py:140-144 | Any stretch as long as the duration holds a due minute, across midnight too |
| Clock.RecoversAfterOutage | scale/job/clock.py:132-138 | After any outage a schedule of an hour or more has fired by the first tick at or past its duration |
| Clock.ShortScheduleStops | scale/job/clock.py:134-144 | A schedule of less than an hour fires again exactly when a tick falls in its window; once missed it never fires again |
| Clock.HalfHourStops | scale/job/clock.py:134-144 | A half-hour schedule that fired at midnight and is next looked at after 31 minutes stays silent on the hour |
| Clock.FirstEvent | scale/job/clock.py:125-130 | A new rule's first event comes at the first tick at or past its duration after midnight, or at once for a day or more, and at no tick before |
| Clock.FiresWithinDay | scale/job/clock.py:125-130 | With a tick every minute a new rule of at most a day fires within the first day |
| Clock.Validated | scale/job/clock.py:87-101 | A rule passes validation only with a registered processor and a positive duration |
| Clock.ValidatedExactly | scale/job/clock.py:87-101 | A rule passes exactly when it has a registered processor, an event type, a schedule and a duration that is not zero, and then with its own duration; the first fault decides the error |
| Clock.Latest | scale/job/clock.py:104 | The newest event, whatever the storage order; none only when there are no events |
| Clock.RulesIndependent | scale/job/clock.py:51-59 | In a tick over many rules each fares as if alone, whichever others fire or fail validation |
| Clock.ClockRunsSchedule | scale/job/clock.py:78-107 | Over any run of the clock over any rules, a sound rule's events are those of its own duration over the ticks at which it was looked at, so the results about schedules are results about the clock; a faulty rule gets none |
| Clock.CallsFollowEvents | scale/job/clock.py:103-107 | Over any run of ticks over any rules, a processor registered once is called with a rule's events in order, each with the one directly before it |
| Clock.StepRulesJoin | scale/job/clock.py:51-59 | Ticks one after another are one longer run of rule checks |
| Clock.InvocationsTo | scale/job/clock.py:164-172 | An event calls a processor as often as it is registered, and for its own rule only |
| Clock.InvocationsAt | scale/job/clock.py:164-172 | An event calls each registered processor once, in the order registered |
| Clock.ClockProcess.constructor | scale/job/clock.py:62-75 | No processors, events or calls at first |
| Clock.ClockProcess.RegisterProcessor | scale/job/clock.py:62-75 | Appends to the name's processors and leaves the other names alone |
| Clock.ClockProcess.TriggerEvent | scale/job/clock.py:147-172 | Adds one event to the rule and appends one call per registered processor, in order, each with the event and the one before it |
| Clock.ClockProcess.CheckRule | scale/job/clock.py:78-107 | Fails exactly for a rule that is not sound, and fires exactly when the schedule of the rule's own duration is due |
| Clock.ClockProcess.PerformTick | scale/job/clock.py:43-59 | A tick is the fold of the single-rule step over the rules, errors not stopping it |
| DailyMetrics.EveryDayOnce | scale/metrics/daily_metrics.py:31-43 | For events in date order, each told of the one before, the days queued are every day from the one before the first event to the one before the last, once each and in order, exactly when every event was processed in full and the first on its own date |
| DailyMetrics.QueuedRange | scale/metrics/daily_metrics.py:31-38 | When every event is processed, consecutive events' days join into the whole range |
| DailyMetrics.QueuedLength | scale/metrics/daily_metrics.py:40-43 | A failed event leaves days missing that no later event makes up for |
| DailyMetrics.LateStartMisses | scale/metrics/daily_metrics.py:35-37 | A first event processed a day late queues the wrong day |
| DailyMetrics.FailureMisses | scale/metrics/daily_metrics.py:31-43 | A failed event's missing days are not made up by the next event |
| DailyMetrics.ClockCoversEveryDay | scale/job/clock.py:147-172 | Over any run of the clock, from the calls it makes to the processor: every day is queued once and in order exactly when each call is processed in full and the first on its event's own date |
| DailyMetrics.DailyMetricsProcessor.constructor | scale/metrics/daily_metrics.py:19-43 | Nothing is queued at first |
| DailyMetrics.DailyMetricsProcessor.ProcessEvent | scale/metrics/daily_metrics.py:31-43 | Queues the days the event calls for, or those before the one that raised |
| IngestJob.ExactlyOnce | scale/ingest/ingest_job.py:27-112 | Over any crashes, errors and retries INGESTED and DUPLICATE are never left, the trigger effect commits once if INGESTED and never otherwise, and DUPLICATE is given only for a file ingested before the first attempt |
| IngestJob.FinalState | scale/ingest/ingest_job.py:38-112 | However an ingest got there, once INGESTED its source file is recorded as not deleted where it was to go, storage is that of one transfer and clean-up with the original gone where it is to be deleted, and the trigger took effect once; once DUPLICATE nothing was touched |
| IngestJob.RunFiles | scale/ingest/ingest_job.py:38-91 | Every run keeps storage at one of the stages of a single transfer, in step with what is recorded |
| IngestJob.CopySafety | scale/ingest/ingest_job.py:38-91 | That a copy of the file can be found at every point of every run, and that the original is gone only once its copy is in storage and recorded as not deleted, both hold exactly when the file is not moved within its workspace, or was already ingested |
| IngestJob.MoveLoses | scale/storage/brokers/host_broker.py:120-127 | An attempt that stops between moving the file and saving its row leaves the original gone and nothing recorded; an object moved onto itself is gone altogether |
| IngestJob.FileStays | scale/storage/brokers/s3_broker.py:192-232 | At every point of every run the file is in storage at its old or its new place, exactly unless an object store is told to move it onto itself |
| IngestJob.RetryFinishes | scale/ingest/ingest_job.py:177-203 | However earlier attempts ended, one attempt without trouble finishes the ingest from where they left off, and ends ERRORED exactly when a local file is to be copied onto itself or an earlier attempt stopped between moving the file and recording it |
| IngestJob.ErrorIsMarked | scale/ingest/ingest_job.py:86-88 | An error during the transfer or the clean-up ends the attempt ERRORED with nothing else changed, and a death leaves all as it was |
| IngestJob.SelfCopyNeverFinishes | scale/storage/brokers/host_broker.py:128-147 | An ingest told to copy a local file onto itself never finishes in any run, commits no trigger effect, and keeps the file |
| IngestJob.StrandedNeverFinishes | scale/storage/brokers/host_broker.py:112-114 | An ingest stopped between moving its file and recording it never finishes, in any run of retries |
| IngestJob.RunOnce | scale/ingest/ingest_job.py:27-112 | Every run keeps the invariant behind exactly-once, and a finished ingest does not change |
| IngestJob.RunCopy | scale/ingest/ingest_job.py:51-84 | Every run of an ingest that does not move its file, or whose file was already ingested, keeps the invariant that ties the original's removal to the recorded copy |
| IngestJob.AttemptIsRun | scale/ingest/ingest_job.py:20-91 | An attempt is the beginning of a run, so what holds over runs holds after any sequence of attempts |
| IngestJob.Job.constructor | scale/ingest/ingest_job.py:127-137 | The job works on the given ingest, source file and storage |
| IngestJob.Job.StartIngest | scale/ingest/ingest_job.py:169-203 | Is the start of an attempt, from the source file's lookup to the saved INGESTING status, or the DUPLICATE verdict |
| IngestJob.Job.TransferFile | scale/ingest/ingest_job.py:38-75 | Is the copy, move or registration, with a stop or an error possible between each write to storage and the save of the row; copying a local file onto itself raises |
| IngestJob.Job.RecordFile | scale/storage/brokers/host_broker.py:125-127 | Is the save that records the file, which may not happen |
| IngestJob.Job.RemoveAndRecord | scale/storage/brokers/s3_broker.py:108-112 | Is the deletion that ends an object store's move, and the save, either of which may not happen |
| IngestJob.Job.PerformIngest | scale/ingest/ingest_job.py:20-91 | Is one whole attempt of the state machine, wherever it stops |
| PlotData.StreamingGroups | scale/metrics/registry.py:292-311 | For entries in date order and no choice filter, streaming gives one value per date that has a value, dates strictly increasing, each made from exactly that date's entries |
| PlotData.PlotValueMeans | scale/metrics/registry.py:295-309 | Each value is the true sum, the floor of the true average, the true maximum exactly when that is not negative, and the true minimum exactly under the condition of StreamedMin |
| PlotData.StreamedMin | scale/metrics/registry.py:302-303 | The streamed minimum is the true one exactly when that is within the sentinel and is not a zero followed by another value |
| PlotData.ZeroForgotten | scale/metrics/registry.py:302-303 | Of 0 and 5 the streamed minimum is 5 |
| PlotData.StreamedMax | scale/metrics/registry.py:304-305 | The streamed maximum is the true one or zero, and the true one exactly when that is not negative |
| PlotData.StreamedAvg | scale/metrics/registry.py:306-307 | The streamed average is the floor of the true average |
| PlotData.StreamedUnknown | scale/metrics/registry.py:308-309 | An unknown aggregate leaves the value at zero |
| PlotData.QuotientIsFloor | scale/metrics/registry.py:306-307 | The integer quotient that the average uses is the floor of the true quotient |
| PlotData.FilteredKeepsEntries | scale/metrics/registry.py:286-290 | With a choice filter each entry with a value keeps it, with its own choice and date, in order |
| PlotData.Bounds | scale/metrics/registry.py:277-284 | The y bounds are the streamed minimum and maximum of all values, and an axis has bounds exactly when there is a value |
| PlotData.BoundsX | scale/metrics/registry.py:281-284 | The x bounds are dates of entries with a value, and no such entry is outside them |
| PlotData.OnePointEach | scale/metrics/registry.py:248-254 | With a name to each column, a plot is given exactly one point per entry: the entry's date, choice and value of that column |
| PlotData.AggregateIsLast | scale/metrics/registry.py:248 | Of columns that share a name the last decides the aggregate |
| PlotData.MetricsPlotData.constructor | scale/metrics/registry.py:207-230 | A new plot is empty |
| PlotData.MetricsPlotData.AddPlotValue | scale/metrics/registry.py:257-311 | Updates bounds and values in place as the streaming step does |
| PlotData.NewPlots | scale/metrics/registry.py:248 | One separate empty plot per column name, the last column of a name deciding its aggregate |
| PlotData.AddColumns | scale/metrics/registry.py:250-253 | Each column's turn with an entry changes only the plot of its own name |
| PlotData.AddEntry | scale/metrics/registry.py:250-253 | Adds the entry to every column's plot, once per column of the name, the plots not disturbing one another |
| PlotData.Create | scale/metrics/registry.py:232-254 | One pass over the entries gives each name's plot the series of its own column alone |
| IngestStatus.IngestTimeSums | scale/ingest/models.py:251-274 | With both ends given and grouping by ingest time, each strike's hourly counts and sizes sum to totals that count exactly its ingests, and `most_recent` is their latest date |
| IngestStatus.SumsMatch | scale/ingest/models.py:416-425 | Hourly counts sum to the totals exactly when every counted ingest is dated on a filled day |
| IngestStatus.FilledShape | scale/ingest/models.py:416-425 | The filled list has 24 entries a day in strictly ascending hour order |
| IngestStatus.FilledCounts | scale/ingest/models.py:377-393 | Over any stretch of hours the filled counts are those of the records that fall in it |
| IngestStatus.Totals | scale/ingest/models.py:388-393 | The status counts every record and holds the latest date |
| IngestStatus.DataTimeCanFallShort | scale/ingest/models.py:257-266 | Grouped by data time an ingest can be in the totals and in no filled hour |
| IngestStatus.GroupByTime | scale/ingest/models.py:329-362 | The one-pass loop gives each known strike the group of its own ingests, skipping unknown strikes and undated ingests |
| IngestStatus.CountedStep | scale/ingest/models.py:345-360 | One ingest's turn brings every strike's group up to date |
| IngestStatus.FillStatus | scale/ingest/models.py:395-425 | The nested loops list every hour of every day of the range, with zeros where nothing was counted |
| IngestStatus.GetStatus | scale/ingest/models.py:237-274 | For every strike, from filter to filled list: each hour of the range in order with the count and size of exactly that hour's ingests, totals over all ingests in range, and sums equal to the totals exactly when every counted ingest is dated on a filled day, which is always so by ingest time |
| IngestStatus.FilterByTime | scale/ingest/models.py:251-266 | Keeps exactly the ingests in the time range by the ends the query compares, in order |
| IngestStatus.RecordsExactly | scale/ingest/models.py:251-274 | What is counted for a strike is exactly its ingests in range that have the date grouped by, each once and in order, with their sizes and dates |
| IngestStatus.HoursCounted | scale/ingest/models.py:377-393 | Each filled entry counts exactly the records of its own hour |
| ErrorCache.JobErrorIsQuery | scale/error/models.py:63-76 | In every run of lookups, saves and resets, a cached lookup by job type and name gives exactly what the query would |
| ErrorCache.ErrorByIdIsQuery | scale/error/models.py:45-49 | In every run a lookup by id succeeds exactly when the table has that id |
| ErrorCache.JobErrorStays | scale/error/models.py:63-76 | A lookup that succeeded once succeeds with the same id after any run, resets included |
| ErrorCache.BuiltinIsRow | scale/error/models.py:29-33 | In every run a builtin lookup fails exactly for a name that is not cached, as unknown, and what it returns is a builtin row of that name |
| ErrorCache.BuiltinStays | scale/error/models.py:29-33 | A builtin lookup that succeeded once succeeds with the same id after any run |
| ErrorCache.ResetFindsBuiltins | scale/error/models.py:89-98 | After a reset every builtin row is found, by its own id |
| ErrorCache.ResetReads | scale/error/models.py:89-98 | A reset drops every cached model but the builtin ones and reads those again |
| ErrorCache.RunKeeps | scale/error/models.py:101-119 | Every run keeps each cached name leading to the cached model of that name and each model's key that of its row |
| ErrorCache.CachedExactly | scale/error/models.py:101-119 | Caching a row caches its own key and drops nothing |
| ErrorCache.SaveSucceeds | scale/error/models.py:174-190 | A save reaches its end exactly when no name the table lacks is given twice |
| ErrorCache.SaveWrites | scale/error/models.py:174-190 | A save that goes through leaves, for each name given, a row with the detail of its last model; rows of other keys are untouched however far a save gets |
| ErrorCache.NothingElseStored | scale/error/models.py:174-190 | Every row after a save was there before or is one of the models given |
| ErrorCache.NewNameTwiceBreaks | scale/error/models.py:183-190 | Saving two new errors of one name stops at the second |
| ErrorCache.SavedKeeps | scale/error/models.py:183-190 | Saving one model changes no row's key and no other row |
| ErrorCache.ErrorManager.constructor | scale/error/models.py:13-17 | The caches start empty |
| ErrorCache.ErrorManager.CacheError | scale/error/models.py:101-119 | Is the caching step on all four dictionaries |
| ErrorCache.ErrorManager.GetBuiltinError | scale/error/models.py:20-33 | Reads the caches only |
| ErrorCache.ErrorManager.GetError | scale/error/models.py:36-49 | Caches the row if needed and finds it exactly when the table has it |
| ErrorCache.ErrorManager.GetJobError | scale/error/models.py:52-76 | Returns what the query by job type and name would, caching the row if needed |
| ErrorCache.ErrorManager.ResetErrorCache | scale/error/models.py:89-98 | Clears the caches and caches every builtin row |
| ErrorCache.ErrorManager.ExistingErrors | scale/error/models.py:183-184 | Finds exactly the job type's rows with one of the names |
| ErrorCache.ErrorManager.SaveJobErrorModels | scale/error/models.py:174-190 | Updates rows that existed before the call and inserts the others with the details given, touches no other row, and stops exactly when a new name comes twice |

## Left out

- REST views, serializers, Mesos, Elasticsearch, Vault, the user interface and import/export: dispatch, network and foreign calls.
- `update_status`, `supersede_jobs_old`, `update_jobs_to_canceled_old`, `create_batch_old` and `schedule_recipes`: version 5 paths that bypass the guards.
- `node`, `started`, priorities, resources and `last_modified` of jobs, and `update_jobs_node`: no guard depends on them.
- A failed-jobs message with several errors is one report per error here, and the tries of a job do not change during a run of retries.
- `process_job_input`, input validation and the conversion between data versions.
- The floating-point rounding of `_check_schedule`: microseconds are integers here and the quotient is exact.
- The minimum spacing of events for durations over a day: only the closed form is claimed there.
- `retry_database_query`, and a commit whose acknowledgement is lost.
- The `bbcp` program an NFS workspace may copy with: whether it takes a copy onto the same file is not known, and here it is refused like any other.
- A file system's move from one device to another, which copies and then removes: here it is one operation.
- A source file that another ingest of the same name deletes or ingests between two attempts.
- The SQS backend, whose deletion after success plays the part of the acknowledgement.
- Batch metrics, titles, and recipe creation.
- Default time range, sorting of the query, and the raw query of `get_status`.
- `create_legacy_error` and the dates and details of error rows beyond one value that stands for them.
- Plot values are integers, as in the metrics models; a value is read from an entry by column name.
