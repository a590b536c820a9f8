# Scoot: a verified model of its scheduler, sagas and workers

Scoot runs build tasks on a cluster of workers. This project models, in Dafny 4.11, the parts of it that are hard to
get right, and proves what they are for.

The scheduler and the saga log are the centre:

* **Sagas** (`SagaSpec`, `SagaHistory`, `Saga`, `FileLog`, `Recovery`). A saga is the durable record of a job. Each
  message is validated, applied, logged, and undone if logging fails. The transition is given as a function, and a
  second time, independently, as what the whole history of messages says; the two are proved equal. The log, in memory
  or in files, recovers to exactly the live state, and a job rebuilt from it has left to do exactly what the log does
  not say is done.
* **One job** (`JobState`, `JobProtocol`, `JobEnding`, `JobHistory`). The scheduler's loop, the task runners it starts,
  the kill loop and the goroutine that ends the saga interleave freely over one job and its saga. Over every run, what
  an attempt came to decides what becomes of its task, a kill request reaches every attempt under way, and EndSaga is
  accepted exactly when no run that could have been retried came back ABORTED unasked; and every job with a task left to
  do has a run in which it is refused and the scheduler sends on a closed channel.
* **Choosing tasks** (`TaskGroups`, `Quotas`, `Allocator`). The two-pass quota allocator, with the plan it follows made
  explicit: it loses no task, chooses none twice, never exceeds the free nodes, serves minimums in order of priority
  and arrival, gives a lower priority a node only after each higher one had all its share allows, and always makes
  progress.
* **The cluster** (`ClusterSpec`, `ClusterRuns`, `Cluster`, `ClusterFaults`, `FreeNodes`, `NodeHistory`). Node states
  live on the heap and move between maps and idle sets. Over every run of schedulings, completions, nodes joining,
  leaving, being reaped, coming back, turning flaky or becoming ready, batches go to healthy, current nodes; and no
  worker is ever booked twice, exactly when no worker's id is another's with the suffix the scheduler makes up for late
  completions. A current node without a task can be given one exactly when no completion of its own found it gone, and
  it did not last come back from being lost with its readiness channel just closed.
* **The whole scheduler** (`JobTable`, `Scheduler`, `Scheduling`, `JobTraces`). All jobs, listed also by requestor, over
  one cluster: the nodes with a task outstanding are exactly those the jobs' task runners were started on, the counters
  agree, the requestor map lists exactly the jobs in progress, and from whatever state a run has led to, one pass of the
  allocator is a step that keeps all this. Each job's part of a scheduler run is a run of the job protocol.

Around them:

* **Membership** (`Membership`, `Subscriptions`): deltas between views of a cluster, and subscribers that rebuild the
  members from them.
* **The worker** (`RunStatuses`, `StatusStore`, `StatusHistory`, `Queue`, `TaskRunner`): the status table with its
  listeners, the queue controller, and the client that drives one attempt at a task.
* **Dependency injection** (`Ice`): memoised construction against plain recursion.
* **Directory listings** (`Dirent`): the encoding of directory entries and reading it in pages.

Code that updates objects is modelled by classes whose methods are proved against functions on values (`Abs()`,
`Value()`); the properties over whole runs are lemmas about these functions. `Sequences` and `Wrappers` hold shared
notions.

What the environment may do is a parameter or an event: which log writes are lost, what workers answer and when, the
clock, the order in which a Go map is ranged over, the names of data files. `real` numbers stand for `float32` in the
quotas; rounding is not modelled.

Where the code does not do what one would expect, the model follows the code, and a lemma says so:
`JobEnding.EveryJobCanPanic`, `Allocator.RequiredRoundsAreIdle`, `ClusterFaults.ReturningNodeIsStranded`,
`FreeNodes.ReadyNodeIsBarred`, `ClusterFaults.TwinsDoubleBook`, `FileLogSpec.LoggedStartSagaCorrupts`,
`StatusSpec.PendingRunUnnoticed`. When the code does what one would expect is then said exactly, by
`JobEnding.EndSagaAcceptedIff`, `FreeNodes.CanBeGivenIff`, `ClusterFaults.NoDoubleBookingIffApart`,
`FileLogSpec.LoggedReadsBackIff` and `StatusSpec.PendingGoesUnnoticed`.

## Model

| member | source | states |
|---|---|---|
| SagaSpec.ApplyKeepsFlagOrder | saga/saga_state.go:255-405 | every accepted message keeps the flag order: tasks in the state were started, compensation only after abort, its end only after its start, a completed saga has all tasks ended or all compensated |
| SagaSpec.ReplayKeepsFlagOrder | saga/saga_state.go:255-405 | so does replaying any message list |
| SagaSpec.RecoveredStatesAreOrdered | saga/saga_recovery.go:25-62 | whatever a log holds, a recovered state is ordered and carries its id; one that is unsafe to resume is never completed |
| SagaSpec.ReplayAppend | saga/saga_recovery.go:25-62 | recovery's fold seen from its last message |
| SagaSpec.AcceptedMessageIsIdempotent | saga/saga_state.go:255-405 | an accepted message is accepted again at once and changes nothing more |
| SagaSpec.CompletedSagaIsFrozen | saga/saga_state.go:255-405 | a completed saga accepts exactly EndSaga messages of its own and no message list changes it |
| SagaSpec.RefusalSaysWhy | saga/saga_state.go:255-405 | a message is refused as invalid exactly when it names another saga, or no task where one is needed; every other refusal is for the state of the saga |
| SagaHistory.ReplayIsHistory | saga/saga_state.go:255-405 | replay succeeds exactly when each message was admissible by the history before it, and gives the flags, last data, aborted and completed that the history itself shows |
| Saga.SagaState.AddTaskData | saga/saga_state.go:225-246 | exactly the data slot of this kind of this task is set |
| Saga.SagaState.AllTasksDone | saga/saga_state.go:265-301 | true exactly when every task ended, or every one was compensated if the saga was aborted |
| Saga.SagaState.Update | saga/saga_state.go:255-405 | the in-place update does what the transition says; a refused message leaves the state as it was and names the error |
| Saga.SagaState.Copy | saga/saga_state.go:411-437 | a copy has the same value |
| Saga.SagaState.InSafeState | saga/saga_recovery.go:72-85 | true exactly when the saga was aborted or no started task is unfinished |
| Saga.MemoryLog.StartSaga | saga/sagalogs/memory.go:70-78 | a saga's log starts over with its StartSaga message, or nothing changes if the write is lost |
| Saga.MemoryLog.LogMessage | saga/sagalogs/memory.go:81-93 | a message is appended to a started saga's log, all or nothing |
| Saga.LogRunKeepsRecoverable | saga/saga.go:181-218 | after any sequence of updates with any writes lost, recovering from the log never fails and yields exactly the live state |
| Recovery.LogHoldsKept | saga/saga.go:181-218 | after any sequence of updates with any writes lost, the log is what it was, followed by exactly the messages that its history admitted and whose write was not lost, in order, and the live state is what that log says |
| Saga.FreshSagaIsRecoverable | saga/saga.go:23-48 | a new saga recovers to its initial state |
| Saga.Saga.UpdateSaga | saga/saga.go:181-218 | without an error the message was applied and is now the last in the log; with one, state and log are as before; other sagas' logs are untouched, the error is the transition's or the log's, and EndSaga closes the channel |
| Saga.Saga.Rehydrate | saga/saga.go:52-67 | a recovered saga has an update loop exactly when it is not completed |
| Saga.NewSaga | saga/saga.go:23-48 | an empty id or a lost first write gives no saga and changes no log; otherwise the saga is live and recoverable |
| Saga.RecoverState | saga/saga_recovery.go:25-62 | absent, corrupt, or the replayed state, as the log's messages say |
| Recovery.RecoverIsHistory | saga/saga_recovery.go:25-62 | a log recovers exactly when it starts with StartSaga and each message is admissible by those before it, and to the state the messages themselves show |
| Recovery.SafeIffLogged | saga/saga_recovery.go:72-85 | a recovered saga is safe to resume exactly when its log has an AbortSaga, or an EndTask for every task with a StartTask |
| Saga.RecoverSagaState | saga/saga_coordinator.go:54-89 | under rollback the saga returned is safe; an unsafe one is aborted first, which is all that is added to the log and fails only if the log does, and the abort is only ever sent to a running update loop |
| FileLogSpec.LineRoundTrip | saga/sagalogs/file.go:212-241 | a line reads back exactly when it has no newline, does not end in a carriage return and fits the scanner |
| FileLogSpec.RecordRoundTrip | saga/sagalogs/file.go:245-356 | a written message parses back whatever follows it, even if its task id equals a message kind |
| FileLogSpec.LogRoundTrip | saga/sagalogs/file.go:212-241 | a whole log parses back to the messages written, absent data read as empty |
| FileLogSpec.ReplayAsRead | saga/sagalogs/file.go:212-356 | replaying what was read gives the live flags, and the live data too if every task message carries data |
| FileLogSpec.LoggedStartSagaCorrupts | saga/sagalogs/file.go:166-208 | a StartSaga message given to LogMessage names no data file, and its log can then not be read back, whatever is logged after it, as long as no data file is named like the kind of the next message |
| FileLogSpec.LoggedReadsBackIff | saga/sagalogs/file.go:166-241 | after sound records, a message given to LogMessage reads back with them exactly when it is a task message whose task id is a good line, or an EndSaga or AbortSaga with nothing attached |
| FileLog.FileSagaLog.StartSaga | saga/sagalogs/file.go:105-162 | the data goes to its own file, the record to the end of the log, which is made if missing |
| FileLog.FileSagaLog.LogMessage | saga/sagalogs/file.go:166-208 | a message of any kind is recorded at the end of a started saga's log, a task message with its data in a file of its own, and refused without a log |
| FileLog.FileSagaLog.GetMessages | saga/sagalogs/file.go:212-241 | returns the messages recorded, in order, if all names are good lines; nothing for an unknown saga |
| FileLog.ReadLog | saga/sagalogs/file.go:225-241 | the scanning loop computes the recursive parse |
| Recovery.RecoveredEndTasks | saga/saga_recovery.go:25-62 | in a recovered state a task is completed exactly when the log has an EndTask for it |
| Recovery.RebuiltJob | sched/scheduler/job_state.go:52-94 | a job rebuilt from a recovered log starts like a new one, with NotStarted exactly the tasks the log has no EndTask for |
| Recovery.FileRecoversLiveState | saga/sagalogs/file.go:212-241 | whatever updates a saga saw, with any writes lost, its file is read without error and recovers to its live flags, and to its live state if job and task messages carry data |
| Recovery.SagaLogsNoStart | saga/saga.go:181-218 | whatever a saga is offered, the only StartSaga in its log is the first message, so a saga never corrupts its file |
| JobSpec.UpdatesKeepCounters | sched/scheduler/job_state.go:121-153 | the three updates keep both counters equal to the status counts |
| JobSpec.CountBounds | sched/scheduler/job_state.go:156-161 | the three status counts add up to the number of tasks, and one equals it exactly when all tasks have that status |
| JobSpec.UnscheduledCount | sched/scheduler/job_state.go:107-118 | the unscheduled list holds exactly the NotStarted tasks, each once |
| JobSpec.UnscheduledConcat | sched/scheduler/job_state.go:107-118 | the unscheduled tasks stay in order |
| JobState.JobState.constructor | sched/scheduler/job_state.go:52-94 | a job rebuilt from a saga has Completed exactly the tasks with an EndTask, the rest NotStarted, and agreeing counters |
| JobState.JobState.GetTask | sched/scheduler/job_state.go:97-104 | finds the first task with the id |
| JobState.JobState.TaskStarted | sched/scheduler/job_state.go:121-129 | in place: InProgress, one more try, one more running |
| JobState.JobState.TaskCompleted | sched/scheduler/job_state.go:132-141 | in place: Completed, one more completed, one fewer running if it ran |
| JobState.JobState.ErrorRunningTask | sched/scheduler/job_state.go:144-153 | in place: back to NotStarted, one fewer running, the try taken back if preempted |
| JobState.JobState.GetUnscheduledTasks | sched/scheduler/job_state.go:107-118 | the NotStarted tasks in order |
| JobState.JobState.IsCompleted | sched/scheduler/job_state.go:156-161 | with agreeing counters, done exactly when every task is Completed |
| JobProtocol.StepKeepsInv | sched/scheduler/stateful_scheduler.go:733-1121 | every step of the scheduler, a task runner, the kill loop or the EndSaga goroutine keeps job, runners and saga in agreement |
| JobProtocol.RunKeepsInv | sched/scheduler/stateful_scheduler.go:733-1121 | so does every run from a new or recovered job |
| JobProtocol.TaskMessagesAccepted | sched/scheduler/task_runner.go:66-157 | every StartTask and EndTask that is sent is accepted by the saga |
| JobProtocol.NoStartAfterEnd | sched/scheduler/task_runner.go:66-157 | in every run no task message is refused, and no StartTask is sent once the task's EndTask is logged |
| JobEnding.OwesIffGaveUp | sched/scheduler/stateful_scheduler.go:848-966 | in every run a task is completed, or about to be, without an EndTask exactly when an earlier run of it that was not its last try came back ABORTED unasked |
| JobEnding.EndSagaAcceptedIff | sched/scheduler/stateful_scheduler.go:733-778 | in every run the first EndSaga is accepted exactly when no run that was not a last try came back ABORTED unasked before it |
| JobHistory.OutcomeDecides | sched/scheduler/stateful_scheduler.go:888-952 | in every run, the callback of an attempt puts its task back to wait exactly if the outcome was an error, not ABORTED, and the task was started at most maxRetries times, preemptions aside; otherwise it completes it, with an EndTask logged unless a try that was not the last came back ABORTED unasked; no other task changes |
| JobHistory.HadOutcome | sched/scheduler/task_runner.go:66-157 | in every run, each attempt that calls back had an outcome before |
| JobHistory.KillTellsAll | sched/scheduler/stateful_scheduler.go:1082-1116 | in every run, once a kill request has been dealt with, every task runner was told to abort and every task is in progress or completed |
| JobHistory.OnlyKillTells | sched/scheduler/task_runner.go:355-375 | in every run, an outcome ends its task only if the runner was told to abort, and a runner is told so only after the job was killed |
| JobHistory.DeletedIffEnded | sched/scheduler/stateful_scheduler.go:744-776 | in every run, the answer to EndSaga deletes the job exactly when its saga has ended, and nothing else deletes it |
| JobProtocol.NothingAfterEndSaga | saga/saga.go:152-168 | once EndSaga was accepted, no event sends anything to the saga |
| JobEnding.SagaEndsCleanly | sched/scheduler/stateful_scheduler.go:733-1121 | in every run without such a result, EndSaga is accepted the one time it is sent, nothing follows it, and nothing is sent on a closed channel |
| JobEnding.RefusedEndSagaPanics | saga/saga.go:152-168 | a run that has every task done, one of them given up unlogged, goes on to EndSaga being refused and sent again on the closed channel |
| JobEnding.UnaskedAbortGivesUp | sched/scheduler/stateful_scheduler.go:885-940 | from any new job with a task left to do and a retry allowed, one attempt that comes back ABORTED unasked leads to a task given up unlogged |
| JobEnding.EveryJobCanPanic | sched/scheduler/stateful_scheduler.go:733-1121 | every new job with a task left to do and a retry allowed has a run that ends in a send on the closed channel |
| JobProtocol.AllDoneMeansQuiet | sched/scheduler/stateful_scheduler.go:733-740 | a job counts as done exactly when each task is, and then no task runner is left |
| JobProtocol.RetriesBounded | sched/scheduler/stateful_scheduler.go:804-966 | in every run a task is started at most maxRetries + 1 times, not counting starts taken back by preemption |
| JobProtocol.DeletedIsQuiet | sched/scheduler/stateful_scheduler.go:733-778 | a deleted job has no task running and no callback waiting |
| TaskGroups.GroupMembers | sched/scheduler/task_scheduler.go:113-133 | a group holds exactly the waiting tasks of the requestor's jobs with the tag |
| TaskGroups.GroupNoDup | sched/scheduler/task_scheduler.go:113-133 | no task is gathered twice |
| TaskGroups.OneMoreJob | sched/scheduler/task_scheduler.go:120-133 | the waiting tasks of a further job of the group go before the others, and its tasks and running tasks are added |
| TaskGroups.WaitingAt | sched/scheduler/job_state.go:107-118 | a job's waiting task comes after those that wait before it in the job |
| TaskGroups.Gather | sched/scheduler/task_scheduler.go:113-138 | stops at the first job that brings the group to the number of free nodes, with its tasks and counts |
| Quotas.TakeEachKeepsTasks | sched/scheduler/task_scheduler.go:207-232 | taking a quota from each list moves tasks but loses and adds none |
| Quotas.TakeEachTakes | sched/scheduler/task_scheduler.go:207-232 | with a node and a positive quota, something is taken from any list there is |
| Quotas.TakeQuota | sched/scheduler/task_scheduler.go:207-232 | from each list in turn its first tasks are taken, as many as the quota, the list and the nodes left by the lists before it allow; in all the sum of what quota and lists allow, or all nodes; what remains of the lists stays in order, used-up ones dropped |
| Quotas.Round | sched/scheduler/task_scheduler.go:192-234 | priorities are served from the highest down, each out of the nodes the higher ones left, by its share of the nodes split evenly over its lists and rounded up, the fixed shares in rounds 0 and 2 and all in rounds 1 and 3; so if a priority is given a node, each higher one was given the quota of every list it has |
| Quotas.RoundsKeep | sched/scheduler/task_scheduler.go:190-235 | the second pass conserves tasks and nodes, and takes none only if no list is left |
| Quotas.SecondPass | sched/scheduler/task_scheduler.go:190-235 | four such rounds, two over unmet minimums and two over the rest, all with the nodes there were at first as the basis |
| Quotas.LastNodeGoesUp | sched/scheduler/task_scheduler.go:190-235 | with one node and no minimum unmet, the node goes to the first task of the first list of the highest priority that has one |
| Allocator.HandleGroup | sched/scheduler/task_scheduler.go:108-187 | a group's tasks are split into those taken, the unmet rest of its minimum, and the optional rest |
| Allocator.MinimumIsLeast | sched/scheduler/task_scheduler.go:139-153 | a group's minimum is the least number of nodes that, with those it already has, give it one for each waiting task or its scaled share of all its tasks, whichever is less |
| Allocator.FirstPass | sched/scheduler/task_scheduler.go:93-188 | the first pass follows a sequence of plans, each for the first job with a new requestor and tag in order of priority and arrival, for every one that has a task waiting until the nodes are gone, and plans nothing with a node left only if no task waits |
| Allocator.PlansConserve | sched/scheduler/task_scheduler.go:93-188 | chosen, required and optional tasks are together the tasks seen, and nodes spent plus nodes left are the nodes there were |
| Allocator.PassLists | sched/scheduler/task_scheduler.go:177-186 | for each priority, the lists left for the second pass are the unmet rests of its groups' minimums, and what its groups have beyond them, in the order of the plans |
| Allocator.SelectionConserves | sched/scheduler/task_scheduler.go:93-235 | after both passes, chosen and left-over tasks are together exactly the tasks seen, and no more are chosen than nodes are free |
| Allocator.ChosenIsSound | sched/scheduler/task_scheduler.go:93-235 | no task is chosen twice, and each was waiting |
| Allocator.UnmetMinimumDominates | sched/scheduler/task_scheduler.go:139-187 | a group left short of its minimum is the last one served, and then only minimums get nodes |
| Allocator.SomethingIsChosen | sched/scheduler/task_scheduler.go:93-235 | with a free node and a planned task, something is chosen |
| Allocator.RequiredRoundsAreIdle | sched/scheduler/task_scheduler.go:192-200 | the two rounds over unmet minimums never do anything |
| Allocator.LastNodeIsForHighest | sched/scheduler/task_scheduler.go:190-235 | if the first pass leaves one node, the tasks chosen are its own and the first task beyond a minimum of the highest priority that has one |
| Quotas.Quota | sched/scheduler/task_scheduler.go:207-208 | the share of each list, rounded up |
| Allocator.ScaleFavoursPriority | sched/scheduler/stateful_scheduler.go:124-127 | a higher priority is sure of a larger share, all shares together are at most the whole, and exactly the fixed ones when the tasks fit the cluster |
| Allocator.ScaleIsShare | sched/scheduler/stateful_scheduler.go:124-127 | the share is the priority's part of the nodes, over the outstanding tasks or the nodes if these are more |
| Allocator.ByPriority | sched/scheduler/task_scheduler.go:66-72 | jobs by priority, in order |
| Allocator.OfPriorityConcat | sched/scheduler/task_scheduler.go:66-72 | the jobs of a priority stay in order of arrival |
| Allocator.Totals | sched/scheduler/task_scheduler.go:33-42 | the totals from the counters are the tasks not completed, and zero unscheduled means no task waits |
| Allocator.SelectTasks | sched/scheduler/task_scheduler.go:24-239 | the chosen tasks are distinct, waiting, no more than the free nodes, and none only if no node is free or no task waits; they are those of plans made in order of priority and arrival, then those of the four rounds over what the plans leave |
| ClusterSpec.BatchIsFit | sched/scheduler/task_scheduler.go:267-319 | tasks assigned in turn get healthy, current nodes; with the workers' ids apart, without a task and all different |
| ClusterSpec.BookedKeepsInv | sched/scheduler/cluster_state.go:154-172 | starting a task on such a node keeps the cluster invariant; idle sets only shrink |
| ClusterSpec.BookedAllKeepsInv | sched/scheduler/cluster_state.go:154-172 | so does a whole batch, which adds one outstanding task to each of its nodes and changes no other |
| ClusterSpec.EmptiedGroupGoes | sched/scheduler/cluster_state.go:157-161 | the group a node leaves goes away exactly when the node was the last in it |
| ClusterSpec.LateCompletionTouchesNoNode | sched/scheduler/stateful_scheduler.go:858-884 | a completion whose node is no longer the current one changes nothing but the count of running tasks, if no worker goes by the id made up for it |
| ClusterSpec.FiredKeepsInv | sched/scheduler/cluster_state.go:177-198 | every completion keeps the invariant |
| ClusterSpec.AddedKeepsInv | sched/scheduler/cluster_state.go:238-271 | so does a node reported present, new, lost or known |
| ClusterSpec.RemovedKeepsInv | sched/scheduler/cluster_state.go:286-304 | so does a node reported gone |
| ClusterSpec.CleanedKeepsInv | sched/scheduler/cluster_state.go:308-346 | so does the periodic look at a suspended node: made healthy, reaped, tried again, or left |
| ClusterSpec.BecameReadyKeepsInv | sched/scheduler/cluster_state.go:87-107 | so does a readiness loop closing its channel at any time |
| ClusterSpec.IdleAgainIffCurrent | sched/scheduler/stateful_scheduler.go:858-884 | a completion makes its node idle again exactly when the node is still the current one |
| ClusterRuns.NextKeepsInv | sched/scheduler/cluster_state.go:154-346 | no event breaks the invariant or looks up an entry that is not there |
| ClusterRuns.RunKeepsInv | sched/scheduler/cluster_state.go:154-346 | the invariant holds after every run, and its stronger form after every run of workers with ids apart |
| ClusterRuns.NoDoubleBooking | sched/scheduler/cluster_state.go:154-346 | in every run whatever batch is assigned next goes to healthy, current nodes and the counter is the number of tasks outstanding; with ids apart the nodes are free and different, and no node state ever has two tasks outstanding |
| NodeHistory.PrefersOwnSnapshot | sched/scheduler/task_scheduler.go:276-290 | a task gets a node that last ran its snapshot while a usable one is idle, then one that last ran none, and only then another |
| NodeHistory.NodeShowsLast | sched/scheduler/cluster_state.go:154-198 | in every run of workers with ids apart, a node shows the task last started on it until a completion of its own finds it current, and the snapshot of that task until it is tried again after being flaky |
| NodeHistory.FlakyIsSetAside | sched/scheduler/cluster_state.go:184-189 | after any run, a flaky completion sets a healthy node aside, out of the healthy nodes, as of then; any other leaves it healthy |
| NodeHistory.LostIsSetAside | sched/scheduler/cluster_state.go:286-300 | after any run, a known node reported gone is set aside as lost, and no longer as flaky |
| NodeHistory.StaysAside | sched/scheduler/cluster_state.go:154-346 | however the run goes on, a node set aside stays so, as of the same time, until it is lost again, reported back from being lost, or looked at when its time is over |
| NodeHistory.AsideGetsNoTask | sched/scheduler/task_scheduler.go:267-319 | a node set aside is given no task |
| NodeHistory.LostComesBack | sched/scheduler/cluster_state.go:238-246 | a lost node reported back is the same node again, at once unless its readiness is awaited |
| NodeHistory.LostIsForgotten | sched/scheduler/cluster_state.go:318-328 | a lost node looked at after its time is known no more and in no idle or busy set of its group |
| NodeHistory.FlakyIsTriedAgain | sched/scheduler/cluster_state.go:329-344 | a flaky node looked at after its time counts as untouched, healthy at once or once it is ready |
| NodeHistory.NewNodeJoins | sched/scheduler/cluster_state.go:251-267 | a worker new to the cluster is idle and untouched, healthy at once or once it is ready, and changes no other |
| NodeHistory.SpuriousReports | sched/scheduler/cluster_state.go:246-302 | a report that a healthy or a flaky node is there, or that an unknown one is gone, changes nothing |
| ClusterFaults.ReturningNodeIsStranded | sched/scheduler/cluster_state.go:177-198 | after any run, a new worker that joins, gets a task, is lost, and returns after the task completed, is healthy and free but in no idle set |
| ClusterFaults.StaysStranded | sched/scheduler/cluster_state.go:154-346 | however the run goes on, such a node stays without a task and in no idle set, healthy while it is not lost again, and known under its id while it is not reaped |
| ClusterFaults.StrandedGetsNoTask | sched/scheduler/task_scheduler.go:267-319 | no later batch gives it a task, nor its worker one until it was lost again and reaped |
| FreeNodes.StrandedIffMissed | sched/scheduler/stateful_scheduler.go:858-884 | in every run of workers with ids apart, a known node without a task is in no idle set exactly when some completion of its own found it not to be the current node |
| FreeNodes.ReadyNodeIsBarred | sched/scheduler/cluster_state.go:237-246 | with a readiness function, after any run, a new worker lost before it is ready that becomes ready and then comes back is the current node, idle and without a task, and suspended |
| FreeNodes.SuspendedIffBackClosed | sched/scheduler/cluster_state.go:237-310 | in every run a current node is suspended exactly when it came back from being lost with its readiness channel closed and was not lost since |
| FreeNodes.CanBeGivenIff | sched/scheduler/task_scheduler.go:267-319 | in every run of workers with ids apart, a current node without a task can be given one exactly when neither of these happened to it |
| ClusterFaults.TwinsDoubleBook | sched/scheduler/stateful_scheduler.go:858-884 | for any id, a run with a worker of that id and one with the id and `:ERROR` ends with two tasks outstanding on one node |
| ClusterFaults.NoDoubleBookingIffApart | sched/scheduler/stateful_scheduler.go:858-884 | workers with ids from a set are never booked twice in any run, exactly when no id in it is another one followed by `:ERROR` |
| Cluster.ClusterState.Pick | sched/scheduler/task_scheduler.go:277-290 | the first group in order with a usable idle node, and such a node; none only if no group has one |
| Cluster.ClusterState.Assign | sched/scheduler/task_scheduler.go:267-319 | tasks are assigned in turn from what is left, preferring the task's snapshot, then untouched nodes; a task goes without only if no usable node is left |
| Cluster.ClusterState.TaskScheduled | sched/scheduler/cluster_state.go:154-172 | the in-place steps, removing the emptied group and making the new one, come to the value-level update |
| Cluster.ClusterState.TaskCompleted | sched/scheduler/cluster_state.go:177-198 | likewise, also for an id that is not there |
| Cluster.ClusterState.NodeAdded | sched/scheduler/cluster_state.go:238-271 | likewise |
| Cluster.ClusterState.NodeRemoved | sched/scheduler/cluster_state.go:286-304 | likewise |
| Cluster.ClusterState.Clean | sched/scheduler/cluster_state.go:308-346 | likewise |
| Cluster.ClusterState.BecomeReady | sched/scheduler/cluster_state.go:87-107 | a readiness loop closing its channel is one step of the run |
| Cluster.ClusterState.CleanUp | sched/scheduler/cluster_state.go:305-346 | every suspended node is looked at once, in some order |
| Cluster.ClusterState.Update | sched/scheduler/cluster_state.go:221-346 | the reports in order, then a look at every node suspended then |
| Cluster.ClusterState.StartTasks | sched/scheduler/stateful_scheduler.go:781-806 | assignment and starting the batch are one step of the run |
| Cluster.ClusterState.Complete | sched/scheduler/stateful_scheduler.go:858-966 | the completion callback is one step of the run, by identity of the node state |
| JobTable.JobTable.Add | sched/scheduler/stateful_scheduler.go:645-683 | the job is last in both lists, under the priority of its requestor's last job with its tag and another basis, a requestor's first job held to the maximum, and the jobs it replaces are named |
| JobTable.NewJobFollows | sched/scheduler/stateful_scheduler.go:645-673 | the jobs named to be killed are exactly those of the requestor with the same non-empty basis and another tag; the priority is that of the requestor's last job with the tag and another basis, else the job's own |
| JobTable.JobTable.Delete | sched/scheduler/stateful_scheduler.go:703-720 | exactly this job leaves both lists, order kept, and a requestor without jobs disappears |
| JobTable.WithoutCommutes | sched/scheduler/stateful_scheduler.go:703-720 | deleting a job and listing by requestor commute |
| Sequences.RangeDelete | sched/scheduler/stateful_scheduler.go:705-710 | deleting from a slice while ranging over its backing array removes exactly the one hit |
| Scheduler.AddedIsTabled | sched/scheduler/stateful_scheduler.go:645-683 | adding a job under its requestor keeps the requestor map listing exactly the jobs in progress |
| Scheduler.RemovedIsTabled | sched/scheduler/stateful_scheduler.go:703-720 | so does deleting one |
| Scheduler.NextKeepsInv | sched/scheduler/stateful_scheduler.go:445-466 | every step over all jobs, the requestor map and the cluster keeps the accounts, the map and the bound on priorities |
| Scheduler.RunKeepsInv | sched/scheduler/stateful_scheduler.go:445-466 | so does every run |
| Scheduler.AccountsAgree | sched/scheduler/stateful_scheduler.go:788-966 | in every run each job's counters are its status counts, the nodes with a task outstanding are those of the task runners whose callback has not run, each as often, their number is numRunning and the sum of running tasks, and with the workers' ids apart no two share a node |
| Scheduling.TableIsConsistent | sched/scheduler/stateful_scheduler.go:645-720 | in whatever state the scheduler is, the requestor map shows the allocator exactly the jobs in progress |
| Scheduling.ScheduleTasks | sched/scheduler/stateful_scheduler.go:781-806 | every task put on a node was waiting, no task is used twice, each node is healthy and with ids apart free and used once; the tasks chosen and those outstanding are no more than the healthy nodes, and none is chosen only if none waits or those outstanding leave no node; the choice is that of plans and rounds |
| Scheduling.PassIsAStep | sched/scheduler/stateful_scheduler.go:781-845 | after any run, with no job just being killed, what a pass chooses from the scheduler's own state and assigns is a step the scheduler can take, and keeps its accounts |
| JobTraces.JobsAreTraced | sched/scheduler/stateful_scheduler.go:445-466 | in every run of the scheduler, the steps of each job since it was added are a run of the job protocol that leads to its state |
| JobTraces.EndSagaAcceptedIff | sched/scheduler/stateful_scheduler.go:733-778 | so in every run of the scheduler a job's first EndSaga is accepted exactly when no run of its tasks that was not a last try came back ABORTED unasked |
| JobTraces.NoStartAfterEnd | sched/scheduler/task_runner.go:66-157 | and its saga refuses no task message and is sent no StartTask once the task's EndTask is logged |
| JobTraces.RetriesBounded | sched/scheduler/stateful_scheduler.go:804-966 | and each of its tasks is started at most maxRetries + 1 times, not counting starts taken back by preemption |
| JobTraces.OutcomeDecides | sched/scheduler/stateful_scheduler.go:848-966 | in every run of the scheduler, what is done with a task whose attempt is over is what that attempt's outcome and the number of its starts decide |
| JobTraces.KillTellsAll | sched/scheduler/stateful_scheduler.go:1082-1116 | in every run of the scheduler, once a kill request for a job has been dealt with, each of its runners was told to abort and none of its tasks waits |
| JobTraces.PreemptedIffReplaced | sched/scheduler/stateful_scheduler.go:858-888 | in every run of the scheduler, the end of an attempt counts as a preemption exactly when another node has taken the place, under the same id, of the one the attempt was started on |
| MembershipSpec.ReplayTellsLast | cloud/cluster/state.go:64-105 | after any updates a node is present exactly if the last update about its id added it, and as it was added then, or if there was none and it was present before |
| MembershipSpec.PresentIffMoreAdds | cloud/cluster/state.go:64-105 | whatever the order of the updates, an id is present at the end exactly when additions, counting its presence before, outnumber removals |
| MembershipSpec.ViewIsListed | cloud/cluster/state.go:52-56 | the node last listed under an id is the one in the view that a fetched list gives |
| MembershipSpec.DiffReplays | cloud/cluster/state.go:22-58 | a difference replayed on the old ids gives the fetched ids, and no update in it is redundant exactly when no id was fetched twice |
| MembershipSpec.AddedAreListed | cloud/cluster/state.go:22-58 | what a difference adds are nodes as they were fetched, and every fetched one with a new id is among them |
| Membership.State.FilterAndUpdate | cloud/cluster/state.go:64-105 | terminates; the updates let through and those left over are together exactly those given; those let through, replayed in order, are each effective and give the new view; none left over is applicable |
| Membership.State.SetAndDiff | cloud/cluster/state.go:22-58 | the view becomes the fetched one and the difference lists additions, then removals, each sorted |
| Subscriptions.SubscribersStayInformed | cloud/cluster/cluster.go:58-112 | in every run a subscriber's initial members with all updates delivered, queued or being sent give exactly the current ids, none redundant if no fetch names an id twice |
| RunStatuses.MaskIsSet | runner/status_rw.go:62-68 | a mask matches exactly the states it was made from |
| RunStatuses.DoneMaskIsDone | runner/status_rw.go:24-29 | DONE_MASK matches exactly the done states |
| StatusSpec.UpdateKeepsInv | runner/runners/status_manager.go:78-121 | writing a status loses no wake-up and wakes no listener twice |
| StatusSpec.ServedOnce | runner/runners/status_manager.go:104-119 | exactly the listeners a status matches are sent it, once |
| StatusSpec.ListenKeepsInv | runner/runners/status_manager.go:190-220 | a client starts to wait only when nothing stored matches |
| StatusSpec.RunKeepsInv | runner/runners/status_manager.go:40-220 | in every run no stored status matches a waiting listener, but for PENDING ones newer than a query for all runs, and no channel gets two statuses |
| StatusSpec.DoneIsFinal | runner/runners/status_manager.go:78-92 | a done status stays as it is for as long as it is stored, over every run |
| StatusHistory.StoredIsReported | runner/runners/status_manager.go:40-121 | in every run, a stored status is the PENDING one its run was added with, if no write to it took effect since, and otherwise has the state and note of the last write that found it not done |
| StatusHistory.SentIsReported | runner/runners/status_manager.go:95-119 | in every run, whatever is sent on a channel has the run, state and note of some write that took effect |
| StatusHistory.ReferencesStay | runner/runners/status_manager.go:83-92 | in every run, a run that has an output reference keeps one for as long as it is stored |
| StatusHistory.StoredIffRecent | runner/runners/status_manager.go:40-60 | in every run, a run is stored exactly when it was added, is among the newest the history holds, and was not erased when it was done |
| StatusSpec.WaitIsAnswered | runner/runners/status_manager.go:78-220 | in every run a client that waits is still listening or was sent one status, which matches its query and was stored when it was sent |
| StatusSpec.FinalStatusIsFinal | runner/queries.go:23-26 | what a client is sent that waits for done states is done, of a run it asked for, and stays that run's status for as long as one is stored |
| StatusSpec.PendingRunUnnoticed | runner/runners/status_manager.go:40-60 | from the empty store, a client waits for any PENDING run, a run is added, and the client is not told |
| StatusSpec.PendingGoesUnnoticed | runner/runners/status_manager.go:40-220 | for every capacity, a query is one for which no stored status ever goes unnoticed, in any run, exactly when it is not for PENDING among all runs |
| StatusSpec.PlainFilterAgrees | runner/runners/statuses_ro.go:11-19 | a query finds what filtering the stored statuses finds |
| StatusStore.StatusManager.NewRun | runner/runners/status_manager.go:40-60 | a new PENDING run with the next id; the oldest entry leaves a full history |
| StatusStore.StatusManager.Update | runner/runners/status_manager.go:78-121 | a stored run that is not done takes the new state and note, and the new output references where there are any; the new status is sent to exactly the channels with a matching listener; no other status changes, done statuses stay, unknown runs are refused |
| StatusStore.StatusManager.Erase | runner/runners/status_manager.go:174-182 | only a done run is erased |
| StatusStore.StatusManager.QueryAndListen | runner/runners/status_manager.go:190-220 | unknown run, all matching statuses, or a new listener exactly when nothing matches and waiting is wanted |
| QueueSpec.EvictedIsFinished | runner/runners/status_manager.go:52-57 | what leaves the history of a single runner is finished |
| QueueSpec.NextKeepsInv | runner/runners/queue.go:220-447 | every step of the controller or of a watcher keeps the queue invariant |
| QueueSpec.OneAtATime | runner/runners/queue.go:309-447 | in every run a run and a filer update are never under way together, the run under way heads the queue, runs start in the order of their ids, and every unfinished run stored is queued |
| QueueSpec.StartsHeadIff | runner/runners/queue.go:351-381 | in every run, a step starts a run exactly if it is the end of an update, or the loop's turn to run with nothing under way, and a run is queued: the head of the queue |
| QueueSpec.UpdateStartsIff | runner/runners/queue.go:314-349 | in every run, an update is under way from a request that finds nothing under way until it is done |
| QueueSpec.RequestedIffPutOff | runner/runners/queue.go:314-349 | in every run, an update is remembered exactly when the last request for one found something under way |
| QueueSpec.RequestedUpdateGoesFirst | runner/runners/queue.go:358-369 | in every run, while an update is remembered and none is under way, no run starts before an update does, and it is not forgotten |
| Queue.QueueController.Enqueue | runner/runners/queue.go:220-251 | a run is queued exactly when the worker is initialized and there is room |
| Queue.QueueController.Abort | runner/runners/queue.go:262-300 | a running run is told to stop; a queued one, and no other, leaves the queue, and its stored status is ABORTED; any other run changes nothing |
| Queue.QueueController.TryUpdate | runner/runners/queue.go:314-350 | an update starts if nothing is under way and is remembered otherwise |
| Queue.QueueController.TryRun | runner/runners/queue.go:351-356 | the head starts if nothing is under way |
| Queue.QueueController.TakeTurn | runner/runners/queue.go:358-369 | at the top of the loop an update that is remembered or just asked for is tried before a run |
| Queue.QueueController.Report | runner/runners/queue.go:425-444 | a watcher stores a status and is finished with the first done one |
| Queue.QueueController.Finish | runner/runners/queue.go:397-404 | a finished head leaves the queue |
| TaskRunner.SendCommand | sched/scheduler/task_runner.go:160-230 | the command is sent at most as often as the interval fits into the timeout, rounded up, and given up only when the waits have used up the timeout; all replies but the last were failures, and the outcome is the last reply, unless the last look at the abort channel, and none before it, found a kill request: then it is ABORTED, ends the task if the request says so, and the run is aborted if it was received |
| TaskRunner.QueryOnce | sched/scheduler/task_runner.go:278-323 | a kill request makes it ABORTED, ending the task if the request says so; else it fails exactly when the query does, and otherwise gives the worker's one status, or TIMEDOUT if the answer has none; it is done, or RUNNING if that was asked for |
| TaskRunner.AwaitEnd | sched/scheduler/task_runner.go:232-276 | the loop that waits for a run that was started: queries are repeated while they fail and the timeout allows, the run found running is asked about once more, and the outcome is the last answer |
| TaskRunner.RunAndWait | sched/scheduler/task_runner.go:160-276 | terminates; each phase waits less than the timeout; the outcome is the worker's last reply if the command was not taken, else its answer to the last query about the run it took, all earlier queries having failed but for one that found it running; only the last look at the abort channel finds a kill request, and makes it ABORTED; it is done unless the worker stayed out of reach; the run is aborted unless COMPLETE |
| IceSpec.ConstructibleIffSound | ice/eval.go:64-113 | plain recursion has a value exactly when everything reachable is bound and acyclic and no provider fails |
| IceSpec.YieldsOnce | ice/eval.go:64-113 | plain recursion gives a key at most one value, whatever the depth |
| IceSpec.MadeYields | ice/eval.go:87-112 | a value made from its arguments' values is what plain recursion gives, and a failing provider leaves it without one |
| IceSpec.CycleHasNoValue | ice/eval.go:69-74 | a key that is its own argument through some chain has no value |
| Ice.Evaluation.Construct | ice/eval.go:64-143 | caching and cycle check give what plain recursion gives and call no provider twice; a failure comes with the chain of constructors that led to it |
| Ice.Extract | ice/eval.go:14-38 | succeeds exactly when plain recursion does, with the same value, and calls each provider at most once |
| Dirent.StartsAligned | fuse/fuse.go:386-388 | entries start at multiples of eight and take no more than the sum of their sizes |
| Dirent.AppendDirent | fuse/fuse.go:437-452 | appends the entry with the offset of the one after it |
| Dirent.Encode | fs/min/serve.go:194-197 | the loop builds the listing |
| Dirent.ListingReadsBack | fuse/fuse.go:437-452 | a listing reads back as its entries, each with the offset where the next one starts |
| Dirent.PageShows | fs/min/serve.go:263-272 | a page shows exactly the entries it holds in full |
| Dirent.ReadDirectory | fs/min/serve.go:188-209 | reading page after page from the last offset, each page having room for the entry it starts at, yields each entry once, in order, and ends |

## Left out

- User-initiated offlining and reinstating of nodes: they leave the idle sets alone, so the cluster properties are stated for runs without them.
- Cluster.ClusterState.Assign: node groups are values here, so that the caller's groups stay untouched by the copy is not a property of the model; aliasing between groups is not captured.
- Busy sets: a node stays in its former group's busy set after being scheduled elsewhere; only idle sets carry claims.
- Every chosen task getting a node: free nodes are counted from node and task numbers and can exceed the idle ones, see ClusterFaults.ReturningNodeIsStranded.
- JobEnding.SagaEndsCleanly: the saga log is taken not to fail in the job protocol; lost writes are covered for the saga alone by Saga.LogRunKeepsRecoverable.
- What happens to a saga after its first EndSaga attempt beyond the send on the closed channel.
- Request checks of addJobs other than the one on priorities (limits on requestors and jobs, duplicate task names, expired tags), average durations and the order of tasks within a job.
- Recovered jobs are not checked again when they are added; they are taken to have passed the check on priorities when they were first submitted.
- Killing the jobs that a new one replaces happens on its own in a run of the scheduler; JobTable.JobTable.Add names them.
- Allocator.SelectTasks: a scheduler configuration other than the default, which the scheduler never passes, and float32 rounding are not modelled.
- FileLog.FileSagaLog.LogMessage: file names are taken to be new, and partial writes and file system errors are not modelled.
- In-memory log garbage collection, logging, statistics, real time and backoff.
- Scheduler.NextKeepsInv: which failures mark the node of an attempt as flaky is arbitrary here; the code does so for failed calls and for the states FAILED, UNKNOWN and BADREQUEST.
- Queue.QueueController.Abort: the wait for the run's final status inside the loop is not modelled; the invoker is taken to end each run with a done status.
- TaskRunner.RunAndWait: the command's own timeout is the worker's to apply and shows only as an answer without a status; a worker that answers with a state it was not asked for could keep the loop going, and is excluded.
- Dirent.ReadDirectory: the page size is compared in 32 bits, so listings of four gigabytes and more are excluded, as are pages too small for the very entry they start at; the byte order is that of little-endian machines.
- Ice: construction is modelled on keys and provider functions; reflection and the wrapping of panics are not.
- The asynchronous mailbox, the invoker, execers, filers, RPC clients and servers, and command line tools: mostly input and output.
