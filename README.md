# AndroidGo autils: task executor, main-thread executor and thread pools in Dafny

This project is a sequential model of the asynchronous-task core of the autils Android library, with proofs about it. The core has four parts:

- **ATaskExecutor.** A registry from tag to the tasks submitted under it, and the lifecycle of a `Task`. A task's two flags, `isCancelled` and `isInterrupted`, decide which messages its worker step (`run`) sends to the main-thread `TaskHandler`, and which callbacks the handler then runs. It also keeps a table of delayed runnables, each with its own single-use scheduler.
- **AMainThreadExecutor.** Runnables posted to the main thread's handler. A runnable may be posted under a tag, so that it can later be cancelled by tag.
- **ThreadUtils.** Two lazily created worker pools chosen by a type code; `getThreadPool`; a global `reset`; and `AThreadFactory`, which names threads "AsyncTask #n" from a shared counter and gives them a priority.
- **AppContext.** The package name with its ":process" suffix stripped, computed once and cached. Also the process-list searches behind the current process name, the foreground test and the main-process test.

Each static state holder is one object:
- `TaskExecution.TaskExecutor` holds `runningTasks`, `scheduledTaskMap`, the error processor and the TaskHandler's message queue. It also keeps the trace of callbacks run so far.
- `MainThread.MainThreadExecutor` holds `runnablesMap` and the handler queue.
- `Threading.ThreadUtils` holds the two pool slots.
- `App.AppContext` holds `sContext`, `DEBUGGABLE` and `sPackageName`.

Java `null` arguments become `Option` values or nullable references. An `IllegalArgumentException` becomes the result `Status.IllegalArgument(message)`, with the same message text, and leaves the state unchanged.

Threads become explicit steps:
- `Task.Run` is one worker step. It takes the outcome of the user's `executeTask`, and optionally a `cancel(interrupt)` that arrives while `executeTask` runs.
- `TaskExecutor.DispatchNext` is one turn of the main looper.
- The `*Scenarios` modules drive whole lifecycles and state the exact callback trace each one produces.

Files:
- `common.dfy`: tags, runnables, `Option`, `Status`.
- `seq_ops.dfy`: `List.remove(Object)`.
- `tag_lists.dfy`: the tag → list registry shared by both executors.
- `decimal.dfy`: Java `int` to decimal text.
- `thread_utils.dfy`, `task_executor.dfy`, `task_scenarios.dfy`, `main_thread_executor.dfy`, `main_thread_scenarios.dfy`, `app_context.dfy`: one file per part of the core, plus the scenario modules.

In the table, paths are relative to the repository root.

## Model

| member | source | states |
|---|---|---|
| SeqOps.RemoveFirst | autils2/src/main/java/com/github/p0sitive/autils/task/ATaskExecutor.java:249 | removing by identity drops the first equal element and keeps the rest in order; a list without the element is unchanged |
| SeqOps.RemoveFirstMultiset | autils2/src/main/java/com/github/p0sitive/autils/task/ATaskExecutor.java:176 | exactly one occurrence of the element leaves the list |
| SeqOps.RemoveFirstOfAppended | autils2/src/main/java/com/github/p0sitive/autils/task/ATaskExecutor.java:74 | removing the only occurrence of a just-appended element gives back the list before the append |
| TagLists.Append | autils2/src/main/java/com/github/p0sitive/autils/task/ATaskExecutor.java:70-76 | the tag's list, created if absent, gains the element at its end; other tags are unchanged; no tag gets an empty list |
| TagLists.AppendIfAbsent | autils2/src/main/java/com/github/p0sitive/autils/task/AMainThreadExecutor.java:80-87 | the element is added only when the tag's list lacks it, so its count there is unchanged or becomes 1 |
| TagLists.RemoveOne | autils2/src/main/java/com/github/p0sitive/autils/task/ATaskExecutor.java:246-256 | the tag's list loses its first occurrence of the element; the tag is dropped once its list is empty; a missing tag and other tags are untouched; no empty list is ever kept |
| TagLists.AppendThenRemoveOne | autils2/src/main/java/com/github/p0sitive/autils/task/ATaskExecutor.java:246-256 | registering a task and then deregistering it restores the registry exactly, including the absence of a new tag |
| TagLists.RemoveOneMultiset | autils2/src/main/java/com/github/p0sitive/autils/task/AMainThreadExecutor.java:104-112 | deregistering removes exactly one occurrence from the tag's list |
| Decimal.NatToString | autils2/src/main/java/com/github/p0sitive/autils/task/ThreadUtils.java:129 | at least one digit, all digits, no leading zero for a positive number, and "0" for zero |
| Decimal.IntToString | autils2/src/main/java/com/github/p0sitive/autils/task/ThreadUtils.java:129 | the decimal form starts with '-' exactly for negative numbers, and the first digit is '0' only for zero, as `Integer.toString` writes it |
| Decimal.ValueOfNatToString | autils2/src/main/java/com/github/p0sitive/autils/task/ThreadUtils.java:129 | reading back the decimal digits gives the number |
| Decimal.NatToStringInjective | autils2/src/main/java/com/github/p0sitive/autils/task/ThreadUtils.java:129 | different non-negative counter values have different digit strings |
| Decimal.IntToStringInjective | autils2/src/main/java/com/github/p0sitive/autils/task/ThreadUtils.java:129 | different counter values print differently |
| Threading.RouteAndSlotDiffer | autils2/src/main/java/com/github/p0sitive/autils/task/ThreadUtils.java:79-89 | `execute` and `getThreadPool` agree on every type code except TYPE_RIGHT_NOW_LOCAL, which runs on the right-now pool but is looked up as null |
| Threading.PriorityFor | autils2/src/main/java/com/github/p0sitive/autils/task/ThreadUtils.java:132-136 | a thread gets MAX or MIN priority |
| Threading.PriorityFollowsRoute | autils2/src/main/java/com/github/p0sitive/autils/task/ThreadUtils.java:132-136 | MAX priority exactly for the type codes routed to the right-now pool |
| Threading.ThreadNameInjective | autils2/src/main/java/com/github/p0sitive/autils/task/ThreadUtils.java:129 | two counter values give the same thread name only if they are equal |
| Threading.CountAfterBeforeWrap | autils2/src/main/java/com/github/p0sitive/autils/task/ThreadUtils.java:120 | before it reaches Integer.MAX_VALUE, the shared counter has the value one more than the number of threads made |
| Threading.DistinctThreadNames | autils2/src/main/java/com/github/p0sitive/autils/task/ThreadUtils.java:129 | the first thread is "AsyncTask #1" and, before the counter wraps, no two threads share a name |
| Threading.ThreadCounter.GetAndIncrement | autils2/src/main/java/com/github/p0sitive/autils/task/ThreadUtils.java:120 | returns the old value and advances it with 32-bit wrap-around |
| Threading.AThreadFactory.NewThread | autils2/src/main/java/com/github/p0sitive/autils/task/ThreadUtils.java:128-138 | the thread runs the runnable, is named from the old counter value with the factory's type priority, and the counter advances |
| Threading.ThreadPool.Execute | autils2/src/main/java/com/github/p0sitive/autils/task/ThreadUtils.java:52 | a live pool records the submission at the end; a shut-down pool takes nothing |
| Threading.ThreadPool.ShutdownNow | autils2/src/main/java/com/github/p0sitive/autils/task/ThreadUtils.java:95 | the pool is shut down |
| Threading.ThreadUtils.Execute | autils2/src/main/java/com/github/p0sitive/autils/task/ThreadUtils.java:46-77 | the routed slot gets a pool (reused if present, else new with that slot's sizes, queue and a factory of the given type) that receives the runnable unless it has been shut down (then it takes nothing and stays in its slot); the other slot is untouched; an unknown type changes nothing |
| Threading.ThreadUtils.GetThreadPool | autils2/src/main/java/com/github/p0sitive/autils/task/ThreadUtils.java:79-89 | the inner slot for TYPE_INNER, the right-now slot for TYPE_RIGHT_NOW, null otherwise |
| Threading.ThreadUtils.Reset | autils2/src/main/java/com/github/p0sitive/autils/task/ThreadUtils.java:91-108 | both existing pools are shut down and both slots are empty |
| Threading.ShutdownPoolStaysInSlot | autils2/src/main/java/com/github/p0sitive/autils/task/ThreadUtils.java:49-52 | a pool that a `getThreadPool` caller shuts down stays in its slot and rejects every later runnable of its type |
| Threading.ResetRecreatesPools | autils2/src/main/java/com/github/p0sitive/autils/task/ThreadUtils.java:91-108 | after a reset the next submission goes to a different, new pool that holds only it; TYPE_RIGHT_NOW_LOCAL work is in the pool reported for TYPE_RIGHT_NOW |
| TaskExecution.CancelFlags | autils2/src/main/java/com/github/p0sitive/autils/task/ATaskExecutor.java:215-225 | cancel always leaves the task cancelled; a cancelled task is unchanged; otherwise it is interrupted iff it was or interruption is asked for |
| TaskExecution.CancelIsIdempotent | autils2/src/main/java/com/github/p0sitive/autils/task/ATaskExecutor.java:215-225 | a second cancel is a no-op; cancel(false) then cancel(true) leaves the task not interrupted; cancel(true) on a fresh task sets both flags |
| TaskExecution.DoInBackground | autils2/src/main/java/com/github/p0sitive/autils/task/ATaskExecutor.java:352-366 | a cancelled task fails with "task already canceled" without running; otherwise the result is the returned value or the caught throwable |
| TaskExecution.WorkerSendsAtMostOne | autils2/src/main/java/com/github/p0sitive/autils/task/ATaskExecutor.java:268-295 | a run sends at most one message, always about this task; POST_EXECUTE iff interrupted at neither checkpoint; CANCLE iff it stopped at a checkpoint while tagged and cancelled |
| TaskExecution.HandlingRunsOneOutcome | autils2/src/main/java/com/github/p0sitive/autils/task/ATaskExecutor.java:318-343 | handling POST_EXECUTE for a task that is not interrupted starts with onTaskFinish and runs exactly one of onTaskSuccess/onTaskError; an interrupted task gets none; CANCLE runs onCancelled exactly once |
| TaskExecution.DropDelayed | autils2/src/main/java/com/github/p0sitive/autils/task/ATaskExecutor.java:118-121 | the runnable's entry is gone; the tag is dropped iff it had no other runnable; other tags are untouched; no empty runnable map remains |
| TaskExecution.Scheduler.ShutdownNow | autils2/src/main/java/com/github/p0sitive/autils/task/ATaskExecutor.java:117 | the scheduler is terminated |
| TaskExecution.Task.Cancel | autils2/src/main/java/com/github/p0sitive/autils/task/ATaskExecutor.java:215-225 | the flags become CancelFlags of the old flags; the tag is kept |
| TaskExecution.Task.Interrupt | autils2/src/main/java/com/github/p0sitive/autils/task/ATaskExecutor.java:263-265 | sets isInterrupted only |
| TaskExecution.Task.Finish | autils2/src/main/java/com/github/p0sitive/autils/task/ATaskExecutor.java:230-257 | a task without a tag changes nothing; otherwise one CANCLE is sent iff it is cancelled, and it is deregistered by identity with the tag pruned when empty |
| TaskExecution.Task.Run | autils2/src/main/java/com/github/p0sitive/autils/task/ATaskExecutor.java:268-295 | the queue grows by exactly the worker's messages, the registry changes only when the run stops at a checkpoint, and the flags reflect the concurrent cancel |
| TaskExecution.Task.PublishProgress | autils2/src/main/java/com/github/p0sitive/autils/task/ATaskExecutor.java:368-380 | a PROGRESS_UPDATE is queued iff the task is not cancelled |
| TaskExecution.Task.OnPostExecute | autils2/src/main/java/com/github/p0sitive/autils/task/ATaskExecutor.java:382-394 | finish, then onTaskFinish, then onTaskSuccess with the value or onTaskError with the throwable as an Exception (wrapped when it is not one) |
| TaskExecution.Task.OnTaskError | autils2/src/main/java/com/github/p0sitive/autils/task/ATaskExecutor.java:410-414 | the hook runs, and the common processor receives the same error iff one is set and the task keeps the default hook |
| TaskExecution.TaskExecutor.SetCommonTaskErrorProcessor | autils2/src/main/java/com/github/p0sitive/autils/task/ATaskExecutor.java:38-40 | only the processor changes |
| TaskExecution.PoolTypeFor | autils2/src/main/java/com/github/p0sitive/autils/task/ATaskExecutor.java:64-68 | a user-type task is routed to the right-now pool and every other type to the inner pool |
| TaskExecution.TaskExecutor.ExecuteTask | autils2/src/main/java/com/github/p0sitive/autils/task/ATaskExecutor.java:51-77 | null tag or task is rejected with nothing changed; otherwise onPreTask runs, the tag is stamped, the task goes to the right-now pool (user type) or the inner pool, and is appended to its tag's list |
| TaskExecution.TaskExecutor.ExecuteDelayTask | autils2/src/main/java/com/github/p0sitive/autils/task/ATaskExecutor.java:80-99 | null arguments and delay <= 0 are rejected; otherwise the tag's runnable map becomes a singleton with a new, running scheduler for this runnable |
| TaskExecution.TaskExecutor.ExecuteDelayTaskKeepingOthers | autils2/src/main/java/com/github/p0sitive/autils/task/ATaskExecutor.java:91-95 | as ExecuteDelayTask, but the tag's other runnables keep their schedulers |
| TaskExecution.TaskExecutor.CancelDelayTask | autils2/src/main/java/com/github/p0sitive/autils/task/ATaskExecutor.java:101-125 | a scheduler that has not terminated is shut down and its bookkeeping dropped (the tag too if it is left empty); otherwise nothing changes; no other scheduler is touched |
| TaskExecution.TaskExecutor.CancelAllDelayTasks | autils2/src/main/java/com/github/p0sitive/autils/task/ATaskExecutor.java:127-146 | every scheduler under the tag is terminated and the tag is gone; other tags are unchanged |
| TaskExecution.TaskExecutor.CancleAllTasksByTag | autils2/src/main/java/com/github/p0sitive/autils/task/ATaskExecutor.java:148-162 | every task tracked under the tag receives cancel(true) and the tag is gone; other tags are untouched, and an unknown tag is a no-op |
| TaskExecution.TaskExecutor.CancleSpecificTask | autils2/src/main/java/com/github/p0sitive/autils/task/ATaskExecutor.java:164-184 | the task receives cancel(true) and loses one registration under the tag, which is pruned when empty |
| TaskExecution.TaskExecutor.HandleMessage | autils2/src/main/java/com/github/p0sitive/autils/task/ATaskExecutor.java:318-343 | the trace grows by exactly the handler's callbacks for the message and the task's state at handling time; only POST_EXECUTE can send CANCLE or deregister |
| TaskExecution.TaskExecutor.DispatchNext | autils2/src/main/java/com/github/p0sitive/autils/task/ATaskExecutor.java:308-315 | the oldest message is taken and handled; an empty queue changes nothing |
| TaskScenarios.CancelBeforeRun | autils2/src/main/java/com/github/p0sitive/autils/task/ATaskExecutor.java:270-273 | cancelled by tag before running, a task gets onPreTask and one onCancelled, nothing else, and is deregistered |
| TaskScenarios.CancelAfterRunBeforeHandling | autils2/src/main/java/com/github/p0sitive/autils/task/ATaskExecutor.java:327-331 | cancelled after its result is queued, a task gets no success callback and exactly one onCancelled |
| TaskScenarios.RunToSuccess | autils2/src/main/java/com/github/p0sitive/autils/task/ATaskExecutor.java:382-386 | onPreTask, onTaskFinish, onTaskSuccess(42), and the tag is pruned |
| TaskScenarios.CancelWithoutInterrupt | autils2/src/main/java/com/github/p0sitive/autils/task/ATaskExecutor.java:355-360 | cancel(false) before running yields onTaskError("task already canceled") and then onCancelled |
| TaskScenarios.SuccessAfterCancelAll | autils2/src/main/java/com/github/p0sitive/autils/task/ATaskExecutor.java:215-218 | after cancel(false), cancel-by-tag does not interrupt, so a queued success is still delivered |
| TaskScenarios.ProgressBeforeResult | autils2/src/main/java/com/github/p0sitive/autils/task/ATaskExecutor.java:368-380 | progress updates arrive in publication order, before the result |
| TaskScenarios.ErrorReachesProcessor | autils2/src/main/java/com/github/p0sitive/autils/task/ATaskExecutor.java:388-392 | a non-Exception throwable reaches onTaskError and the common processor wrapped in an Exception |
| TaskScenarios.NullTagRejected | autils2/src/main/java/com/github/p0sitive/autils/task/ATaskExecutor.java:52-54 | a null tag is rejected before onPreTask and before tagging |
| TaskScenarios.DelayedTaskLeaksAsWritten | autils2/src/main/java/com/github/p0sitive/autils/task/ATaskExecutor.java:91-95 | of two delayed runnables under one tag, the first one's scheduler survives cancelAllDelayTasks and stays unreachable |
| TaskScenarios.DelayedTasksAllCancelledWhenKept | autils2/src/main/java/com/github/p0sitive/autils/task/ATaskExecutor.java:137-145 | with the corrected scheduling, cancelAllDelayTasks stops both schedulers |
| MainThread.InsertionPoint | autils2/src/main/java/com/github/p0sitive/autils/task/AMainThreadExecutor.java:33 | a message is placed after every leading entry due no later than it, before the first due later |
| MainThread.EnqueueSplices | autils2/src/main/java/com/github/p0sitive/autils/task/AMainThreadExecutor.java:33 | posting inserts the entry at its time slot and keeps the others in order, first-in first-out among equal due times |
| MainThread.EnqueueMultiset | autils2/src/main/java/com/github/p0sitive/autils/task/AMainThreadExecutor.java:33 | posting adds exactly the one entry |
| MainThread.EnqueueKeepsOrder | autils2/src/main/java/com/github/p0sitive/autils/task/AMainThreadExecutor.java:88 | the queue remains ordered by due time |
| MainThread.EnqueueDueFrom | autils2/src/main/java/com/github/p0sitive/autils/task/AMainThreadExecutor.java:88 | a lower bound on due times survives posting an entry that meets it |
| MainThread.Purge | autils2/src/main/java/com/github/p0sitive/autils/task/AMainThreadExecutor.java:102 | removed runnables have no pending entry left |
| MainThread.PurgeKeepsOthers | autils2/src/main/java/com/github/p0sitive/autils/task/AMainThreadExecutor.java:102 | every entry of any other runnable stays, as many times as before |
| MainThread.PurgeKeepsOrder | autils2/src/main/java/com/github/p0sitive/autils/task/AMainThreadExecutor.java:102 | removal keeps the queue ordered by due time |
| MainThread.PurgeTwice | autils2/src/main/java/com/github/p0sitive/autils/task/AMainThreadExecutor.java:122-124 | removing callbacks one runnable at a time equals removing them all at once |
| MainThread.MainThreadExecutor.Post | autils2/src/main/java/com/github/p0sitive/autils/task/AMainThreadExecutor.java:29-34 | rejects a null runnable; otherwise queues it due now; the tag map is never touched |
| MainThread.MainThreadExecutor.PostTagged | autils2/src/main/java/com/github/p0sitive/autils/task/AMainThreadExecutor.java:36-50 | rejects null arguments; otherwise appends the runnable to the tag's list even if present and queues it due now |
| MainThread.MainThreadExecutor.PostAtFrontOfQueue | autils2/src/main/java/com/github/p0sitive/autils/task/AMainThreadExecutor.java:52-67 | rejects null arguments; otherwise appends to the tag's list and puts the runnable at the head of the queue |
| MainThread.MainThreadExecutor.PostDelayed | autils2/src/main/java/com/github/p0sitive/autils/task/AMainThreadExecutor.java:69-89 | rejects null arguments and delayMill <= 0; otherwise tracks the runnable only if absent and always queues it due after the delay |
| MainThread.MainThreadExecutor.RemoveCallbacks | autils2/src/main/java/com/github/p0sitive/autils/task/AMainThreadExecutor.java:102 | all pending instances of the runnable leave the queue |
| MainThread.MainThreadExecutor.CancelSpecificRunnable | autils2/src/main/java/com/github/p0sitive/autils/task/AMainThreadExecutor.java:91-114 | a tracked runnable loses all its pending instances and one tracking entry, with the tag pruned when empty; an untracked one changes nothing |
| MainThread.MainThreadExecutor.CancelAllRunnables | autils2/src/main/java/com/github/p0sitive/autils/task/AMainThreadExecutor.java:116-129 | every pending instance of every runnable tracked under the tag is removed, other entries stay, and the tag is gone |
| MainThread.MainThreadExecutor.RunNext | autils2/src/main/java/com/github/p0sitive/autils/task/AMainThreadExecutor.java:43-49 | the head runs once it is due; running never changes the tag map |
| MainThread.MainThreadExecutor.Advance | autils2/src/main/java/com/github/p0sitive/autils/task/AMainThreadExecutor.java:88 | time passes; nothing else changes |
| MainThreadScenarios.FrontFirstDelayedLast | autils2/src/main/java/com/github/p0sitive/autils/task/AMainThreadExecutor.java:52-89 | a front post runs before an earlier post; a delayed post runs only after its delay |
| MainThreadScenarios.CancelAllKeepsOthers | autils2/src/main/java/com/github/p0sitive/autils/task/AMainThreadExecutor.java:116-129 | cancelling a tag removes both pending instances of its runnable and keeps the untagged one |
| MainThreadScenarios.CancelAlsoDropsUntaggedPost | autils2/src/main/java/com/github/p0sitive/autils/task/AMainThreadExecutor.java:99-108 | cancelling a tagged runnable also removes an untagged pending post of it |
| MainThreadScenarios.RunRunnableStaysTracked | autils2/src/main/java/com/github/p0sitive/autils/task/AMainThreadExecutor.java:43-49 | a runnable that has run stays tracked under its tag |
| MainThreadScenarios.DelayedTrackedOnce | autils2/src/main/java/com/github/p0sitive/autils/task/AMainThreadExecutor.java:80-88 | two delayed posts of one runnable track it once and queue it twice |
| App.FirstWithPid | autils2/src/main/java/com/github/p0sitive/autils/AppContext.java:56-60 | the first index with the own pid, or none when no entry has it |
| App.CurrentProcessName | autils2/src/main/java/com/github/p0sitive/autils/AppContext.java:37-62 | the name of the first entry with the own pid; null without context, without activity manager, without list, after a caught exception, or without a match |
| App.HasForegroundEntry | autils2/src/main/java/com/github/p0sitive/autils/AppContext.java:81-85 | true iff some entry is both FOREGROUND and the own pid |
| App.IsAppOnForeground | autils2/src/main/java/com/github/p0sitive/autils/AppContext.java:69-89 | true iff a context, a manager and a list exist and some entry is FOREGROUND with the own pid |
| App.IsRunningInMainProcess | autils2/src/main/java/com/github/p0sitive/autils/AppContext.java:91-97 | true iff the query returns a list whose first entry with the own pid is named exactly as the context's raw package name, and that name is not empty |
| App.SecondaryProcessIsNotMain | autils2/src/main/java/com/github/p0sitive/autils/AppContext.java:91-97 | a secondary process "pkg:proc" is not the main process even though its name strips to "pkg": the test uses the raw name |
| App.ForegroundHasProcessName | autils2/src/main/java/com/github/p0sitive/autils/AppContext.java:69-89 | whenever the app is in the foreground, the process-name lookup finds an entry |
| App.LastIndexOf | autils2/src/main/java/com/github/p0sitive/autils/AppContext.java:110 | the last index of the character, or -1 exactly when it is absent |
| App.StripProcessSuffix | autils2/src/main/java/com/github/p0sitive/autils/AppContext.java:109-110 | a name without ':' is unchanged; otherwise the result is the strict prefix before the last ':' |
| App.StripUndoesProcessSuffix | autils2/src/main/java/com/github/p0sitive/autils/AppContext.java:109-110 | "pkg:process" with a colon-free process part strips back to pkg |
| App.StripKeepsEarlierColons | autils2/src/main/java/com/github/p0sitive/autils/AppContext.java:110 | only the last ':' is stripped: "a:b:c" gives "a:b" |
| App.AppContext.Init | autils2/src/main/java/com/github/p0sitive/autils/AppContext.java:22-24 | only the context changes; the cached package name stays |
| App.AppContext.OpenDebug | autils2/src/main/java/com/github/p0sitive/autils/AppContext.java:33-35 | only the debug flag changes, and it becomes true |
| App.AppContext.GetPackageName | autils2/src/main/java/com/github/p0sitive/autils/AppContext.java:106-115 | a cached name is returned unchanged; otherwise the stripped raw name is returned and cached; with no context, a NullPointerException |
| App.CachedNameSurvivesInit | autils2/src/main/java/com/github/p0sitive/autils/AppContext.java:107 | after a first lookup, a new context does not change the result |

## Left out

- Real threads, `volatile` and `synchronized`: every interleaving is a sequence of explicit steps. A cancel during `executeTask` is the `cancelDuring` parameter of `Task.Run`. One such cancel is enough, because later cancels do not change the flags.
- Races on the registry, such as a task finishing between its submission to a pool (ATaskExecutor.java:64-68) and its registration (:70-76). Submission only records the task with the pool; running it is the separate `Task.Run` step.
- `ThreadPoolExecutor` internals: keep-alive timing, saturation, the `RejectedHandler`'s logging (a rejected runnable is only dropped), active counts, and the debug-only deliberate null dereference when more than 45 threads are active (ThreadUtils.java:67-71). A pool is its descriptor plus the list of runnables submitted to it.
- `ScheduledExecutorService`: a scheduler is only a `terminated` flag, and the firing of its delayed runnable is not modelled. As in the source, a scheduler terminates only through `shutdownNow`: a single-thread scheduler keeps its thread waiting for more work after its runnable has run.
- Weak references: `WeakHashMap` entries that disappear with their key are not modelled. The maps are ordinary maps.
- Task parameters, `threadId` and the `killRuningHttpConnection` stub, none of which affect the bookkeeping. The user's `executeTask` is given as its outcome, a value or a throwable, and results are plain `int`s.
- `handleMessage` on a message without a result or task (ATaskExecutor.java:321-324): every modelled message carries its task.
- Android's `Handler`/`Looper` and the clock: `MainThreadExecutor.now`, moved by `Advance`, stands for `SystemClock.uptimeMillis`. The queue keeps MessageQueue's ordering by due time, but not message recycling or barriers.
- All logging, timing measurements and the `DEBUGGABLE` messages.
- AppContext's platform calls: `Process.myPid` is a parameter. `getSystemService` and `getRunningAppProcesses` are the supplied `Context` value. `getContext`, `getContentResolver`, `isRunningInMainThread`, `getSystemCountry` and `getSystemLanguage` only forward to the platform and are not modelled.
- App.GetPackageName: assumes the context's `getPackageName` is not null. The 32-bit wrap of `String.lastIndexOf` indices does not arise for `seq` lengths.

Behaviours of the code as written that a caller may not expect; the model follows the code:
- `cancel(false)` before a task runs does not stop it from reaching the error path. `doInBackground` yields "task already canceled", `onTaskError` runs, then `onCancelled` (TaskScenarios.CancelWithoutInterrupt). Only `cancel(true)` gives the "cancelled notify and no success or error" outcome.
- After `cancel(false)`, a later cancel-by-tag is a no-op, so a success that is already queued is still delivered (TaskScenarios.SuccessAfterCancelAll).
- `executeTask` submits the task to a pool before it registers it under the tag.
- `postDelayed` deduplicates against the tag's tracking list, not against the pending queue.
- `removeCallbacks` is not scoped by tag: cancelling a tagged runnable also removes untagged pending posts of the same runnable (MainThreadScenarios.CancelAlsoDropsUntaggedPost).
- A runnable that has run stays in `runnablesMap` until it is cancelled.

## Findings

| source | as written | input that shows it | evidently intended | confidence | as-written member | corrected member |
|---|---|---|---|---|---|---|
| autils2/src/main/java/com/github/p0sitive/autils/task/ATaskExecutor.java:91-95 | `executeDelayTask` puts a new single-entry runnable map under the tag, replacing the tag's previous map | `executeDelayTask(t, r1, 100)`, `executeDelayTask(t, r2, 100)`, then `cancelAllDelayTasks(t)`: r1's scheduler is never shut down, so its thread is never stopped | add the new runnable's scheduler to the tag's existing map, so that cancelling by tag reaches every delayed runnable | not executed; high | TaskScenarios.DelayedTaskLeaksAsWritten | TaskExecution.TaskExecutor.ExecuteDelayTaskKeepingOthers |
