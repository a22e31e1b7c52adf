/** ATaskExecutor: a registry of running tasks grouped by tag, the Task lifecycle split into a
    worker step (`run`) and handler steps (`handleMessage`) that communicate through one FIFO
    message queue, and a tag-scoped table of delayed runnables, each with its own scheduler.

    The static state of ATaskExecutor (the two maps, the error processor and the TaskHandler's
    queue) is one TaskExecutor object; the callbacks a task receives are recorded, in order, in
    its `trace`. */
module TaskExecution {
  import opened Common
  import opened SeqOps
  import TagLists
  import Threading

  const EXECUTOR_TYPE_USER := 0
  const EXECUTOR_TYPE_INNER := 1

  const DELAY_NOT_POSITIVE := "delay <= 0"

  /** A Java Throwable: an Exception, another throwable such as an Error, or the
      `new Exception(cause)` that wraps one. */
  datatype Throwable =
    | Exception(message: string)
    | NonException(message: string)
    | Wrapping(cause: Throwable)

  predicate IsException(t: Throwable)
  {
    t.Exception? || t.Wrapping?
  }

  const TASK_ALREADY_CANCELED := Exception("task already canceled")

  /** The ThreadUtils type a task of executor type `kind` is submitted with: TYPE_RIGHT_NOW for
      user tasks, TYPE_INNER for every other type. */
  function PoolTypeFor(kind: int): (t: int)
    ensures Threading.Route(t) == Some(if kind == EXECUTOR_TYPE_USER then Threading.RightNow else Threading.Inner)
  {
    if kind == EXECUTOR_TYPE_USER then Threading.TYPE_RIGHT_NOW else Threading.TYPE_INNER
  }

  /** What the user's `executeTask` does when it is called: return a value or throw. */
  datatype Outcome = Returned(value: int) | Threw(error: Throwable)

  /** The AsyncResult of `doInBackground`: a result, or the throwable it caught. */
  datatype Completion = Success(value: int) | Failure(error: Throwable)

  /** The three kinds of message TaskHandler receives. */
  datatype Message =
    | PostExecute(task: Task, completion: Completion)
    | ProgressUpdate(task: Task, progress: seq<int>)
    | Cancle(task: Task)

  /** An observable callback: one of the Task's hooks, or the common error processor. */
  datatype Event =
    | OnPreTask(task: Task)
    | OnTaskFinish(task: Task)
    | OnTaskSuccess(task: Task, value: int)
    | OnTaskError(task: Task, error: Throwable)
    | OnProgressUpdate(task: Task, progress: seq<int>)
    | OnCancelled(task: Task)
    | ProcessTaskError(error: Throwable)

  /** A task's `isCancelled` and `isInterrupted`. */
  datatype Flags = Flags(cancelled: bool, interrupted: bool)

  /** `cancel(interrupt)`: the first call marks the task cancelled and, if asked, interrupted;
      every later call changes nothing. */
  function CancelFlags(f: Flags, interrupt: bool): (g: Flags)
    ensures g.cancelled
    ensures f.cancelled ==> g == f
    ensures !f.cancelled ==> g.interrupted == (f.interrupted || interrupt)
  {
    if f.cancelled then f else Flags(true, f.interrupted || interrupt)
  }

  /** A second cancel is a no-op: after `cancel(false)` a `cancel(true)` does not interrupt. */
  lemma CancelIsIdempotent(f: Flags, first: bool, second: bool)
    ensures CancelFlags(CancelFlags(f, first), second) == CancelFlags(f, first)
    ensures CancelFlags(CancelFlags(Flags(false, false), false), true) == Flags(true, false)
    ensures CancelFlags(Flags(false, false), true) == Flags(true, true)
  {
  }

  /** `doInBackground`: a cancelled task does not call `executeTask` and fails with
      "task already canceled"; otherwise every throwable is caught into the result. */
  function DoInBackground(cancelled: bool, outcome: Outcome): (c: Completion)
    ensures cancelled ==> c == Failure(TASK_ALREADY_CANCELED)
    ensures !cancelled ==> (c.Success? <==> outcome.Returned?)
    ensures !cancelled && outcome.Returned? ==> c.value == outcome.value
    ensures !cancelled && outcome.Threw? ==> c.error == outcome.error
  {
    if cancelled then Failure(TASK_ALREADY_CANCELED)
    else match outcome
      case Returned(v) => Success(v)
      case Threw(e) => Failure(e)
  }

  /** The flags at the second checkpoint of `run`, after a cancel that may arrive while
      `executeTask` runs. */
  function FlagsAfterBackground(before: Flags, cancelDuring: Option<bool>): Flags
  {
    if cancelDuring.Some? then CancelFlags(before, cancelDuring.value) else before
  }

  /** What `finish` sends: one CANCLE message, exactly when the task has a tag and is cancelled. */
  function FinishMessages(t: Task, tag: Option<Tag>, cancelled: bool): seq<Message>
  {
    if tag.Some? && cancelled then [Cancle(t)] else []
  }

  /** What `finish` leaves of the registry: the task removed once from its tag's list. */
  function FinishRegistry(m: map<Tag, seq<Task>>, t: Task, tag: Option<Tag>): map<Tag, seq<Task>>
  {
    if tag.None? then m else TagLists.RemoveOne(m, tag.value, t)
  }

  /** The messages one `run` sends, given the task's tag and flags when it starts. */
  function WorkerMessages(t: Task, tag: Option<Tag>, before: Flags, outcome: Outcome, cancelDuring: Option<bool>): seq<Message>
  {
    if before.interrupted then FinishMessages(t, tag, before.cancelled)
    else
      var after := FlagsAfterBackground(before, cancelDuring);
      if after.interrupted then FinishMessages(t, tag, after.cancelled)
      else [PostExecute(t, DoInBackground(before.cancelled, outcome))]
  }

  /** The registry after one `run`: the task deregisters itself only when it stops at a checkpoint. */
  function WorkerRegistry(m: map<Tag, seq<Task>>, t: Task, tag: Option<Tag>, before: Flags, cancelDuring: Option<bool>): map<Tag, seq<Task>>
  {
    if before.interrupted || FlagsAfterBackground(before, cancelDuring).interrupted then FinishRegistry(m, t, tag) else m
  }

  /** A run sends at most one message. It sends POST_EXECUTE exactly when the task is interrupted
      at neither checkpoint, and CANCLE exactly when it stops at a checkpoint while tagged and
      cancelled. */
  lemma WorkerSendsAtMostOne(t: Task, tag: Option<Tag>, before: Flags, outcome: Outcome, cancelDuring: Option<bool>)
    ensures var ms := WorkerMessages(t, tag, before, outcome, cancelDuring);
      var after := FlagsAfterBackground(before, cancelDuring);
      var stopped := before.interrupted || after.interrupted;
      var atStop := if before.interrupted then before else after;
      && |ms| <= 1
      && ((ms != [] && ms[0].PostExecute?) <==> !stopped)
      && ((ms != [] && ms[0].Cancle?) <==> stopped && tag.Some? && atStop.cancelled)
      && (ms != [] ==> ms[0].task == t)
  {
  }

  /** What the default `onTaskError` produces: the hook itself, then the common processor when
      one is set and the task does not override the hook. */
  function ErrorCallbacks(t: Task, e: Throwable, hasErrorProcessor: bool): seq<Event>
  {
    [OnTaskError(t, e)] + if !t.overridesOnTaskError && hasErrorProcessor then [ProcessTaskError(e)] else []
  }

  /** The callbacks of `onPostExecute`: `onTaskFinish`, then success with the result or error with
      the throwable as an Exception (wrapped in `new Exception(..)` when it is not one). */
  function PostExecuteCallbacks(t: Task, c: Completion, hasErrorProcessor: bool): seq<Event>
  {
    [OnTaskFinish(t)] +
      match c
      case Success(v) => [OnTaskSuccess(t, v)]
      case Failure(e) => ErrorCallbacks(t, if IsException(e) then e else Wrapping(e), hasErrorProcessor)
  }

  /** The callbacks `handleMessage` runs for `msg`, given whether its task is interrupted now. */
  function HandlerCallbacks(msg: Message, interrupted: bool, hasErrorProcessor: bool): seq<Event>
  {
    match msg
    case PostExecute(t, c) => if interrupted then [] else PostExecuteCallbacks(t, c, hasErrorProcessor)
    case ProgressUpdate(t, p) => if interrupted then [] else [OnProgressUpdate(t, p)]
    case Cancle(t) => [OnCancelled(t)]
  }

  /** The messages `handleMessage` sends while handling `msg`: whatever `finish` sends, for a
      POST_EXECUTE message (interrupted or not). */
  function HandlerMessages(msg: Message, tag: Option<Tag>, cancelled: bool): seq<Message>
  {
    if msg.PostExecute? then FinishMessages(msg.task, tag, cancelled) else []
  }

  function HandlerRegistry(m: map<Tag, seq<Task>>, msg: Message, tag: Option<Tag>): map<Tag, seq<Task>>
  {
    if msg.PostExecute? then FinishRegistry(m, msg.task, tag) else m
  }

  /** How many success and error callbacks `es` holds. */
  function OutcomeCount(es: seq<Event>): nat
  {
    if es == [] then 0
    else (if es[0].OnTaskSuccess? || es[0].OnTaskError? then 1 else 0) + OutcomeCount(es[1..])
  }

  /** How many `onCancelled` callbacks `es` holds. */
  function CancelledCount(es: seq<Event>): nat
  {
    if es == [] then 0 else (if es[0].OnCancelled? then 1 else 0) + CancelledCount(es[1..])
  }

  lemma {:induction false} CountsOfConcat(a: seq<Event>, b: seq<Event>)
    ensures OutcomeCount(a + b) == OutcomeCount(a) + OutcomeCount(b)
    ensures CancelledCount(a + b) == CancelledCount(a) + CancelledCount(b)
  {
    if a == [] {
      assert a + b == b;
    } else {
      assert (a + b)[1..] == a[1..] + b;
      CountsOfConcat(a[1..], b);
    }
  }

  /** Handling one message runs exactly one of onTaskSuccess/onTaskError for a POST_EXECUTE whose
      task is not interrupted, none otherwise, and exactly one onCancelled for a CANCLE. */
  lemma HandlingRunsOneOutcome(msg: Message, interrupted: bool, hasErrorProcessor: bool)
    ensures OutcomeCount(HandlerCallbacks(msg, interrupted, hasErrorProcessor)) == if msg.PostExecute? && !interrupted then 1 else 0
    ensures CancelledCount(HandlerCallbacks(msg, interrupted, hasErrorProcessor)) == if msg.Cancle? then 1 else 0
    ensures msg.PostExecute? && !interrupted ==> HandlerCallbacks(msg, interrupted, hasErrorProcessor)[0] == OnTaskFinish(msg.task)
  {
    var es := HandlerCallbacks(msg, interrupted, hasErrorProcessor);
    if msg.PostExecute? && !interrupted {
      var t := msg.task;
      match msg.completion
      case Success(v) =>
        CountsOfConcat([OnTaskFinish(t)], [OnTaskSuccess(t, v)]);
      case Failure(e) =>
        var x := if IsException(e) then e else Wrapping(e);
        var tail := if !t.overridesOnTaskError && hasErrorProcessor then [ProcessTaskError(x)] else [];
        CountsOfConcat([OnTaskError(t, x)], tail);
        CountsOfConcat([OnTaskFinish(t)], ErrorCallbacks(t, x, hasErrorProcessor));
    }
  }

  /** The bookkeeping of delayed tasks after one runnable's scheduler is stopped: the runnable is
      dropped, and so is the tag once it has none left. */
  function DropDelayed(m: map<Tag, map<Runnable, Scheduler>>, t: Tag, r: Runnable): (d: map<Tag, map<Runnable, Scheduler>>)
    requires t in m
    ensures NoEmptyRunnableMaps(m) ==> NoEmptyRunnableMaps(d)
    ensures t in d ==> d[t].Keys == m[t].Keys - {r}
    ensures t !in d <==> m[t].Keys <= {r}
    ensures d.Keys - {t} == m.Keys - {t}
    ensures forall k :: k in m && k != t ==> k in d && d[k] == m[k]
  {
    var rest := m[t] - {r};
    assert rest.Keys == m[t].Keys - {r};
    if rest.Keys == {} then m - {t} else m[t := rest]
  }

  /** The invariant of the delayed-task table: no tag keeps an empty runnable map. */
  predicate NoEmptyRunnableMaps(m: map<Tag, map<Runnable, Scheduler>>)
  {
    forall k :: k in m ==> m[k] != map[]
  }

  /** The single-use scheduler of one delayed runnable, reduced to whether it has terminated. */
  class Scheduler {
    const job: Runnable
    var terminated: bool

    constructor (job: Runnable)
      ensures this.job == job && !terminated
    {
      this.job := job;
      terminated := false;
    }

    /** `shutdownNow`: the pending run is dropped and the scheduler terminates. */
    method ShutdownNow()
      modifies this
      ensures terminated
    {
      terminated := true;
    }
  }

  class Task {
    var isCancelled: bool
    var isInterrupted: bool
    var tag: Option<Tag>
    /** Whether the concrete task overrides `onTaskError`; the inherited hook forwards to the
        common error processor. */
    const overridesOnTaskError: bool

    /** The task's two flags together. */
    function State(): Flags
      reads this
    {
      Flags(isCancelled, isInterrupted)
    }

    constructor (overridesOnTaskError: bool)
      ensures !isCancelled && !isInterrupted && tag == None
      ensures this.overridesOnTaskError == overridesOnTaskError
    {
      isCancelled := false;
      isInterrupted := false;
      tag := None;
      this.overridesOnTaskError := overridesOnTaskError;
    }

    method Cancel(interrupt: bool)
      modifies this
      ensures State() == CancelFlags(old(State()), interrupt)
      ensures tag == old(tag)
    {
      if isCancelled {
        return;
      }
      isCancelled := true;
      if interrupt && !isInterrupted {
        Interrupt();
      }
    }

    /** `interrupt` (IInterruptable): sets the interrupt flag and nothing else. */
    method Interrupt()
      modifies this
      ensures isInterrupted && isCancelled == old(isCancelled) && tag == old(tag)
    {
      isInterrupted := true;
    }

    /** Sends CANCLE if the task is cancelled and deregisters it from its tag; a task that was
        never submitted (no tag) does nothing at all. */
    method Finish(exec: TaskExecutor)
      requires exec.Valid()
      modifies exec
      ensures exec.Valid()
      ensures exec.queue == old(exec.queue) + FinishMessages(this, tag, isCancelled)
      ensures exec.runningTasks == FinishRegistry(old(exec.runningTasks), this, tag)
      ensures exec.trace == old(exec.trace) && exec.scheduledTaskMap == old(exec.scheduledTaskMap)
      ensures exec.hasErrorProcessor == old(exec.hasErrorProcessor)
    {
      if tag.None? {
        return;
      }
      if isCancelled {
        exec.queue := exec.queue + [Cancle(this)];
      }
      exec.runningTasks := TagLists.RemoveOne(exec.runningTasks, tag.value, this);
    }

    /** The worker step, `run`: stop at once if interrupted; otherwise compute the result with
        `doInBackground`, during which a cancel may arrive (`cancelDuring`), and then either stop
        (interrupted) or send POST_EXECUTE with the result. */
    method Run(exec: TaskExecutor, outcome: Outcome, cancelDuring: Option<bool>)
      requires exec.Valid()
      modifies this, exec
      ensures exec.Valid()
      ensures State() == (if old(isInterrupted) then old(State()) else FlagsAfterBackground(old(State()), cancelDuring))
      ensures tag == old(tag)
      ensures exec.queue == old(exec.queue) + WorkerMessages(this, tag, old(State()), outcome, cancelDuring)
      ensures exec.runningTasks == WorkerRegistry(old(exec.runningTasks), this, tag, old(State()), cancelDuring)
      ensures exec.trace == old(exec.trace) && exec.scheduledTaskMap == old(exec.scheduledTaskMap)
      ensures exec.hasErrorProcessor == old(exec.hasErrorProcessor)
    {
      if isInterrupted {
        Finish(exec);
        return;
      }
      var result := DoInBackground(isCancelled, outcome);
      if cancelDuring.Some? {
        Cancel(cancelDuring.value);
      }
      if isInterrupted {
        Finish(exec);
        return;
      }
      exec.queue := exec.queue + [PostExecute(this, result)];
    }

    /** Sends a PROGRESS_UPDATE message unless the task is cancelled. */
    method PublishProgress(exec: TaskExecutor, progress: seq<int>)
      modifies exec
      ensures exec.queue == old(exec.queue) + (if isCancelled then [] else [ProgressUpdate(this, progress)])
      ensures exec.runningTasks == old(exec.runningTasks) && exec.trace == old(exec.trace)
      ensures exec.scheduledTaskMap == old(exec.scheduledTaskMap) && exec.hasErrorProcessor == old(exec.hasErrorProcessor)
    {
      if !isCancelled {
        exec.queue := exec.queue + [ProgressUpdate(this, progress)];
      }
    }

    /** `finish`, then `onTaskFinish`, then exactly one of `onTaskSuccess`/`onTaskError`. */
    method OnPostExecute(exec: TaskExecutor, c: Completion)
      requires exec.Valid()
      modifies exec
      ensures exec.Valid()
      ensures exec.trace == old(exec.trace) + PostExecuteCallbacks(this, c, exec.hasErrorProcessor)
      ensures exec.queue == old(exec.queue) + FinishMessages(this, tag, isCancelled)
      ensures exec.runningTasks == FinishRegistry(old(exec.runningTasks), this, tag)
      ensures exec.scheduledTaskMap == old(exec.scheduledTaskMap) && exec.hasErrorProcessor == old(exec.hasErrorProcessor)
    {
      Finish(exec);
      exec.trace := exec.trace + [OnTaskFinish(this)];
      match c {
        case Success(v) =>
          exec.trace := exec.trace + [OnTaskSuccess(this, v)];
        case Failure(e) =>
          if IsException(e) {
            OnTaskError(exec, e);
          } else {
            OnTaskError(exec, Wrapping(e));
          }
      }
    }

    /** The default `onTaskError`: forwards to the common error processor only when one is set. */
    method OnTaskError(exec: TaskExecutor, e: Throwable)
      modifies exec
      ensures exec.trace == old(exec.trace) + ErrorCallbacks(this, e, exec.hasErrorProcessor)
      ensures exec.queue == old(exec.queue) && exec.runningTasks == old(exec.runningTasks)
      ensures exec.scheduledTaskMap == old(exec.scheduledTaskMap) && exec.hasErrorProcessor == old(exec.hasErrorProcessor)
    {
      exec.trace := exec.trace + [Event.OnTaskError(this, e)];
      if !overridesOnTaskError && exec.hasErrorProcessor {
        exec.trace := exec.trace + [ProcessTaskError(e)];
      }
    }
  }

  class TaskExecutor {
    /** `runningTasks`: the tasks submitted under each tag and not yet finished or cancelled. */
    var runningTasks: map<Tag, seq<Task>>
    /** `scheduledTaskMap`: per tag, the scheduler of each delayed runnable. */
    var scheduledTaskMap: map<Tag, map<Runnable, Scheduler>>
    /** Whether a common task-error processor has been set. */
    var hasErrorProcessor: bool
    /** The TaskHandler's pending messages, oldest first. */
    var queue: seq<Message>
    /** Every callback run so far, in order. */
    var trace: seq<Event>

    ghost predicate Valid()
      reads this
    {
      TagLists.NoEmptyEntries(runningTasks) && NoEmptyRunnableMaps(scheduledTaskMap)
    }

    constructor ()
      ensures Valid()
      ensures runningTasks == map[] && scheduledTaskMap == map[] && !hasErrorProcessor
      ensures queue == [] && trace == []
    {
      runningTasks := map[];
      scheduledTaskMap := map[];
      hasErrorProcessor := false;
      queue := [];
      trace := [];
    }

    /** The tasks `cancleAllTasksByTag` reaches. */
    function TrackedUnder(tag: Option<Tag>): set<Task>
      reads this
    {
      if tag.None? then {} else set t | t in TagLists.ListOf(runningTasks, tag.value)
    }

    /** The schedulers the delayed-task cancels may stop. */
    function SchedulersOf(tag: Option<Tag>): set<Scheduler>
      reads this
    {
      if tag.Some? && tag.value in scheduledTaskMap then scheduledTaskMap[tag.value].Values else {}
    }

    method SetCommonTaskErrorProcessor(present: bool)
      modifies this
      ensures hasErrorProcessor == present
      ensures runningTasks == old(runningTasks) && scheduledTaskMap == old(scheduledTaskMap)
      ensures queue == old(queue) && trace == old(trace)
    {
      hasErrorProcessor := present;
    }

    /** `executeTask`: rejects a null tag or task before changing anything; otherwise runs
        `onPreTask`, stamps the tag, submits the task to the right-now pool (user type) or the
        inner pool (any other type) and appends it to the tag's list. */
    method ExecuteTask(kind: int, tag: Option<Tag>, task: Task?, pools: Threading.ThreadUtils<Task>) returns (st: Status)
      requires Valid() && pools.Valid()
      modifies this, task, pools, pools.Pools()
      ensures Valid() && pools.Valid()
      ensures st == if tag.None? then IllegalArgument(TAG_IS_NULL)
                    else if task == null then IllegalArgument(TASK_IS_NULL)
                    else Ok
      ensures st.IllegalArgument? ==>
        && runningTasks == old(runningTasks) && trace == old(trace)
        && pools.innerPool == old(pools.innerPool) && pools.rightNowPool == old(pools.rightNowPool)
        && pools.SubmittedTo(Threading.Inner) == old(pools.SubmittedTo(Threading.Inner))
        && pools.SubmittedTo(Threading.RightNow) == old(pools.SubmittedTo(Threading.RightNow))
      ensures st.Ok? ==>
        var c := Threading.Route(PoolTypeFor(kind)).value;
        && trace == old(trace) + [OnPreTask(task)]
        && task.tag == tag && task.State() == old(task.State())
        && runningTasks == TagLists.Append(old(runningTasks), tag.value, task)
        && pools.SubmittedTo(c) == old(pools.SubmittedTo(c)) + (if old(pools.Accepts(c)) then [task] else [])
        && pools.SubmittedTo(Threading.Other(c)) == old(pools.SubmittedTo(Threading.Other(c)))
      ensures task != null && st.IllegalArgument? ==> task.tag == old(task.tag) && task.State() == old(task.State())
      ensures queue == old(queue) && scheduledTaskMap == old(scheduledTaskMap) && hasErrorProcessor == old(hasErrorProcessor)
    {
      if tag.None? {
        return IllegalArgument(TAG_IS_NULL);
      }
      if task == null {
        return IllegalArgument(TASK_IS_NULL);
      }
      trace := trace + [OnPreTask(task)];
      task.tag := tag;
      pools.Execute(PoolTypeFor(kind), task);
      runningTasks := TagLists.Append(runningTasks, tag.value, task);
      st := Ok;
    }

    /** `executeDelayTask` as written: after the argument checks, the tag's runnable map is
        replaced by a new map holding only this runnable and its new scheduler. */
    method ExecuteDelayTask(tag: Option<Tag>, runnable: Option<Runnable>, delay: int) returns (st: Status)
      requires Valid()
      modifies this
      ensures Valid()
      ensures st == if tag.None? then IllegalArgument(TAG_IS_NULL)
                    else if runnable.None? then IllegalArgument(RUNNABLE_IS_NULL)
                    else if delay <= 0 then IllegalArgument(DELAY_NOT_POSITIVE)
                    else Ok
      ensures st.IllegalArgument? ==> scheduledTaskMap == old(scheduledTaskMap)
      ensures st.Ok? ==>
        var t, r := tag.value, runnable.value;
        && scheduledTaskMap.Keys == old(scheduledTaskMap).Keys + {t}
        && scheduledTaskMap[t].Keys == {r}
        && fresh(scheduledTaskMap[t][r]) && !scheduledTaskMap[t][r].terminated && scheduledTaskMap[t][r].job == r
        && forall k :: k in old(scheduledTaskMap) && k != t ==> scheduledTaskMap[k] == old(scheduledTaskMap)[k]
      ensures runningTasks == old(runningTasks) && queue == old(queue) && trace == old(trace)
      ensures hasErrorProcessor == old(hasErrorProcessor)
    {
      if tag.None? {
        return IllegalArgument(TAG_IS_NULL);
      }
      if runnable.None? {
        return IllegalArgument(RUNNABLE_IS_NULL);
      }
      if delay <= 0 {
        return IllegalArgument(DELAY_NOT_POSITIVE);
      }
      var scheduler := new Scheduler(runnable.value);
      var runnables := map[runnable.value := scheduler];
      assert runnable.value in runnables;
      scheduledTaskMap := scheduledTaskMap[tag.value := runnables];
      st := Ok;
    }

    /** `executeDelayTask` as evidently intended: the new scheduler is added to the tag's runnable
        map, so the schedulers of the tag's other runnables stay reachable for cancellation. */
    method ExecuteDelayTaskKeepingOthers(tag: Option<Tag>, runnable: Option<Runnable>, delay: int) returns (st: Status)
      requires Valid()
      modifies this
      ensures Valid()
      ensures st == if tag.None? then IllegalArgument(TAG_IS_NULL)
                    else if runnable.None? then IllegalArgument(RUNNABLE_IS_NULL)
                    else if delay <= 0 then IllegalArgument(DELAY_NOT_POSITIVE)
                    else Ok
      ensures st.IllegalArgument? ==> scheduledTaskMap == old(scheduledTaskMap)
      ensures st.Ok? ==>
        var t, r := tag.value, runnable.value;
        && scheduledTaskMap.Keys == old(scheduledTaskMap).Keys + {t}
        && scheduledTaskMap[t].Keys == (if t in old(scheduledTaskMap) then old(scheduledTaskMap)[t].Keys else {}) + {r}
        && fresh(scheduledTaskMap[t][r]) && !scheduledTaskMap[t][r].terminated && scheduledTaskMap[t][r].job == r
        && (forall r' :: r' in scheduledTaskMap[t] && r' != r ==> scheduledTaskMap[t][r'] == old(scheduledTaskMap)[t][r'])
        && forall k :: k in old(scheduledTaskMap) && k != t ==> scheduledTaskMap[k] == old(scheduledTaskMap)[k]
      ensures runningTasks == old(runningTasks) && queue == old(queue) && trace == old(trace)
      ensures hasErrorProcessor == old(hasErrorProcessor)
    {
      if tag.None? {
        return IllegalArgument(TAG_IS_NULL);
      }
      if runnable.None? {
        return IllegalArgument(RUNNABLE_IS_NULL);
      }
      if delay <= 0 {
        return IllegalArgument(DELAY_NOT_POSITIVE);
      }
      var scheduler := new Scheduler(runnable.value);
      var runnables: map<Runnable, Scheduler> := if tag.value in scheduledTaskMap then scheduledTaskMap[tag.value] else map[];
      runnables := runnables[runnable.value := scheduler];
      assert runnable.value in runnables;
      scheduledTaskMap := scheduledTaskMap[tag.value := runnables];
      st := Ok;
    }

    /** `cancelDelayTask`: a runnable whose scheduler has not terminated has it shut down and is
        dropped from the bookkeeping (with its tag, if that leaves the tag empty); otherwise
        nothing changes. */
    method CancelDelayTask(tag: Option<Tag>, runnable: Option<Runnable>) returns (st: Status)
      requires Valid()
      modifies this, SchedulersOf(tag)
      ensures Valid()
      ensures st == if tag.None? then IllegalArgument(TAG_IS_NULL)
                    else if runnable.None? then IllegalArgument(RUNNABLE_IS_NULL)
                    else Ok
      ensures st.IllegalArgument? ==> scheduledTaskMap == old(scheduledTaskMap)
      ensures st.Ok? ==>
        var t, r := tag.value, runnable.value;
        if t in old(scheduledTaskMap) && r in old(scheduledTaskMap)[t] && !old(scheduledTaskMap[t][r].terminated)
        then old(scheduledTaskMap)[t][r].terminated && scheduledTaskMap == DropDelayed(old(scheduledTaskMap), t, r)
        else scheduledTaskMap == old(scheduledTaskMap)
      ensures forall s :: s in old(SchedulersOf(tag)) && (runnable.None? || runnable.value !in old(scheduledTaskMap)[tag.value] || s != old(scheduledTaskMap)[tag.value][runnable.value])
                ==> s.terminated == old(s.terminated)
      ensures runningTasks == old(runningTasks) && queue == old(queue) && trace == old(trace)
      ensures hasErrorProcessor == old(hasErrorProcessor)
    {
      if tag.None? {
        return IllegalArgument(TAG_IS_NULL);
      }
      if runnable.None? {
        return IllegalArgument(RUNNABLE_IS_NULL);
      }
      st := Ok;
      var t, r := tag.value, runnable.value;
      if t !in scheduledTaskMap {
        return;
      }
      var runnableMap := scheduledTaskMap[t];
      if r in runnableMap {
        var scheduler := runnableMap[r];
        if !scheduler.terminated {
          scheduler.ShutdownNow();
          scheduledTaskMap := DropDelayed(scheduledTaskMap, t, r);
        }
      }
    }

    /** `cancelAllDelayTasks`: every scheduler under the tag ends up terminated and the tag is
        dropped; an unknown tag changes nothing. */
    method CancelAllDelayTasks(tag: Option<Tag>) returns (st: Status)
      requires Valid()
      modifies this, SchedulersOf(tag)
      ensures Valid()
      ensures st == if tag.None? then IllegalArgument(TAG_IS_NULL) else Ok
      ensures st.IllegalArgument? ==> scheduledTaskMap == old(scheduledTaskMap)
      ensures st.Ok? ==> scheduledTaskMap == old(scheduledTaskMap) - {tag.value}
      ensures forall s :: s in old(SchedulersOf(tag)) ==> s.terminated
      ensures runningTasks == old(runningTasks) && queue == old(queue) && trace == old(trace)
      ensures hasErrorProcessor == old(hasErrorProcessor)
    {
      if tag.None? {
        return IllegalArgument(TAG_IS_NULL);
      }
      st := Ok;
      var t := tag.value;
      if t !in scheduledTaskMap {
        return;
      }
      var services := scheduledTaskMap[t].Values;
      ghost var all := services;
      while services != {}
        invariant services <= all
        invariant forall s :: s in all - services ==> s.terminated
        modifies all
        decreases services
      {
        var s :| s in services;
        if !s.terminated {
          s.ShutdownNow();
        }
        services := services - {s};
      }
      scheduledTaskMap := scheduledTaskMap - {t};
    }

    /** `cancleAllTasksByTag`: `cancel(true)` on every task tracked under the tag, then the tag is
        dropped; an unknown tag leaves the registry as it is. */
    method CancleAllTasksByTag(tag: Option<Tag>) returns (st: Status)
      requires Valid()
      modifies this, TrackedUnder(tag)
      ensures Valid()
      ensures st == if tag.None? then IllegalArgument(TAG_IS_NULL) else Ok
      ensures st.IllegalArgument? ==> runningTasks == old(runningTasks)
      ensures st.Ok? ==> runningTasks == old(runningTasks) - {tag.value}
      ensures forall t :: t in old(TrackedUnder(tag)) ==> t.State() == CancelFlags(old(t.State()), true) && t.tag == old(t.tag)
      ensures scheduledTaskMap == old(scheduledTaskMap) && queue == old(queue) && trace == old(trace)
      ensures hasErrorProcessor == old(hasErrorProcessor)
    {
      if tag.None? {
        return IllegalArgument(TAG_IS_NULL);
      }
      st := Ok;
      if tag.value in runningTasks {
        var tasks := runningTasks[tag.value];
        var i := 0;
        while i < |tasks|
          invariant 0 <= i <= |tasks|
          invariant forall t :: t in tasks[..i] ==> t.State() == CancelFlags(old(t.State()), true)
          invariant forall t :: t in tasks && t !in tasks[..i] ==> t.State() == old(t.State())
          invariant forall t :: t in tasks ==> t.tag == old(t.tag)
          modifies set t | t in tasks
        {
          assert forall t :: t in tasks[..i + 1] <==> t in tasks[..i] || t == tasks[i];
          tasks[i].Cancel(true);
          i := i + 1;
        }
        assert tasks[..i] == tasks;
      }
      runningTasks := runningTasks - {tag.value};
    }

    /** `cancleSpecificTask`: `cancel(true)` on the task, then it is removed once from the tag's
        list, and the tag is dropped if its list is then empty. */
    method CancleSpecificTask(tag: Option<Tag>, task: Task?) returns (st: Status)
      requires Valid()
      modifies this, task
      ensures Valid()
      ensures st == if tag.None? then IllegalArgument(TAG_IS_NULL)
                    else if task == null then IllegalArgument(TASK_IS_NULL)
                    else Ok
      ensures st.IllegalArgument? ==> runningTasks == old(runningTasks)
      ensures st.IllegalArgument? && task != null ==> task.State() == old(task.State())
      ensures st.Ok? ==>
        && task.State() == CancelFlags(old(task.State()), true)
        && runningTasks == TagLists.RemoveOne(old(runningTasks), tag.value, task)
      ensures task != null ==> task.tag == old(task.tag)
      ensures scheduledTaskMap == old(scheduledTaskMap) && queue == old(queue) && trace == old(trace)
      ensures hasErrorProcessor == old(hasErrorProcessor)
    {
      if tag.None? {
        return IllegalArgument(TAG_IS_NULL);
      }
      if task == null {
        return IllegalArgument(TASK_IS_NULL);
      }
      task.Cancel(true);
      runningTasks := TagLists.RemoveOne(runningTasks, tag.value, task);
      st := Ok;
    }

    /** `TaskHandler.handleMessage`: POST_EXECUTE runs `finish` alone if the task is interrupted
        by now and `onPostExecute` otherwise; PROGRESS_UPDATE reaches `onProgressUpdate` only if
        the task is not interrupted; CANCLE always reaches `onCancelled`. */
    method HandleMessage(msg: Message)
      requires Valid()
      modifies this
      ensures Valid()
      ensures trace == old(trace) + HandlerCallbacks(msg, msg.task.isInterrupted, hasErrorProcessor)
      ensures queue == old(queue) + HandlerMessages(msg, msg.task.tag, msg.task.isCancelled)
      ensures runningTasks == HandlerRegistry(old(runningTasks), msg, msg.task.tag)
      ensures scheduledTaskMap == old(scheduledTaskMap) && hasErrorProcessor == old(hasErrorProcessor)
    {
      match msg {
        case PostExecute(t, c) =>
          if t.isInterrupted {
            t.Finish(this);
          } else {
            t.OnPostExecute(this, c);
          }
        case ProgressUpdate(t, p) =>
          if !t.isInterrupted {
            trace := trace + [OnProgressUpdate(t, p)];
          }
        case Cancle(t) =>
          trace := trace + [OnCancelled(t)];
      }
    }

    /** One turn of the main looper: the oldest pending message, if any, is taken off the queue
        and handled. */
    method DispatchNext() returns (handled: Option<Message>)
      requires Valid()
      modifies this
      ensures Valid()
      ensures old(queue) == [] ==> handled == None && queue == [] && trace == old(trace) && runningTasks == old(runningTasks)
      ensures old(queue) != [] ==>
        var msg := old(queue)[0];
        && handled == Some(msg)
        && trace == old(trace) + HandlerCallbacks(msg, msg.task.isInterrupted, hasErrorProcessor)
        && queue == old(queue)[1..] + HandlerMessages(msg, msg.task.tag, msg.task.isCancelled)
        && runningTasks == HandlerRegistry(old(runningTasks), msg, msg.task.tag)
      ensures scheduledTaskMap == old(scheduledTaskMap) && hasErrorProcessor == old(hasErrorProcessor)
    {
      if queue == [] {
        return None;
      }
      var msg := queue[0];
      queue := queue[1..];
      HandleMessage(msg);
      handled := Some(msg);
    }
  }
}
