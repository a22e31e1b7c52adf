/** Whole task lifecycles, each driven through ATaskExecutor's operations from a fresh executor:
    the callbacks each one produces are stated in full. */
module TaskScenarios {
  import opened Common
  import opened TaskExecution
  import Threading

  /** A fresh executor (with or without a common error processor) and one fresh task submitted
      to it under `tag`, not yet run. */
  method SubmitOne(tag: Tag, overridesOnTaskError: bool, hasErrorProcessor: bool) returns (exec: TaskExecutor, t: Task)
    ensures fresh(exec) && fresh(t) && exec.Valid()
    ensures exec.runningTasks == map[tag := [t]] && exec.queue == [] && exec.trace == [OnPreTask(t)]
    ensures exec.hasErrorProcessor == hasErrorProcessor && exec.scheduledTaskMap == map[]
    ensures t.State() == Flags(false, false) && t.tag == Some(tag) && t.overridesOnTaskError == overridesOnTaskError
  {
    exec := new TaskExecutor();
    exec.SetCommonTaskErrorProcessor(hasErrorProcessor);
    var pools := new Threading.ThreadUtils<Task>();
    t := new Task(overridesOnTaskError);
    var st := exec.ExecuteTask(EXECUTOR_TYPE_USER, Some(tag), t, pools);
    assert exec.runningTasks.Keys == {tag} && exec.runningTasks[tag] == [t];
  }

  /** A task cancelled by tag before its worker starts stops at the first checkpoint: its only
      callbacks are `onPreTask` and `onCancelled`, and nothing stays tracked. */
  method CancelBeforeRun() returns (exec: TaskExecutor, t: Task)
    ensures exec.trace == [OnPreTask(t), OnCancelled(t)]
    ensures exec.runningTasks == map[] && exec.queue == []
    ensures t.isCancelled && t.isInterrupted
  {
    var tag := Tag(1);
    exec, t := SubmitOne(tag, false, false);
    assert exec.TrackedUnder(Some(tag)) == {t};
    var st := exec.CancleAllTasksByTag(Some(tag));
    assert t.State() == Flags(true, true) && exec.runningTasks == map[];
    t.Run(exec, Returned(42), None);
    assert exec.queue == [Cancle(t)];
    var h := exec.DispatchNext();
  }

  /** A task whose result is already queued when it is cancelled by tag: the later POST_EXECUTE
      finds it interrupted, runs neither onTaskSuccess nor onTaskError, and its `finish` sends the
      CANCLE that produces `onCancelled`. */
  method CancelAfterRunBeforeHandling() returns (exec: TaskExecutor, t: Task)
    ensures exec.trace == [OnPreTask(t), OnCancelled(t)]
    ensures exec.runningTasks == map[] && exec.queue == []
  {
    var tag := Tag(1);
    exec, t := SubmitOne(tag, false, false);
    t.Run(exec, Returned(42), None);
    assert exec.queue == [PostExecute(t, Success(42))];
    assert exec.TrackedUnder(Some(tag)) == {t};
    var st := exec.CancleAllTasksByTag(Some(tag));
    assert t.State() == Flags(true, true) && exec.runningTasks == map[];
    var h := exec.DispatchNext();
    assert exec.queue == [Cancle(t)] && exec.trace == [OnPreTask(t)];
    h := exec.DispatchNext();
  }

  /** An uncancelled task that returns a value: onPreTask, onTaskFinish, onTaskSuccess with the
      value, and the task is no longer tracked. */
  method RunToSuccess() returns (exec: TaskExecutor, t: Task)
    ensures exec.trace == [OnPreTask(t), OnTaskFinish(t), OnTaskSuccess(t, 42)]
    ensures exec.runningTasks == map[] && exec.queue == []
  {
    exec, t := SubmitOne(Tag(7), false, false);
    t.Run(exec, Returned(42), None);
    assert exec.queue == [PostExecute(t, Success(42))];
    var h := exec.DispatchNext();
  }

  /** `cancel(false)` before the worker starts does not interrupt: doInBackground fails with
      "task already canceled", which reaches onTaskError, and the CANCLE that `finish` sends
      then reaches onCancelled. */
  method CancelWithoutInterrupt() returns (exec: TaskExecutor, t: Task)
    ensures exec.trace == [OnPreTask(t), OnTaskFinish(t), OnTaskError(t, TASK_ALREADY_CANCELED), OnCancelled(t)]
    ensures exec.runningTasks == map[] && exec.queue == []
  {
    exec, t := SubmitOne(Tag(2), true, false);
    t.Cancel(false);
    assert t.State() == Flags(true, false);
    t.Run(exec, Returned(42), None);
    assert exec.queue == [PostExecute(t, Failure(TASK_ALREADY_CANCELED))];
    var h := exec.DispatchNext();
    assert exec.trace == [OnPreTask(t), OnTaskFinish(t), OnTaskError(t, TASK_ALREADY_CANCELED)];
    assert exec.queue == [Cancle(t)] && exec.runningTasks == map[];
    h := exec.DispatchNext();
  }

  /** Because a second cancel changes nothing, a task cancelled without interrupt after its
      result was computed is not interrupted by a later cancel-by-tag either: its success is
      still delivered, followed by onCancelled. */
  method SuccessAfterCancelAll() returns (exec: TaskExecutor, t: Task)
    ensures exec.trace == [OnPreTask(t), OnTaskFinish(t), OnTaskSuccess(t, 42), OnCancelled(t)]
    ensures exec.runningTasks == map[] && exec.queue == []
  {
    var tag := Tag(6);
    exec, t := SubmitOne(tag, false, false);
    t.Run(exec, Returned(42), None);
    assert exec.queue == [PostExecute(t, Success(42))];
    t.Cancel(false);
    assert exec.TrackedUnder(Some(tag)) == {t};
    var st := exec.CancleAllTasksByTag(Some(tag));
    assert t.State() == Flags(true, false) && exec.runningTasks == map[];
    var h := exec.DispatchNext();
    assert exec.queue == [Cancle(t)] && exec.trace == [OnPreTask(t), OnTaskFinish(t), OnTaskSuccess(t, 42)];
    h := exec.DispatchNext();
  }

  /** Progress published by the worker is delivered before the result, in publication order. */
  method ProgressBeforeResult() returns (exec: TaskExecutor, t: Task)
    ensures exec.trace == [OnPreTask(t), OnProgressUpdate(t, [1]), OnProgressUpdate(t, [2]), OnTaskFinish(t), OnTaskSuccess(t, 5)]
    ensures exec.runningTasks == map[] && exec.queue == []
  {
    exec, t := SubmitOne(Tag(3), false, false);
    t.PublishProgress(exec, [1]);
    t.PublishProgress(exec, [2]);
    t.Run(exec, Returned(5), None);
    assert exec.queue == [ProgressUpdate(t, [1]), ProgressUpdate(t, [2]), PostExecute(t, Success(5))];
    var h := exec.DispatchNext();
    assert exec.queue == [ProgressUpdate(t, [2]), PostExecute(t, Success(5))];
    assert exec.trace == [OnPreTask(t), OnProgressUpdate(t, [1])];
    h := exec.DispatchNext();
    assert exec.queue == [PostExecute(t, Success(5))];
    assert exec.trace == [OnPreTask(t), OnProgressUpdate(t, [1]), OnProgressUpdate(t, [2])];
    h := exec.DispatchNext();
  }

  /** A throwable that is not an Exception reaches onTaskError wrapped, and with a common error
      processor set, a task that keeps the default hook forwards the same wrapped error to it. */
  method ErrorReachesProcessor() returns (exec: TaskExecutor, t: Task)
    ensures exec.trace == [OnPreTask(t), OnTaskFinish(t), OnTaskError(t, Wrapping(NonException("oom"))),
                           ProcessTaskError(Wrapping(NonException("oom")))]
    ensures exec.runningTasks == map[] && exec.queue == []
  {
    exec, t := SubmitOne(Tag(4), false, true);
    t.Run(exec, Threw(NonException("oom")), None);
    assert exec.queue == [PostExecute(t, Failure(NonException("oom")))];
    var h := exec.DispatchNext();
  }

  /** A null tag is rejected before `onPreTask` runs and before anything is tracked. */
  method NullTagRejected() returns (exec: TaskExecutor, t: Task, st: Status)
    ensures st == IllegalArgument(TAG_IS_NULL)
    ensures exec.trace == [] && exec.runningTasks == map[] && t.tag == None
  {
    exec := new TaskExecutor();
    var pools := new Threading.ThreadUtils<Task>();
    t := new Task(false);
    st := exec.ExecuteTask(EXECUTOR_TYPE_USER, None, t, pools);
  }

  /** Two delayed runnables under one tag, scheduled with the executor as written: the first
      scheduler drops out of the bookkeeping, so cancelling all of the tag's delayed tasks leaves
      it running. */
  method DelayedTaskLeaksAsWritten() returns (exec: TaskExecutor, first: Scheduler)
    ensures !first.terminated
    ensures exec.scheduledTaskMap == map[]
  {
    exec := new TaskExecutor();
    var tag := Tag(5);
    var st := exec.ExecuteDelayTask(Some(tag), Some(Runnable(1)), 100);
    first := exec.scheduledTaskMap[tag][Runnable(1)];
    st := exec.ExecuteDelayTask(Some(tag), Some(Runnable(2)), 100);
    assert exec.SchedulersOf(Some(tag)) == {exec.scheduledTaskMap[tag][Runnable(2)]};
    st := exec.CancelAllDelayTasks(Some(tag));
  }

  /** The same two runnables with the corrected scheduling: cancelling the tag stops both. */
  method DelayedTasksAllCancelledWhenKept() returns (exec: TaskExecutor, first: Scheduler, second: Scheduler)
    ensures first != second
    ensures first.terminated && second.terminated
    ensures exec.scheduledTaskMap == map[]
  {
    exec := new TaskExecutor();
    var tag := Tag(5);
    var st := exec.ExecuteDelayTaskKeepingOthers(Some(tag), Some(Runnable(1)), 100);
    first := exec.scheduledTaskMap[tag][Runnable(1)];
    st := exec.ExecuteDelayTaskKeepingOthers(Some(tag), Some(Runnable(2)), 100);
    second := exec.scheduledTaskMap[tag][Runnable(2)];
    assert first in exec.SchedulersOf(Some(tag)) && second in exec.SchedulersOf(Some(tag));
    st := exec.CancelAllDelayTasks(Some(tag));
  }
}
