/** Values shared by every component: tags, runnables, nullable values and argument checks. */
module Common {

  /** An opaque grouping key; two tags are the same tag exactly when they are equal. */
  datatype Tag = Tag(id: nat)

  /** A callback handed to a handler or a scheduler, compared by identity. */
  datatype Runnable = Runnable(id: nat)

  /** A value that may be null. */
  datatype Option<T> = None | Some(value: T)

  /** How an entry point that validates its arguments returns:
      `IllegalArgument` stands for the IllegalArgumentException it throws, with its message. */
  datatype Status = Ok | IllegalArgument(message: string)

  const TAG_IS_NULL := "tag is null"
  const TASK_IS_NULL := "task is null"
  const RUNNABLE_IS_NULL := "runnable is null"
}
