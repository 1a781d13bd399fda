/** Failure-carrying result types shared by every module of the model. */
module Wrappers {

  datatype Option<+T> = None | Some(value: T)

  /** The outcome of a step that either yields a value or raises an error with a message. */
  datatype Result<+T> = Success(value: T) | Failure(error: string)

  /** The `ActionState<T>` record returned by the server actions: a success flag, a message,
      and data that is present only on success. */
  datatype ActionState<+T> =
    | ActionOk(message: string, data: T)
    | ActionError(message: string)
  {
    predicate IsSuccess() { ActionOk? }
  }
}
