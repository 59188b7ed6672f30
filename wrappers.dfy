/** Option, Result and Outcome: the model's stand-ins for C# null, for a
    fetch that either returns rows or throws, and for a task that either
    completes or faults. */
module Wrappers {

  /** None stands for the C# default value `null`. */
  datatype Option<+T> = None | Some(value: T)

  /** The result of one asynchronous fetch: its rows, or the exception it raised. */
  datatype Result<+R, +E> = Success(value: R) | Failure(error: E)

  /** How an operation without a return value ends: normally, or with an exception. */
  datatype Outcome<+E> = Pass | Fail(error: E)
}
