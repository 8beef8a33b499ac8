/** Failure-carrying results: the JavaScript code signals failure by throwing,
    the model returns one of these instead. */
module Wrappers {

  datatype Option<+T> = None | Some(value: T)

  datatype Result<+R, +E> = Success(value: R) | Failure(error: E)

  /** The outcome of an `async` call whose fulfilled value is ignored. */
  datatype Outcome<+E> = Pass | Fail(error: E)
}
