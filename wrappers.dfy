/** Failure-carrying return types. A failed call of the blueprint is a
    transaction that aborts; these types let the model name the reason. */
module Wrappers {

  datatype Option<+T> = None | Some(value: T)

  datatype Result<+R, +E> = Success(value: R) | Failure(error: E)

  /** The result of a call that returns nothing on success. */
  datatype Outcome<+E> = Pass | Fail(error: E)
}
