/** Failure-carrying values shared by the other modules. */
module Wrappers {

  /** A value that may be absent: `undefined` / a missing property in the source. */
  datatype Option<+T> = None | Some(value: T)

  /** The outcome of a call that may throw: its value, or the thrown object. */
  datatype Result<+R, +E> = Success(value: R) | Failure(error: E)
}
