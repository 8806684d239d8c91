/** Absent-or-present values and the two shapes a call can end in. */
module Wrappers {

  datatype Option<+T> = None | Some(value: T)

  /** The end of a call that returns nothing: it completed, or it threw `error`. */
  datatype Outcome<+E> = Pass | Fail(error: E)

  /** The end of a call that returns a value: the value, or what it threw. */
  datatype Result<+R, +E> = Success(value: R) | Failure(error: E)
}
