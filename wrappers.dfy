/** Failure-carrying values: a raised exception is modelled as a Fail/Failure value. */
module Wrappers {

  datatype Option<+T> = None | Some(value: T)

  /** The outcome of a call that returns nothing but may raise `error`. */
  datatype Outcome<+E> = Pass | Fail(error: E)

  /** The outcome of a call that returns `value` or raises `error`. */
  datatype Result<+R, +E> = Success(value: R) | Failure(error: E)
}
