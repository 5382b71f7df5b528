/** Failure-carrying datatypes shared by the model: a value that may be absent
    (the Java `null` of a field not yet assigned) and the outcome of a call that
    may raise. */
module Wrappers {

  /** A value that is either present or absent. */
  datatype Option<+T> = None | Some(value: T)

  /** The outcome of a call that either returns a value or raises an error. */
  datatype Result<+R, +E> = Success(value: R) | Failure(error: E)
}
