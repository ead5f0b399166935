/** Failure-carrying values: the model stands in for Python's `None` and for
    exceptions with these two datatypes. */
module Wrappers {

  /** An optional value; `None` plays Python's `None`. */
  datatype Option<+T> = None | Some(value: T)

  /** The outcome of a step that may raise: `Failure(msg)` carries the text
      `str(e)` of the exception that was raised. */
  datatype Result<+R, +E> = Success(value: R) | Failure(error: E)
}
