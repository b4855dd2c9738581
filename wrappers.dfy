/** Result types for the configuration errors that the engine raises instead
    of returning. */
module Wrappers {

  /** A value, or the error that prevented it. */
  datatype Result<+R, +E> = Success(value: R) | Failure(error: E)

  /** Success without a value, or an error. */
  datatype Outcome<+E> = Pass | Fail(error: E)
}
