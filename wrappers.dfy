/** Failure-carrying values: the model's stand-in for .NET exceptions, whose
    observable part here is the exception's Message text. */
module Wrappers {

  datatype Option<+T> = None | Some(value: T)

  /** The outcome of a value-returning call: its value, or the message of the
      exception it threw. */
  datatype Result<+T> = Success(value: T) | Failure(error: string)

  /** The outcome of a call that returns nothing but may throw. */
  datatype Outcome = Pass | Fail(error: string)
}
