/** Failure-compatible helper datatypes used across the model. */
module Wrappers {

  datatype Option<+T> = None | Some(value: T)

  /** The outcome of an operation that either completes or raises a Java exception,
      named by its simple class name. */
  datatype Outcome = Pass | Fail(exception: string)
}
