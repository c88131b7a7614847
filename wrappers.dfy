/** Failure-carrying values used in place of the C code's NULL returns and `exit(1)` calls. */
module Wrappers {

  /** A value that may be absent: a C pointer that may be NULL. */
  datatype Option<+T> = None | Some(value: T)

  /** The result of an operation that either yields a value or stops with an error. */
  datatype Result<+T, +E> = Success(value: T) | Failure(error: E) {
    predicate IsFailure() {
      Failure?
    }

    function PropagateFailure<U>(): Result<U, E>
      requires Failure?
    {
      Failure(error)
    }

    function Extract(): T
      requires Success?
    {
      value
    }
  }

  /** The result of an operation that yields nothing but may stop with an error. */
  datatype Outcome<+E> = Pass | Fail(error: E)
}
