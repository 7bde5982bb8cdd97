/** Failure-carrying datatypes shared by every module of the model. */
module Wrappers {

  /** An optional value: Rust's `Option`, or a TypeScript value that may be `undefined`/`null`. */
  datatype Option<+T> = None | Some(value: T) {
    function GetOr(default: T): T {
      match this
      case Some(v) => v
      case None => default
    }
  }

  /** A success value or an error value: Rust's `Result`, or a TypeScript function that throws. */
  datatype Result<+T, +E> = Ok(value: T) | Err(error: E) {
    /** What the `:-` operator needs, so that a chain of steps stops at the first error as
        Rust's `?` does. */
    predicate IsFailure() { Err? }

    function PropagateFailure<U>(): Result<U, E>
      requires Err?
    {
      Err(error)
    }

    function Extract(): T
      requires Ok?
    {
      value
    }
  }
}
