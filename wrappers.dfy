/** Result types shared by the parser, the rule engine and the proof validator. */
module Wrappers {

  datatype Option<+T> = None | Some(value: T)

  /** A value, or the error the source would have thrown instead of returning it. */
  datatype Result<+T, +E> = Success(value: T) | Failure(error: E) {
    predicate IsFailure() {
      Failure?
    }

    function PropagateFailure<U>(): Result<U, E>
      requires Failure?
    {
      Failure(error)
    }

    function Extract(): T
      requires Success?
    {
      value
    }
  }

  /**
   * The outcome of a validator: the source either returns `true` (Pass),
   * throws an `Error` with a message (Fail), or crashes with a JavaScript
   * `TypeError` because it read a property of `undefined` (Fault).
   */
  datatype Check = Pass | Fail(message: string) | Fault
}
