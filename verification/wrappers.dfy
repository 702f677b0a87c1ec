/** Failure-carrying wrappers shared by the reducer and the resolvers. */
module Wrappers {

  /** A value that may be absent: `undefined` / `null` in the TypeScript code. */
  datatype Option<+T> = None | Some(value: T) {

    /** The wrapped value, or `default` when absent (the `??` operator). */
    function GetOr(default: T): T {
      match this
      case Some(v) => v
      case None => default
    }
  }

  /** The outcome of a step that may throw: a value, or the error it throws. */
  datatype Result<+R, +E> = Success(value: R) | Failure(error: E)
}
