/** Small failure-carrying datatypes shared by the model. */
module Wrappers {

  datatype Option<+T> = None | Some(value: T) {
    /** The encapsulated value, or `default` when there is none (TypeScript's `??`). */
    function GetOr(default: T): T {
      match this
      case Some(v) => v
      case None => default
    }
  }

  /** The result of an operation that can throw. */
  datatype Result<+R, +E> = Success(value: R) | Failure(error: E)
}
