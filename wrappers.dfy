/** Optional values and the success/failure outcome of an operation that can throw. */
module Wrappers {

  /** A value that may be absent (`undefined` in the TypeScript source). */
  datatype Option<+T> = None | Some(value: T) {
    function GetOr(default: T): T {
      match this
      case Some(v) => v
      case None => default
    }
  }

  /** The outcome of an operation that either completes or throws an `Error` with a message. */
  datatype Outcome = Pass | Fail(message: string)
}
