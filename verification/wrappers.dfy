/** Failure-carrying datatypes and the identifier type shared by every module. */
module Wrappers {

  /** A value that may be missing: JavaScript's `undefined` (or `null`) is `None`. */
  datatype Option<+T> = None | Some(value: T) {

    /** The wrapped value, or `default` when there is none. */
    function GetOr(default: T): T {
      match this
      case Some(v) => v
      case None => default
    }
  }

  /** The outcome of an operation that can fail with an error of type `E`. */
  datatype Result<+T, +E> = Ok(value: T) | Err(error: E)

  /** Document identifiers handed out by the store (MongoDB ObjectIds), taken as opaque naturals. */
  type ObjectId = nat
}
