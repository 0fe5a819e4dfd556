/** Optional values and results with an error, used wherever the source has
    `undefined`/`null` or a call that may throw. */
module Wrappers {

  datatype Option<+T> = None | Some(value: T) {
    function GetOr(default: T): T {
      match this
      case Some(v) => v
      case None => default
    }
  }

  /** The outcome of a collaborator call that may throw: `Failure` stands for
      the exception, whatever its message. */
  datatype Result<+T> = Success(value: T) | Failure
}
