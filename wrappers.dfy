/** Failure-carrying values shared by every module of the model. */
module Wrappers {

  datatype Option<+T> = None | Some(value: T) {
    function GetOr(default: T): T {
      match this
      case Some(v) => v
      case None => default
    }
  }

  /** `anyhow::Result<()>`: success, or an error carrying its display text. */
  datatype Outcome = Ok | Err(msg: string)

  /** `anyhow::Result<T>`: a value, or an error carrying its display text. */
  datatype Result<+T> = Success(value: T) | Failure(msg: string)
}
