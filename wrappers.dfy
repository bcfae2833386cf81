/** Option and Result types shared by every module of the model. */
module Wrappers {

  /** An optional value; `None` stands for JavaScript's `undefined` or SQL's NULL. */
  datatype Option<+T> = None | Some(value: T) {
    function GetOr(default: T): T {
      match this
      case Some(v) => v
      case None => default
    }
  }

  /** The outcome of an operation that can throw: `Err` carries the error. */
  datatype Result<+T, +E> = Ok(value: T) | Err(error: E)
}
