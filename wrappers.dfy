/** Small failure-carrying datatypes shared by the modules of this model. */
module Wrappers {

  /** A value that may be absent (`null` / `undefined` in the client). */
  datatype Option<+T> = None | Some(value: T) {
    function GetOr(default: T): T {
      match this
      case Some(v) => v
      case None => default
    }
  }

  /** The outcome of an operation that can throw: a value or an error message. */
  datatype Result<+T> = Ok(value: T) | Err(message: string)
}
