/** Option and Result types used throughout the model: `None` stands for JavaScript's
    `undefined`/`null`, and `Err` for a thrown `Error` carrying its message. */
module Wrappers {

  datatype Option<+T> = None | Some(value: T) {
    function GetOr(default: T): T {
      match this
      case Some(v) => v
      case None => default
    }
  }

  datatype Result<+T> = Ok(value: T) | Err(message: string)
}
