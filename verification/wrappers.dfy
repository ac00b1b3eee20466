/** Failure-compatible wrappers shared by the Campaign and the router models.
    `Option` stands for Python's optional values (`None` or a value);
    `Result` stands for "returns a value or raises". */
module Wrappers {

  datatype Option<+T> = None | Some(value: T) {

    /** The value held, or `default` when there is none. */
    function GetOr(default: T): T {
      match this
      case Some(v) => v
      case None => default
    }
  }

  datatype Result<+R, +E> = Ok(value: R) | Err(error: E)
}
