/** Failure-compatible wrappers shared by every module of the model. */
module Base {

  /** A value that may be `undefined` on the JavaScript side. */
  datatype Option<+T> = None | Some(value: T) {
    function GetOr(default: T): T {
      if Some? then value else default
    }
  }

  /** A computation that either produced a value or threw. */
  datatype Result<+T, +E> = Ok(value: T) | Err(error: E)
}
