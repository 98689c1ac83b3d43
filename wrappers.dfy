/** Failure-carrying values shared by every module of the model. */
module Wrappers {

  /** A value that may be absent (`undefined` / `null` in the application). */
  datatype Option<T> = None | Some(value: T) {
    function GetOr(default: T): T {
      if Some? then value else default
    }
  }

  /** The settled result of an external call: a value, or the message of the error it threw. */
  datatype Outcome<T> = Ok(value: T) | Err(msg: string)
}
