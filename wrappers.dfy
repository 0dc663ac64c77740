/** Absent-or-present values and success-or-failure outcomes, shared by every module. */
module Wrappers {

  /** A nullable value: `None` stands for SQL NULL or a JavaScript `undefined`/`null`. */
  datatype Option<T> = None | Some(value: T) {
    function GetOr(default: T): T {
      if Some? then value else default
    }
  }

  /** The outcome of a service call: a returned row or a thrown error. */
  datatype Result<T, E> = Ok(value: T) | Err(error: E)
}
