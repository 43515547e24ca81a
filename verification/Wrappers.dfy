/** The two result shapes the whole model uses: an optional value, and a value or a thrown error. */
module Wrappers {

  datatype Option<+T> = None | Some(value: T) {
    function GetOr(default: T): T { if Some? then value else default }
  }

  datatype Outcome<+T, +E> = Ok(value: T) | Fail(error: E)
}
