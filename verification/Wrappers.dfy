/** Option and Result, used where the source returns a nil pointer, an `ok` flag or an error. */
module Wrappers {

  datatype Option<+T> = None | Some(value: T) {
    function GetOr(default: T): T { if None? then default else value }
  }

  datatype Result<+T, +E> = Success(value: T) | Failure(error: E)
}
