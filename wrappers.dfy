/** Small value wrappers shared by every module of the model. */
module Wrappers {

  /** A value that may be absent (a nullable column, a lookup that finds nothing). */
  datatype Option<+T> = None | Some(value: T) {
    function GetOr(default: T): T {
      if Some? then value else default
    }
  }
}
