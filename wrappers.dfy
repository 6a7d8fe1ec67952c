/** The Option type used wherever a JavaScript value may be `undefined`,
    `null`, `NaN`, or a backend call may throw. */
module Wrappers {

  datatype Option<+T> = None | Some(value: T) {

    /** The wrapped value, or `default` when there is none. */
    function GetOr(default: T): T {
      match this
      case Some(v) => v
      case None => default
    }
  }
}
