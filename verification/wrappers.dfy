/** The optional values used throughout the model in place of JavaScript's
    `null`/`undefined` (and, for a parse that may throw, of the exception). */
module Wrappers {

  /** An optional value: `None` stands for a missing (null or undefined) field. */
  datatype Option<+T> = None | Some(value: T) {

    /** The wrapped value, or `default` when there is none (the `x ?? d` idiom). */
    function GetOr(default: T): T {
      match this
      case Some(v) => v
      case None => default
    }
  }
}
