/** Optional values and two-channel outcomes shared by the other modules. */
module Wrappers {

  /** A JavaScript value that may be absent (`undefined`, or any falsy value where the source tests truthiness). */
  datatype Option<+T> = None | Some(value: T) {
    /** The value when present, `default` otherwise (the `x || default` idiom). */
    function GetOr(default: T): T {
      match this
      case Some(v) => v
      case None => default
    }
  }

  /** A settled outcome: a normal value, or a failure (a thrown or rejected value). */
  datatype Result<+T, +E> = Ok(value: T) | Err(error: E)
}
