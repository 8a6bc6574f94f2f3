/** Option: the model's stand-in for JavaScript's `undefined`, `null` and `NaN`. */
module Wrappers {
  datatype Option<+T> = None | Some(value: T) {
    /** `x || d` in the source, when `x` is falsy exactly when it is absent. */
    function GetOr(default: T): T {
      match this
      case Some(v) => v
      case None => default
    }
  }
}
