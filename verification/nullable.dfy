/** Kotlin nullable values (`T?`) and the elvis operator `?:`. */
module Nullable {

  /** `None` is Kotlin's `null`; `Some(v)` a present value. */
  datatype Option<+T> = None | Some(value: T) {

    /** The elvis operator `this ?: default`. */
    function GetOr(default: T): T {
      match this
      case Some(v) => v
      case None => default
    }
  }
}
