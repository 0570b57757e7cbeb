/** Option, the model of PHP's nullable values (`null` is `None`). */
module Wrappers {

  datatype Option<+T> = None | Some(value: T) {

    /** PHP's `$x ?? $default`. */
    function GetOr(default: T): T {
      match this
      case Some(v) => v
      case None => default
    }
  }
}
