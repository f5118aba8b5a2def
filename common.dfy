/** Shared value types used across the storefront model. */
module Common {

  /** A value that may be absent: an empty input field, an unset storage slot. */
  datatype Option<+T> = None | Some(value: T) {
    /** The value, or `default` when absent (JavaScript's `x || default` on a possibly missing string). */
    function GetOr(default: T): T {
      match this
      case Some(v) => v
      case None => default
    }
  }
}
