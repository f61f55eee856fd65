/** An optional value: JavaScript's `null`/`undefined` on one side, a present value on the other. */
module Opt {
  datatype Option<+T> = None | Some(value: T) {
    /** The value, or `default` when absent (the `x || default` idiom for a missing field). */
    function GetOr(default: T): T {
      match this
      case Some(v) => v
      case None => default
    }
  }
}
