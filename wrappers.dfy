/** The optional value used for JavaScript's `null`/`undefined` and for a
    computation that produces nothing. */
module Wrappers {
  datatype Option<+T> = None | Some(value: T) {
    /** The contained value, or `default` when there is none (JavaScript's `??`). */
    function GetOr(default: T): (r: T)
      ensures Some? ==> r == value
      ensures None? ==> r == default
    {
      match this
      case Some(v) => v
      case None => default
    }
  }
}
