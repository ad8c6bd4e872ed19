/** A value that JavaScript may leave `null` or `undefined`. */
module Wrappers {

  /** `None` stands for both `null` and `undefined`: the bridge never tests which one it has. */
  datatype Option<+T> = None | Some(value: T) {

    /** JavaScript's nullish coalescing `this ?? fallback`: the fallback replaces
        only an absent value, never a present falsy one such as `0` or `""`. */
    function GetOr(fallback: T): (r: T)
      ensures Some? ==> r == value
      ensures None? ==> r == fallback
    {
      match this
      case Some(v) => v
      case None => fallback
    }
  }
}
