/** The optional value used for JavaScript's `null`/`undefined` and for `find` results. */
module Wrappers {

  datatype Option<+T> = None | Some(value: T) {

    /** The `x ?? fallback` operator: the value when present, otherwise the fallback. */
    function GetOr(fallback: T): (r: T)
      ensures Some? ==> r == value
      ensures None? ==> r == fallback
    {
      match this
      case Some(v) => v
      case None => fallback
    }
  }
}
