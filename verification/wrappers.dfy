/** A value that may be absent: JavaScript's `undefined`, `null`, or a member the object
    does not have. */
module Wrappers {

  datatype Option<T> = None | Some(value: T) {

    /** `x ?? fallback`: the value when there is one, else `fallback`. */
    function ValueOr(fallback: T): (r: T)
      ensures Some? ==> r == value
      ensures None? ==> r == fallback
    {
      if Some? then value else fallback
    }
  }
}
