/** Option and Result, used for the source's optional (`?`) properties and for the
    errors its constructor throws. */
module Wrappers {

  datatype Option<+T> = None | Some(value: T) {

    /** The TypeScript `??` operator: the value when present, otherwise the default.
        Only an absent value is replaced; any present value (0, "", false) is kept. */
    function GetOr(default: T): (r: T)
      ensures Some? ==> r == value
      ensures None? ==> r == default
    {
      match this
      case Some(v) => v
      case None => default
    }
  }

  datatype Result<+R, +E> = Success(value: R) | Failure(error: E)
}
