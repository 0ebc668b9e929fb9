/** The optional values the builder and the engine setters take (Swift's `T?`). */
module Wrappers {

  datatype Option<+T> = None | Some(value: T) {

    /** Swift's `opt ?? default`. */
    function UnwrapOr(default: T): (r: T)
      ensures Some? ==> r == value
      ensures None? ==> r == default
    {
      match this
      case Some(v) => v
      case None => default
    }
  }
}
