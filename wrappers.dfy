/** The optional-value datatype used for JavaScript's `undefined` / `null` results
    (a `find` that matches nothing, an absent optional field, a missing dictionary entry). */
module Wrappers {

  datatype Option<+T> = None | Some(value: T) {

    /** The wrapped value, or `default` when there is none (JavaScript's `x ?? default`). */
    function GetOr(default: T): T {
      match this
      case Some(v) => v
      case None => default
    }
  }
}
