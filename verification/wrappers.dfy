/** The optional-value datatype the rest of the model uses for JavaScript's
    `undefined`: an absent stored value, a missing fetch result, or a
    function that falls off its end without returning. */
module Wrappers {

  datatype Option<+T> = None | Some(value: T) {

    /** The carried value, with `default` standing in for an absent one. */
    function GetOr(default: T): (r: T)
      ensures Some? ==> r == value
      ensures None? ==> r == default
    {
      match this
      case Some(v) => v
      case None => default
    }
  }
}
