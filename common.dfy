/** Small shared vocabulary: the `null`/`undefined` of the dashboard's state becomes `None`. */
module Common {

  datatype Option<+T> = None | Some(value: T) {

    /** The value held, or `default` when there is none (the `x || default` idiom). */
    function GetOr(default: T): (r: T)
      ensures Some? ==> r == value
      ensures None? ==> r == default
    {
      match this
      case Some(v) => v
      case None => default
    }
  }
}
