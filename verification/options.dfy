/** A nullable Java reference, as a value. */
module Options {

  datatype Option<+T> = None | Some(value: T) {

    /** The referenced value, or `default` for null. */
    function GetOr(default: T): T {
      match this
      case Some(v) => v
      case None => default
    }

    /** The zero- or one-element sequence holding the referenced value. */
    function ToSeq(): (s: seq<T>)
      ensures |s| <= 1
      ensures Some? <==> |s| == 1
      ensures Some? ==> s[0] == value
    {
      match this
      case Some(v) => [v]
      case None => []
    }
  }
}
