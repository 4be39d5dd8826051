/** The optional value used wherever the charts use `number | null`
    (hovered, selected and hit-test indices) or an optional property. */
module Wrappers {

  datatype Option<+T> = None | Some(value: T) {

    /** The value, or `default` when there is none. */
    function GetOr(default: T): T {
      match this
      case Some(v) => v
      case None => default
    }
  }
}
