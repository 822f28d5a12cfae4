/** The JavaScript values `null` (an absent neighbour, a missing argument)
    are modelled by the usual Option datatype. */
module Wrappers {

  datatype Option<+T> = None | Some(value: T) {

    /** The encapsulated value, or `default` when there is none. */
    function GetOr(default: T): T {
      match this
      case Some(v) => v
      case None => default
    }
  }
}
