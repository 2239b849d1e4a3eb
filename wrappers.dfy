/** The optional value used for the component's `null` cells and for
 * the Reddit keys that `get_trends` looks up but may not find. */
module Wrappers {

  datatype Option<+T> = None | Some(value: T) {

    /** The wrapped value, or `default` when there is none. */
    function GetOr(default: T): T {
      match this
      case Some(v) => v
      case None => default
    }
  }
}
