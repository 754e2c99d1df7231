/** A small optional-value type shared by the other modules. */
module Wrappers {

  datatype Option<+T> = None | Some(value: T)
  {
    /** The wrapped value, or `default` when there is none. */
    function GetOr(default: T): T
    {
      match this
      case Some(v) => v
      case None => default
    }
  }
}
