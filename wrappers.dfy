// Optional values: a key that a parsed save may or may not carry.
module Wrappers {
  datatype Option<T> = None | Some(value: T)
  {
    /** The value, or `d` when absent. */
    function GetOr(d: T): T
    {
      match this
      case Some(v) => v
      case None => d
    }
  }
}
