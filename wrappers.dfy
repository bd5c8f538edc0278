/** Stock helper types shared by the other modules. */
module Wrappers {

  /** A value that may be absent; `None` stands for a .NET `null`. */
  datatype Option<+T> = None | Some(value: T) {

    /** The held value, or `default` when there is none. */
    function GetOr(default: T): T
    {
      match this
      case Some(v) => v
      case None => default
    }
  }
}
