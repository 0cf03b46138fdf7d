/** The optional value used wherever the source reads a dictionary entry that may be
    missing (`dict.get(key, default)`) or calls something that may raise. */
module Wrappers {

  datatype Option<+T> = None | Some(value: T) {

    /** The wrapped value, or `default` when there is none (Python's `dict.get(k, default)`). */
    function GetOr(default: T): T
    {
      match this
      case Some(v) => v
      case None => default
    }
  }
}
