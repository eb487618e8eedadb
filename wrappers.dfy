/** The optional value used wherever the front-end reads something that may be `null`
    or `undefined`: a missing storage key, a missing JSON field, a missing URL parameter. */
module Wrappers {

  datatype Option<+T> = None | Some(value: T) {

    /** The wrapped value, or `default` when there is none. */
    function GetOr(default: T): T
    {
      match this
      case Some(v) => v
      case None => default
    }
  }
}
