/** A value that may be missing: the model of a cell that pandas holds as NaN. */
module Wrappers {

  datatype Option<T> = None | Some(value: T) {

    /** The held value, or `default` for a missing one. */
    function GetOr(default: T): T {
      match this
      case Some(v) => v
      case None => default
    }
  }
}
