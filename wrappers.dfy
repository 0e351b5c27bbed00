/** Optional values, standing in for the nullable references and the
    `TryGetValue` / `TryParse` results of the modelled code. */
module Wrappers {

  datatype Option<+T> = None | Some(value: T) {

    /** The wrapped value, or `default` when there is none. */
    function GetOr(default: T): T {
      match this
      case Some(v) => v
      case None => default
    }
  }
}
