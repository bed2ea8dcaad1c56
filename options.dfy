/** The optional value the resolver's configuration lookups and its result tuple use. */
module Options {

  /** A value that may be absent (Python's `None` or a missing dictionary key). */
  datatype Option<+T> = None | Some(value: T) {

    /** The value, or `default` when absent: Python's `d.get(key, default)`. */
    function GetOr(default: T): T {
      match this
      case Some(v) => v
      case None => default
    }
  }
}
