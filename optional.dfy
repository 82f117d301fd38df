/** The optional value used wherever the bridge reads a setting that may be
    absent or parses a payload that may be malformed. */
module Optional {

  datatype Option<+T> = None | Some(value: T) {

    /** The value, or `default` when there is none: a dictionary lookup with a default. */
    function GetOr(default: T): T
    {
      match this
      case Some(v) => v
      case None => default
    }
  }
}
