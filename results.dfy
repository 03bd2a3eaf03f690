/** Outcomes of calls that may fail, and values that may be missing. */
module Results {

  /** The result of calling a library routine that may raise: the value it
      returned, or the fact that it raised (the exception itself is only
      logged by the action, so it carries no payload). */
  datatype Try<+T> = Ok(value: T) | Raised

  /** A dictionary lookup that may miss its key. */
  datatype Option<+T> = None | Some(value: T) {

    /** `dict.get(key, default)`: the stored value, or the default when the key is absent. */
    function GetOr(default: T): T {
      match this
      case Some(v) => v
      case None => default
    }
  }
}
