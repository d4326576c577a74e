/** Optional values, used wherever the route payload may lack a key. */
module Common {

  /** A dictionary entry that may be absent (`dict.get` returning nothing, or a `KeyError`). */
  datatype Option<+T> = None | Some(value: T) {

    /** The value if present, else the default (Python's `d.get(key, default)`). */
    function GetOr(default: T): T {
      match this
      case Some(v) => v
      case None => default
    }
  }

  /** Either a value or the reason the computation was abandoned. */
  datatype Result<+T, +E> = Ok(value: T) | Err(error: E)
}
