/** Optional values, failure results and the three Python exceptions the core raises. */
module Common {

  datatype Option<T> = None | Some(value: T) {
    /** Python's `d.get(key, default)`: the value when present, else the default. */
    function GetOr(default: T): T {
      match this
      case Some(v) => v
      case None => default
    }
  }

  /** The exceptions raised by the core: `KeyError` from a missing dictionary key,
      `ValueError` from `list.remove` and from an unsupported request type, and
      `AttributeError` from calling a subclass-only method on the wrong kind of event. */
  datatype Error =
    | KeyError(key: string)
    | ValueError(message: string)
    | AttributeError(name: string)

  datatype Result<T> = Ok(value: T) | Err(error: Error)
}
