/** Python's `None`-able values and raised exceptions, as datatypes. */
module Wrappers {

  /** A Python value that may be `None`. */
  datatype Option<+T> = None | Some(value: T)
  {
    /** `d.get(key, default)`, for a key present exactly when this is `Some`. */
    function GetOr(default: T): T
    {
      if Some? then value else default
    }
  }

  /** The outcome of a call that either returns a value or raises. */
  datatype Result<+T, +E> = Ok(value: T) | Err(error: E)
}
