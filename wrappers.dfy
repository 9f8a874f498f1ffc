/** Option and Result values used by the invoice model for missing dictionary
    keys and for the KeyError that a missing required key raises. */
module Wrappers {

  /** A dictionary entry that may be absent. */
  datatype Option<+T> = None | Some(value: T) {

    /** The value when present, `default` otherwise (Python's `dict.get(key, default)`). */
    function GetOr(default: T): T {
      match this
      case Some(v) => v
      case None => default
    }
  }

  /** The outcome of an operation that either returns a value or raises. */
  datatype Result<+T, +E> = Ok(value: T) | Err(error: E)
}
