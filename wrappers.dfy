/** Optional values and the outcome of an operation that may raise. */
module Wrappers {

  datatype Option<+T> = None | Some(value: T) {
    /** The value, or `default` when there is none (a defaulted argument). */
    function GetOr(default: T): T {
      match this
      case Some(v) => v
      case None => default
    }
  }

  /** An exception the modelled code raises. */
  datatype Error =
    | KeyError(key: string)            // a dictionary lookup on a missing key
    | CatalogueNotFound(query: string) // the store has no catalogue for this uuid or name
    | EventNotFound(query: string)     // the store has no event for this uuid

  /** The value a call returns, or the exception it raises. */
  datatype Result<+T> = Ok(value: T) | Err(error: Error)
}
