/** Optional values and the outcome of a call that may raise. */
module Wrappers {

  /** A value that may be absent (Python's None, or a record field not yet assigned). */
  datatype Option<+T> = None | Some(value: T)

  /** The outcome of a call into a library or remote service: it returns a value or raises. */
  datatype Reply<+T> = Ok(value: T) | Raised
}
