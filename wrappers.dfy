/** Optional values, and results that either carry a value or the Python exception
    the modelled code would raise at that point. */
module Wrappers {

  datatype Option<+T> = None | Some(value: T)

  /** The exceptions the modelled code can raise, named after Python's built-in classes. */
  datatype Exception =
    | AttributeError(reason: string)
    | ValueError(reason: string)
    | KeyError(key: string)
    | ConnectionError(reason: string)

  datatype Result<+T> = Success(value: T) | Raised(exception: Exception)
}
