/** Optional values shared by the model. */
module Wrappers {

  /** A value that may be absent; the model's stand-in for Python's `None`. */
  datatype Option<+T> = None | Some(value: T)
}
