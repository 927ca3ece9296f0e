/** The optional-value type shared by the cache and the proxy. */
module Wrappers {

  /** A value that may be absent: a cache lookup that misses, or a request
      that made no upstream fetch. */
  datatype Option<+T> = None | Some(value: T)
}
