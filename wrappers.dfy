/** Optional values: Java's nullable references (a `Throwable failure` that may be null). */
module Wrappers {
  datatype Option<+T> = None | Some(value: T)
}
