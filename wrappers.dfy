/** Optional values: a JavaScript value that may be undefined or not a number. */
module Wrappers {
  datatype Option<+T> = None | Some(value: T)
}
