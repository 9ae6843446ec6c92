/** Optional values: Go's `(value, ok)` pairs and nil-able parameters. */
module Wrappers {

  datatype Option<+T> = None | Some(value: T)
}
