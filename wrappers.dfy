/** Optional values: the outcome of an operation that may fail without further detail. */
module Wrappers {

  datatype Option<+T> = None | Some(value: T)
}
