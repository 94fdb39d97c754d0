/** Optional values: Python's None, and NaN indicator readings that make
    every comparison false. */
module Wrappers {

  datatype Option<+T> = None | Some(value: T)
}
