/** Optional values, standing in for JavaScript's `null` and for the
    "this call threw" outcome of a foreign function. */
module Wrappers {

  datatype Option<+T> = None | Some(value: T)
}
