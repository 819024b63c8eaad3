/** Optional values, used for the outcome of decoding a file. */
module Wrappers {

  datatype Option<+T> = None | Some(value: T)
}
