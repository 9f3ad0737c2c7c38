/** Optional values: a header that may be absent from a request. */
module Wrappers {

  datatype Option<+T> = None | Some(value: T)
}
