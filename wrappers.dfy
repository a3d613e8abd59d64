/** Optional values: the outcome of a read, a parse or a decode that can fail. */
module Wrappers {

  datatype Option<+T> = None | Some(value: T)
}
