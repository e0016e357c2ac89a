/** Optional values: the source's std::optional, nullable pointers and empty std::function objects. */
module Wrappers {

  datatype Option<+T> = None | Some(value: T)
}
