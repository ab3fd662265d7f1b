/** Optional values, standing for `std::optional` and for pointers that may be NULL. */
module Wrappers {

  datatype Option<+T> = None | Some(value: T)

}
