/** Optional values, standing in for the null pointers and empty shared pointers of the driver. */
module Wrappers {

  datatype Option<+T> = None | Some(value: T)

}
