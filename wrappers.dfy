/** Optional values, used for "no image loaded" and "no signal emitted". */
module Wrappers {

  datatype Option<+T> = None | Some(value: T)
}
