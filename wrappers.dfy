/** Optional values, shared by the modules of this model. */
module Wrappers {

  /** A value that may be absent: PHP's NULL / a falsy return, JavaScript's null. */
  datatype Option<+T> = None | Some(value: T)
}
