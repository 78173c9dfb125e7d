/** Optional values: PHP's NULL / FALSE "no value" results. */
module Wrappers {

  datatype Option<+T> = None | Some(value: T)
}
