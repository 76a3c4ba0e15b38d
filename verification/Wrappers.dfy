/** Optional values, used where the service stores a nullable column or may find no row. */
module Wrappers {
  datatype Option<+T> = None | Some(value: T)
}
