/** Optional values: the null references and absent lookups of the system. */
module Wrappers {

  datatype Option<+T> = None | Some(value: T)
}
