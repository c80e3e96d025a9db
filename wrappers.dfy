/** Optional values: `None` stands for an absent result (a null pointer in the source). */
module Wrappers {

  datatype Option<+T> = None | Some(value: T)
}
