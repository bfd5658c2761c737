/** Optional values: a TypeScript `T | undefined`, or a computation that can fail. */
module Wrappers {

  datatype Option<+T> = None | Some(value: T)
}
