/** Optional values: the model of TypeScript's `T | undefined` / `T | null`. */
module Wrappers {
  datatype Option<+T> = None | Some(value: T)
}
