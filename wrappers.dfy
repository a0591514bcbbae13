/** Optional values (a TypeScript `T | null` or an absent key) and results with an error branch. */
module Wrappers {

  datatype Option<+T> = None | Some(value: T)

  datatype Result<+T, +E> = Ok(value: T) | Err(error: E)
}
