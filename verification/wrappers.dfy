/** Optional values: TypeScript's `field?: T`, where an absent field reads as `undefined`. */
module Wrappers {

  datatype Option<+T> = None | Some(value: T)
}
