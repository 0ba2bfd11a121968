/** Absence as a value: Kotlin's nullable `T?` as returned by `find` and the service. */
module Wrappers {
  datatype Option<+T> = None | Some(value: T)
}
