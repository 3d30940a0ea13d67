/** Kotlin's nullable values (`T?`) as an Option datatype. */
module Wrappers {
  datatype Option<+T> = None | Some(value: T)
}
