/** The optional value shared by every module (Kotlin's nullable `T?`). */
module Wrappers {

  datatype Option<T> = None | Some(value: T)
}
