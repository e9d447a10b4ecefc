/** Option: the model's stand-in for Kotlin's nullable types (`UUID?`, `Device?`, ...). */
module Wrappers {

  datatype Option<T> = None | Some(value: T)
}
