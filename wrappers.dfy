/** The optional-value type used wherever the app's Kotlin code works with a nullable value. */
module Wrappers {
  datatype Option<+T> = None | Some(value: T)
}
