/** Small value wrappers shared by the model. */
module Wrappers {
  /** Kotlin's nullable result (`T?`). */
  datatype Option<+T> = None | Some(value: T)
}
