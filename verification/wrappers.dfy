/** The optional value used throughout the model in place of a Kotlin nullable reference. */
module Wrappers {

  /** `None` stands for Kotlin's `null`, `Some(v)` for a present value `v`. */
  datatype Option<+T> = None | Some(value: T)
}
