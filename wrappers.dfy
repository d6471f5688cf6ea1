/** The optional value used for the nullable (`T?`) parameters and results of the visitor. */
module Wrappers {

  /** `None` stands for Kotlin's `null`. */
  datatype Option<+T> = None | Some(value: T)
}
