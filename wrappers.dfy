/** The optional values of the client (Swift's `T?`). */
module Wrappers {

  /** `None` is Swift's `nil`; `Some(v)` a present value. */
  datatype Option<T> = None | Some(value: T)
}
