/** An optional value. In this model `None` stands for a key that a JavaScript
    object does not carry, and for a paste whose clipboard text did not yield
    an array. */
module Wrappers {
  datatype Option<+T> = None | Some(value: T)
}
