/** An optional value: a failed `NSEvent` conversion, or a resolver that finds no action. */
module Wrappers {
  datatype Option<T> = None | Some(value: T)
}
