/** An Option value, used where the source holds an `Option<_>` field or returns a fallible parse. */
module Wrappers {
  datatype Option<+T> = None | Some(value: T)
}
