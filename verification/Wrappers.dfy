/** The stock Option type shared by the state machines: `None` is a step that is not enabled. */
module Wrappers {
  datatype Option<+T> = None | Some(value: T)
}
