/** What a lookup or a step that may fail gives. */
module Wrappers {
  datatype Option<+T> = None | Some(value: T)
}
