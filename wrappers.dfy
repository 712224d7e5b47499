/** The Option type used where the source keeps a reference that may be null. */
module Wrappers {
  datatype Option<+T> = None | Some(value: T)
}
