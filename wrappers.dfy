/** An optional value, standing for a pointer that may be null or a lookup that may miss. */
module Wrappers {
  datatype Option<+T> = None | Some(value: T)
}
