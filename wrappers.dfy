/** The optional value used where the source distinguishes "present" from "absent". */
module Wrappers {
  datatype Option<+T> = None | Some(value: T)
}
