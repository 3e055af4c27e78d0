/** The optional value used where the source uses `None` for "not found". */
module Wrappers {

  datatype Option<+T> = None | Some(value: T)
}
