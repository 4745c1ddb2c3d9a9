/** The optional value used wherever the source has `None` or an error path. */
module Wrappers {

  datatype Option<+T> = None | Some(value: T)
}
