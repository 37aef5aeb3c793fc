/** The optional value used for tags that may be missing, events that may be
    "all of them", and a connection that may not have been made. */
module Wrappers {

  datatype Option<+T> = None | Some(value: T)
}
