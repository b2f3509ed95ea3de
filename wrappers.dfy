/** A Java reference that may be null, or a lookup that may find nothing. */
module Wrappers {

  datatype Option<+T> = None | Some(value: T)

}
