/** The usual optional-value datatype, standing in for JavaScript's "absent" (undefined). */
module Wrappers {

  datatype Option<+T> = None | Some(value: T)

}
