/** A submitted form field may be absent altogether: `Option` tells the two apart. */
module Wrappers {

  datatype Option<+T> = None | Some(value: T)
}
