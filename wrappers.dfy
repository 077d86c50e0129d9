/** Swift's `Optional`, as returned by `Polyline.lastSegment()`. */
module Wrappers {

  datatype Option<+T> = None | Some(value: T)
}
