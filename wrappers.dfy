/** The optional value the tool uses for "no point is being dragged". */
module Wrappers {
  datatype Option<+T> = None | Some(value: T)
}
