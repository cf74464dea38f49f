/** The nullable values of the component (`null` in the initial React state). */
module Wrappers {

  datatype Option<+T> = None | Some(value: T)
}
