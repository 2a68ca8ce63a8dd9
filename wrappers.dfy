/** The nullable values of the page's state (`string | null`), as a datatype. */
module Wrappers {

  datatype Option<+T> = None | Some(value: T)
}
