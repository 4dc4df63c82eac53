/** The optional value used where the source returns `None` or a missing file has
    no content. */
module Opt {
  datatype Option<+T> = None | Some(value: T)
}
