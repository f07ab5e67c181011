/** Absent-or-present values: a key of the page's session state, or an input widget left empty. */
module Wrappers {

  datatype Option<+T> = None | Some(value: T)
}
