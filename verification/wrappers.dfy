/** Python's `None`-or-value, used for optional metadata fields and for the
    error paths where the source raises or returns `None`. */
module Wrappers {

  datatype Option<+T> = None | Some(value: T)
}
