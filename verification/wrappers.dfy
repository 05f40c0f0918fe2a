/** The absent-or-present wrapper used wherever the source has `T | null`
    or an optional key. */
module Wrappers {

  datatype Option<+T> = None | Some(value: T)
}
