/** The optional value used for the browser's persisted keys: `None` when a key
    holds nothing usable, `Some(v)` when it holds a well-formed value. */
module Wrappers {

  datatype Option<+T> = None | Some(value: T)
}
