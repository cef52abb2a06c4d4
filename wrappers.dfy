/** The optional value used across the model: `None` where JavaScript has
    `undefined`, `null` or `-1` for "not found". */
module Wrappers {

  datatype Option<+T> = None | Some(value: T)
}
