/** The optional value used wherever the plugin returns `undefined` for "nothing". */
module Wrappers {

  datatype Option<+T> = None | Some(value: T)
}
