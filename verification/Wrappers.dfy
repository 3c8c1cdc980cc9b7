/** The nullable values of the plugin's host API (`String?`, `PyType?`, ...) as an Option. */
module Wrappers {

  datatype Option<+T> = None | Some(value: T)
}
