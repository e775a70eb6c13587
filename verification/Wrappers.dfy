// Option, used throughout for SQL NULLs, missing map keys and error returns.
module Wrappers {

  datatype Option<+T> = None | Some(value: T)
}
