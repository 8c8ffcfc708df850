// Optional values for the engine's `null` results.

module Wrappers {

  datatype Option<T> = None | Some(value: T)
}
