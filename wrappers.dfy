// Optional values: the model's stand-in for `T | undefined` and for `Map.get` results.
module Wrappers {

  datatype Option<+T> = None | Some(value: T)
}
