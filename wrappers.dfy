/** Optional values: the model's counterpart of a field typed `int | None`. */
module Wrappers {

  datatype Option<+T> = None | Some(value: T)
}
