/** A value that may be absent: the model's stand-in for `null` and for a missing storage entry. */
module Nullable {

  datatype Option<+T> = None | Some(value: T)
}
