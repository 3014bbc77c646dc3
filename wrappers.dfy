/** Optional values for what the widget keeps as `undefined` or `NaN`, and
    results for its operations that throw. */
module Wrappers {

  datatype Option<+T> = None | Some(value: T)

  datatype Result<+T, +E> = Ok(value: T) | Err(error: E)
}
