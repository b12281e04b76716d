/** Optional values: the model's rendering of a JavaScript value that may be `null`
    (or `NaN`, for a number read from an input field). */
module Wrappers {

  datatype Option<+T> = None | Some(value: T)
}
