/** The optional-value type used for PHP's nullable results (a missing post,
    a missing form field). */
module Wrappers {

  datatype Option<+T> = None | Some(value: T)
}
