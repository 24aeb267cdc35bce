/** Option and Result, the failure-compatible wrappers used across the model. */
module Wrappers {

  datatype Option<+T> = None | Some(value: T)

  datatype Result<+R, +E> = Success(value: R) | Failure(error: E)

  /** An optional string as JavaScript and Python test it: present and not empty. */
  predicate StrTruthy(s: Option<string>) { s.Some? && s.value != "" }
}
