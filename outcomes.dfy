/** Result shapes shared by the whole model. */
module Outcomes {

  /** A value that may be absent: a missing dictionary key, a `None` return. */
  datatype Option<+T> = None | Some(value: T)

  /** What an external service call produced: a value, or an exception of any kind. */
  datatype Outcome<+T> = Ok(value: T) | Fail
}
