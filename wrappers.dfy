/** Optional values and the outcome of one call to a remote service. */
module Wrappers {

  /** A value that may be absent (`undefined` on the JavaScript side). */
  datatype Option<+T> = None | Some(value: T)

  /** What an awaited upstream call gives back: its decoded reply, or a failure
      (a transport error, a non-2xx status, or a reply whose shape makes the
      handler throw). The handlers never look at the kind of failure. */
  datatype Outcome<+T> = Ok(value: T) | Failed
}
