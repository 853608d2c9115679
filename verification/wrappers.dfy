/** Failure-carrying values shared by every module of the model.

    Go functions in the modelled program return `(value, error)` pairs; here a
    call either yields `Ok(value)` or `Err(message)`, the message being the
    text the Go `error` would print. A nil Go pointer or an absent optional
    field is an `Option`. */
module Wrappers {

  datatype Option<+T> = None | Some(value: T) {
    /** The wrapped value, or `default` when absent. */
    function GetOr(default: T): T {
      match this
      case Some(v) => v
      case None => default
    }
  }

  datatype Outcome<+T> = Ok(value: T) | Err(error: string) {
    /** Forgets the error text. */
    function ToOption(): Option<T> {
      match this
      case Ok(v) => Some(v)
      case Err(_) => None
    }
  }

  /** A call whose completion may not have been observed yet: a poll loop
      that is still waiting has not returned anything. */
  datatype Pending<+T> = Waiting | Finished(outcome: Outcome<T>)
}
