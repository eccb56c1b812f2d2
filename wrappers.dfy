/** Option, and the outcome of a call that either returns a value or throws. */
module Wrappers {

  datatype Option<+T> = None | Some(value: T) {
    function GetOr(default: T): T {
      match this
      case Some(v) => v
      case None => default
    }
  }

  /** What an awaited call produced: a value, or a thrown error with its message.
      Used both for calls into the hosted backend (oracle inputs) and for the
      results of the modelled async functions. */
  datatype Outcome<+T> = Returned(value: T) | Threw(message: string)
}
