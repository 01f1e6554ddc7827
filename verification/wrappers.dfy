/** Failure-carrying wrappers shared by every component of the model. */
module Wrappers {

  /** The conventional Some/None datatype, used for a value that may be absent
      (a Python `None`, a JavaScript `null`, a missing map key). */
  datatype Option<+T> = None | Some(value: T) {

    /** Returns the value encapsulated in Some, or `default` for None */
    function GetOr(default: T): T {
      match this
      case Some(v) => v
      case None => default
    }
  }

  /** The outcome of a call into code the model cannot see: it either raised
      an exception (whose kind does not matter to the caller) or returned a value. */
  datatype Outcome<+T> = Raised | Returned(value: T)
}
