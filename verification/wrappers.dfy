/** The optional value used wherever the application stores `None` or
    a value: the session's user e-mail, a failed fetch, an absent table. */
module Wrappers {

  datatype Option<+T> = None | Some(value: T) {

    /** Returns the value held in Some, or `default` when None. */
    function GetOr(default: T): T {
      match this
      case Some(v) => v
      case None => default
    }
  }
}
