/** The optional value used throughout the model: `None` stands for Python's
    `None` result or for "no match" of a regular expression. */
module Wrappers {

  datatype Option<+T> = None | Some(value: T) {

    /** The value, or `default` when there is none. */
    function GetOr(default: T): T {
      match this
      case Some(v) => v
      case None => default
    }
  }
}
