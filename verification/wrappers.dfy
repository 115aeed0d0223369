/** The shapes of Python's absence and failure, shared by every module.

    A Python value that may be `None` is an `Option`; a call that may raise
    is a `Result`, whose failure side names the kind of exception. */
module Wrappers {

  datatype Option<+T> = None | Some(value: T) {

    /** The value, or `default` for `None`. */
    function GetOr(default: T): T {
      match this
      case Some(v) => v
      case None => default
    }
  }

  datatype Result<+T, +E> = Success(value: T) | Failure(error: E)

  /** The kinds of exception the modelled code raises or catches. */
  datatype Exception =
    | TypeError       // wrong operand type, or `__init__` returning a value
    | IndexError      // list index out of range
    | NameError       // reference to an undefined global
    | AttributeError  // attribute lookup on `None`
    | OSError         // a file that does not open, or whose buffered bytes do not reach the disk on close
}
