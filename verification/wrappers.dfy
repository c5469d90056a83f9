/** The optional value used wherever the Java code works with a possibly-null reference. */
module Wrappers {

  /** `None` stands for Java's `null`; `Some(v)` for a non-null reference to `v`. */
  datatype Option<+T> = None | Some(value: T) {

    /** Returns the value held, or `default` when there is none. */
    function GetOr(default: T): T {
      match this
      case Some(v) => v
      case None => default
    }
  }
}
