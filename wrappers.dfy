/** The optional-value datatype shared by every module of the model. */
module Wrappers {

  /** `None` stands for Python's `None`, JavaScript's `null`, or a key missing from a message. */
  datatype Option<+T> = None | Some(value: T) {

    /** The value, or `default` when there is none (`dict.get(key, default)`). */
    function GetOr(default: T): T {
      match this
      case Some(v) => v
      case None => default
    }
  }
}
