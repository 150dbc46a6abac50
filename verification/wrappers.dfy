/** The optional-value datatype used for table columns that may be absent. */
module Wrappers {

  /** `None` stands for a column the table does not have. */
  datatype Option<+T> = None | Some(value: T) {

    /** The value if present, otherwise `default`. */
    function GetOr(default: T): T {
      match this
      case Some(v) => v
      case None => default
    }
  }
}
