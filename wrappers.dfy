/** Small value wrappers shared by every module. */
module Wrappers {

  /** A nullable value: `None` stands for JSON `null` / Python `None` / JS `undefined`. */
  datatype Option<+T> = None | Some(value: T) {
    function GetOr(default: T): T {
      match this
      case Some(v) => v
      case None => default
    }
  }

  /**
   * A request-body field that has a declared default: the client either leaves the key out
   * (`Omitted`) or sends a value (`Given`). Pydantic fills an omitted key with the default.
   */
  datatype Field<+T> = Omitted | Given(value: T) {
    function Or(default: T): (r: T)
      ensures Omitted? ==> r == default
      ensures Given? ==> r == value
    {
      match this
      case Omitted => default
      case Given(v) => v
    }
  }
}
