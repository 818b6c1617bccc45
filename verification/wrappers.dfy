/** The optional value used wherever a JavaScript field may be null or undefined. */
module Wrappers {

  datatype Option<+T> = None | Some(value: T) {

    /** The `??` operator: this value if present, otherwise `default`. */
    function GetOr(default: T): T {
      match this
      case Some(v) => v
      case None => default
    }
  }
}
