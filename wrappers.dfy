/** Small value types shared by every module: an optional value (PHP `null`,
    TypeScript `undefined`) and the two ways a call can end. */
module Wrappers {

  datatype Option<+T> = None | Some(value: T) {
    function GetOr(default: T): T {
      match this
      case Some(v) => v
      case None => default
    }
  }

  /** How a PHP call ends: it returns a value, or it throws. The string is the
      exception's message as the logger records it. */
  datatype Call<+T> = Returns(value: T) | Throws(error: string)
}
