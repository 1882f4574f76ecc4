/** Optional values and thrown-or-returned outcomes, the two shapes the
    front end's loosely typed code keeps producing (`null`/`undefined`
    and `try`/`catch`). */
module Wrappers {

  /** A value that may be absent: JavaScript's `null`/`undefined`. */
  datatype Option<+T> = None | Some(value: T) {

    /** The value, or `default` when absent (`x ?? default`). */
    function GetOr(default: T): T {
      match this
      case Some(v) => v
      case None => default
    }
  }

  /** Either a returned value or a thrown error carrying its message. */
  datatype Outcome<+T> = Returned(value: T) | Threw(message: string)
}
