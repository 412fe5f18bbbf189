/** The conventional optional-value datatype. `None` stands for a PHP value that
    is unset, `null` or `false`, depending on where it is used. */
module Wrappers {

  datatype Option<+T> = None | Some(value: T) {

    /** The value, or `default` when there is none (PHP's `isset($x) ? $x : default`). */
    function GetOr(default: T): T {
      match this
      case Some(v) => v
      case None => default
    }
  }
}
