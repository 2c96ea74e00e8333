/** The Some/None datatype used wherever the program has `undefined`, `null`
    or "nothing stored". */
module Wrappers {

  datatype Option<+T> = None | Some(value: T) {

    /** The carried value, with `default` standing in when there is none. */
    function GetOr(default: T): T {
      match this
      case Some(v) => v
      case None => default
    }
  }
}
