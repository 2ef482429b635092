/** The optional value used wherever the Go code has a nil pointer or an (value, err) pair. */
module Wrappers {

  datatype Option<+T> = None | Some(value: T) {

    /* The value carried, or `default` when there is none: Go's "keep the
    field unless the parse succeeded". */
    function GetOr(default: T): T {
      match this
      case Some(v) => v
      case None() => default
    }
  }
}
