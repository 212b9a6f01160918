/** The optional value used wherever the dashboards hold a JavaScript `null`,
    `undefined` or `NaN`. */
module Wrappers {

  datatype Option<+T> = None | Some(value: T) {

    /** The value, or the default for `None`: JavaScript's `x || d` when `x` is never falsy
        except by being absent. */
    function GetOr(default: T): T {
      match this
      case Some(v) => v
      case None => default
    }
  }
}
