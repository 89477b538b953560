/** The optional value used wherever the source has a field that may be
    `undefined`, or a call that may yield `NaN`. */
module Wrappers {

  datatype Option<+T> = None | Some(value: T) {

    /** The value, or `default` when there is none. The source writes this
        `x || d`, which agrees with it wherever `d` is the falsy value the
        field could hold, as in `p.sales || 0`. */
    function GetOr(default: T): T {
      match this
      case Some(v) => v
      case None => default
    }
  }
}
