/** The value-or-nothing type used for the null cells of a raw table and for the
    means that pandas reports as NaN. */
module Options {

  datatype Option<+T> = None | Some(value: T) {

    /** The value, or `default` when there is none. */
    function GetOr(default: T): T
    {
      match this
      case Some(v) => v
      case None => default
    }
  }
}
