/** The optional value used for every nullable or absent field of the stores. */
module Options {

  datatype Option<+T> = None | Some(value: T) {

    /**
     * The wrapped value, or `default` when absent: `data || []` of a select,
     * and the fallback to the old field in an object spread `{ ...t, ...p }`.
     */
    function GetOr(default: T): T {
      match this
      case Some(v) => v
      case None => default
    }
  }
}
