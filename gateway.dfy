/**
 * What the remote data gateway and the identity service hand back to the stores.
 * Every remote call of a store is replaced by one of these values, given to the
 * store's method as a parameter: the model does not decide which one arrives.
 */
module Gateway {
  import opened Options

  /** A call that returns data: the data, or an error carrying its message. */
  datatype Response<+T> = Ok(value: T) | Err(message: string)

  /** A call that returns no data: success, or an error carrying its message. */
  datatype Outcome = Done | Failed(message: string)

  /** `data || []`: a select whose data field is null counts as no rows. */
  function OrEmpty<T>(data: Option<seq<T>>): seq<T> {
    data.GetOr([])
  }
}
