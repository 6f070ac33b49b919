/** Shared vocabulary of the two analysis programs. */
module Values {

  /** A kinematic reading (pt, eta, phi or charge) as the data files hold it.
      Its numeric content is never inspected: values are only moved, counted
      and sequenced, so they are kept opaque. */
  type Value(==)

  /** The conventional Some/None datatype. */
  datatype Option<T> = None | Some(value: T)
}
