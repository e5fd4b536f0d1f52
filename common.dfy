/** Small value wrappers shared by the other modules: Rust's Option and a
    unit-valued Result. */
module Common {

  /** Rust's Option<T>. */
  datatype Option<+T> = None | Some(value: T) {

    /** Rust's `Option::or_else` with an eagerly evaluated alternative. */
    function OrElse(other: Option<T>): Option<T> {
      if Some? then this else other
    }
  }

  /** Rust's Result<(), E>. */
  datatype Outcome<+E> = Ok | Err(error: E)
}
