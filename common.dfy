/** Small value types shared by every module of the model. */
module Common {

  /** An optional value: `None` stands for a JavaScript field that is absent, `undefined` or `null`. */
  datatype Option<T> = None | Some(value: T) {
    function GetOr(default: T): T {
      if Some? then value else default
    }
  }

  /** JavaScript's `x || 0` on a numeric field: an absent field (or 0) reads as 0. */
  function Or0(o: Option<int>): int {
    o.GetOr(0)
  }

  /** The outcome of an operation that either succeeds with a value or fails with an error. */
  datatype Result<T, E> = Ok(value: T) | Err(error: E)
}
