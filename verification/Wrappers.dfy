/** Types shared by the modules of the model. */
module Wrappers {
  type Bytes = seq<bv8>

  datatype Option<+T> = None | Some(value: T)

  function Or<T>(o: Option<T>, default: T): T {
    if o.Some? then o.value else default
  }

  datatype Result<+T, +E> = Ok(value: T) | Err(error: E)
}
