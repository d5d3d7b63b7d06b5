/** Option and Result, the shapes of the source's `None`-returning lookups and
    of the `{"success": False, "error": ...}` replies of its routes. */
module Wrappers {

  datatype Option<+T> = None | Some(value: T)

  datatype Result<+T, +E> = Ok(value: T) | Err(error: E)
}
