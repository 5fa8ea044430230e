/** The optional value used throughout the model for Rust's `Option`. */
module Wrappers {
  datatype Option<T> = None | Some(value: T)
  {
    /** `Option::unwrap_or`. */
    function UnwrapOr(default: T): T
    {
      if Some? then value else default
    }
  }
}
