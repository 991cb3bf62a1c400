/** Optional values and fallible results shared by every module of the model. */
module Wrappers {
  datatype Option<T> = None | Some(value: T)
  {
    predicate IsSome() { this.Some? }
    function GetOr(default: T): T { if this.Some? then value else default }
  }

  /** A Go `(value, error)` pair or a Rust `Result`: the error is kept as text. */
  datatype Result<T> = Ok(value: T) | Err(error: string)
  {
    predicate IsOk() { this.Ok? }
  }
}
