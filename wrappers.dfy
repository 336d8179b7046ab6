/** Option, Result and Outcome, and the error values the library reports.
    The library's functions return `anyhow::Result`; an error is either one
    raised with `bail!` (a fixed message) or a deserialisation error that `?`
    propagates from the RON/TOML reader. */
module Wrappers {

  datatype Option<+T> = None | Some(value: T)

  datatype Result<+T, +E> = Ok(value: T) | Err(error: E)

  /** The result of an operation that returns `Result<()>`. */
  datatype Outcome<+E> = Pass | Fail(error: E)

  datatype Error =
    | Bail(message: string)  // `anyhow::bail!(message)`
    | ParseError             // the stored record could not be deserialised
}
