/** Option and Result, the two failure-carrying shapes the Rust code uses. */
module Wrappers {

  datatype Option<+T> = None | Some(value: T) {
    function GetOr(default: T): T {
      match this
      case Some(v) => v
      case None => default
    }
  }

  datatype Result<+T, +E> = Ok(value: T) | Err(error: E)
}

/**
 * The `anyhow` errors of the program: a message raised with `bail!`/`anyhow!`,
 * a measurement-count mismatch, and a message added by `.with_context(..)`
 * around an underlying error.
 */
module Errors {

  datatype Error =
    | Bail(message: string)
    // "ffmpeg returns {count} loudness value(s) instead of 10: \n{values:#?}"
    | WrongCount(count: nat)
    | Context(message: string, cause: Error)
}
