/** The error enum of the OneDrive backend (`src/backend/onedrive/mod.rs`) and the outcome of an operation. */
module Errors {

  import opened Paths

  /**
   * One constructor per variant of the source's `Error`. The underlying
   * `reqwest`/`io` errors and the JSON text of a parsing failure are not kept.
   */
  datatype Error =
    | RefreshToken
    | CsrfToken
    | FileTooLarge(file: Path, size: string)
    | GetParentId(path: Path)
    | Parsing
    | InvalidPath(path: Path)
    | CreateDir(path: Path)
    | CreateUploadSessionRequest
    | CreateUploadSession(message: string)
    | UploadFileSessionRequest
    | UploadFileSession(message: string)
    | ReadFile
    | UploadFile

  /** The message every session-expiry failure carries. */
  const SESSION_EXPIRED := "Upload session expired"

  /**
   * What an operation ends in: a value, an error of the source's enum, a
   * panic (an `unwrap` on `None` or `Err`), or, for the server-driven chunk
   * loop only, running out of the rounds the model was given.
   */
  datatype Outcome<+T> = Ok(value: T) | Err(error: Error) | Panic | OutOfFuel {

    /** The same failure, at another value type. */
    function Cast<U>(): (r: Outcome<U>)
      requires !Ok?
    {
      match this
      case Err(e) => Err(e)
      case Panic => Panic
      case OutOfFuel => OutOfFuel
    }
  }
}
