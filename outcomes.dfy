/** Optional values and results that carry the exception a Python operation raises. */
module Outcomes {

  datatype Option<+T> = None | Some(value: T)

  /** The exception classes the modelled code raises, catches or re-raises. */
  datatype ErrorKind =
    | ValueError
    | FileNotFoundError
    | KeyError
    | PermissionError
    | TypeError
    | AttributeError
    | DownloadError      // yt_dlp.utils.DownloadError
    | GenericException   // a bare `Exception(...)`, or any error of a foreign call

  /** A raised exception: its class and the text `str(e)` would give. */
  datatype Failure = Failure(kind: ErrorKind, message: string)

  /** The value an operation returns, or the exception it raises. */
  datatype Result<+T> = Ok(value: T) | Err(error: Failure)
}
