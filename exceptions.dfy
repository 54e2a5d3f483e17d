/** The exception hierarchy of the wrapper, flattened into one value. */
module Exceptions {

  import opened Json

  /** Which class was raised. `Generic` is the base `ScrappeyError`;
      `Foreign` stands for any Python exception that is not a
      `ScrappeyError` at all (an `AttributeError` on a malformed value, a
      JSON decoding error). */
  datatype ErrorKind = Auth | Timeout | Request | Generic | ScrapflyScrape | Foreign

  /** A raised exception: its class and its `message`, `code` and
      `api_response` attributes (`JNull` for Python's `None`). `str(e)` is
      the message itself whenever the message is a string. */
  datatype Exception = Exception(kind: ErrorKind, message: Json, code: Json, apiResponse: Json) {

    /** `isinstance(e, ScrappeyError)`. */
    predicate IsScrappeyError() {
      kind != Foreign
    }
  }

  /** An exception that is not a `ScrappeyError`, with its text. */
  function ForeignError(message: string): Exception {
    Exception(Foreign, JStr(message), JNull, JNull)
  }
}
