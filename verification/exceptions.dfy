/** The exceptions the bot raises and catches (exceptions.py). TokenError and
    APIResponseError are the two subclasses of PraktikumAPIError; TypeError is
    Python's built-in class, raised by check_response. */
module Exceptions {

  datatype ErrorKind = TokenError | APIResponseError | TypeError {

    /** Whether the class derives from PraktikumAPIError (exceptions.py:1-10). */
    predicate IsPraktikumAPIError() {
      this != TypeError
    }
  }

  /** A raised exception: its class and the text `str(error)` gives for it. */
  datatype Error = Error(kind: ErrorKind, text: string)
}
