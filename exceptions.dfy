/** The exceptions raised inside `get_pricing_info` and how its handlers report them. */
module Exceptions {

  /** The exceptions the pricing workflow can see (Python exception classes). */
  datatype Exc =
    | TimeoutException
    | NoSuchElementException
    | WebDriverException(message: string)
    | VerificationCodeRetrievalError(message: string)
    | TypeError(message: string)
    | AttributeError(message: string)

  /** The default message of `VerificationCodeRetrievalError`. */
  const RETRIEVAL_ERROR_MESSAGE := "Unable to retrieve the verification code after maximum retries."

  const TIMEOUT_MESSAGE := "Operation timed out."
  const NOT_FOUND_MESSAGE := "Expected element not found on page."

  /** Either a returned value or a raised exception. */
  datatype Outcome<+T> = Returned(value: T) | Raised(exc: Exc)

  /**
   * The `except` chain of `get_pricing_info`: fixed texts for the two
   * Selenium exceptions, `str(e)` for every other one.
   */
  function HandlerMessage(e: Exc): (r: string)
    ensures e.TimeoutException? ==> r == TIMEOUT_MESSAGE
    ensures e.NoSuchElementException? ==> r == NOT_FOUND_MESSAGE
    ensures !e.TimeoutException? && !e.NoSuchElementException? ==> r == e.message
  {
    match e
    case TimeoutException => TIMEOUT_MESSAGE
    case NoSuchElementException => NOT_FOUND_MESSAGE
    case WebDriverException(m) => m
    case VerificationCodeRetrievalError(m) => m
    case TypeError(m) => m
    case AttributeError(m) => m
  }
}
