/** The Python exceptions that the trading code raises, or that reach the webhook handler. */
module Exceptions {

  datatype Exception =
    | ValueError(message: string)
    | TypeError(message: string)
    | IndexError(message: string)
    | AttributeError(message: string)
    /** Raised by the brokerage client (alpaca_trade_api's APIError) or any other foreign failure. */
    | ApiError(message: string)

  /** The exceptions the handler reports as bad parameters. */
  predicate IsParameterError(e: Exception) {
    e.ValueError? || e.TypeError?
  }
}
