/** Values shared by the modules of the bot: Python's `None`, and the
    exceptions that the per-symbol `try` block of the trading cycle catches. */
module Basics {

  /** A value that may be `None`. */
  datatype Option<T> = None | Some(value: T)

  /** The exceptions the decision logic can raise for one symbol. */
  datatype Exception =
    | ZeroSizeArray   // numpy's max/min of an empty array raises ValueError
    | NoSymbolInfo    // the broker returned None for symbol_info: attribute access fails

  /** A computation that either returns a value or raises. */
  datatype Result<T> = Ok(value: T) | Err(error: Exception)
}
