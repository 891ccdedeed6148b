/** The exceptions a call on the client can end in. */
module Errors {

  datatype Error =
      /** `NotAvailable`: a development-only endpoint was called in production. */
    | NotAvailable(message: string)
      /** `InvalidParam`: a brightness, darkness or threshold outside 0..255. */
    | InvalidParam(message: string)
      /** Python `TypeError` raised by the client itself (text, style, theme, quote). */
    | TypeMismatch(message: string)
      /** Python `TypeError` for a call with too few or too many positional arguments. */
    | WrongArity(callee: string)
      /** Python `AttributeError`: `.lower()` called on a style that is not a string. */
    | MissingAttribute(attribute: string)
      /** The bare `Exception` raised for any HTTP status other than 200. */
    | HttpStatus(code: int)
      /** Python `KeyError`: the JSON body lacks the field the primitive extracts. */
    | MissingKey(key: string)
      /** Python `ValueError` from `bytes()`: an element of `data` outside 0..255. */
    | ByteOutOfRange

  /** Tail shared by every `NotAvailable` message. */
  const DisabledInProduction := " endpoint is disabled while in production"
}
