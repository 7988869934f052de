/** The exceptions the store raises. Every Suitcase exception carries a
    message and the error string that caused it (empty when there is
    none); a plain PHP exception carries only a message. */
module Exceptions {

  datatype Error =
    | CollectionException(message: string, cause: string)
    | CollectionNotEmptyException(message: string, cause: string)
    | SaveException(message: string, cause: string)
    | ReadException(message: string, cause: string)
    | DeleteException(message: string, cause: string)
    | FormatException(message: string, cause: string)
      /** The base `\Exception` that the JSON format throws. */
    | PlainException(message: string)
      /** An exception of code the store calls (Flysystem, the serializer)
          that the store does not catch, passed on unchanged. */
    | Uncaught(thrown: ForeignException)

  /** An exception thrown by code outside the store: its class and message. */
  datatype ForeignException = ForeignException(name: string, message: string)

  /** A value, or the exception thrown instead of returning it. */
  datatype Result<+T> = Ok(value: T) | Err(error: Error)
}
