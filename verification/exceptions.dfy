/** The exceptions the modelled code raises, each with its message. */
module Exceptions {

  datatype Error =
      /** `WrongResponseFormatException`: the service response lacks the expected shape. */
    | WrongResponseFormat(message: string)
      /** `IllegalArgumentException` (also raised by `Enum.valueOf` for an unknown name). */
    | IllegalArgument(message: string)
      /** `NullPointerException` (raised by `Enum.valueOf` for a null name). */
    | NullPointer(message: string)
      /** Any other failure reported by code outside this model (a parser, a converter). */
    | External(message: string)
}
