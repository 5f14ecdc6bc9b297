/**
 * The Java exceptions that can leave the modelled code. A thrown exception
 * becomes an `Err(f)` value; the message is the one Java would give it.
 */
module Exceptions {

  datatype Fault =
    | ExtractionException(message: string)
    | ParsingException(message: string)
    | NothingFoundException(message: string)
    | ClassCastException
    | NullPointerException
    | IOException(message: string)
}
