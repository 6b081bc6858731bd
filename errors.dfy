/**
 * The error collection a failed bind hands back.
 *
 * The Python class `errors.ParserErrorCollection` is not part of this model: it is
 * kept as an opaque value holding the diagnostics in the order they were added.
 */
module Errors {
  import opened Common

  /** One diagnostic: where it points, its error identifier and its message text. */
  datatype ParserError = ParserError(location: SourceLocation, errorId: string, message: string)

  datatype ParserErrorCollection = ParserErrorCollection(errors: seq<ParserError>)
}
