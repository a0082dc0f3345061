/**
 * The exception values that flow through the request-execution layer: the
 * service's error codes, a failed service response, symbolic messages built
 * from the library's `Strings` templates, and the Java exceptions that the
 * modelled methods throw, catch or wrap.
 */
module Exceptions {
  import opened Wrappers

  /** The error codes the modelled code distinguishes; every other member of the `ServiceError` enum is `OtherServiceError`. */
  datatype ServiceError =
    | ErrorFolderNotFound
    | ErrorItemNotFound
    | ErrorNonExistentMailbox
    | ErrorInternalServerError
    | OtherServiceError(name: string)

  /** A response the service reported as failed: its code, its text and its detail key/value pairs. */
  datatype ServiceResponse = ServiceResponse(
    errorCode: ServiceError,
    errorMessage: string,
    errorDetails: map<string, string>)

  /** The `Strings` format templates; their text is not part of this model. */
  datatype Template =
    | ServiceRequestFailed
    | ServiceResponseDoesNotContainXml
    | ServerErrorAndStackTraceDetails
    | ValueCannotBeConverted
    | ValueOfTypeCannotBeConverted
    | IncompatibleTypeForArray
    | ArrayMustHaveSingleDimension
    | ArrayMustHaveAtLeastOneElement
    | NoDefaultValueEntry

  /**
   * An exception message: literal text, Java's `null`, or a template applied
   * to its arguments by `String.format`.
   */
  datatype Message =
    | Text(text: string)
    | NullMessage
    | Formatted(template: Template, args: seq<Message>)

  /** The Java exceptions of the modelled code, with the data each one carries. */
  datatype JavaException =
    | ServiceResponseException(response: ServiceResponse)
    | ServiceRequestException(message: Message, cause: Option<JavaException>)
    | ServiceXmlDeserializationException(message: Message, cause: Option<JavaException>)
    | ArgumentException(message: Message, cause: Option<JavaException>)
    | EwsHttpException(message: Message)
    | HttpException(message: Message)
    | IOException(message: Message)
    | NumberFormatException(input: string)
    | ParseException(input: string)
    | ClassCastException
    | NullPointerException
    | AssertionFailure(message: Message)
    | OtherException(className: string, message: Message)
  {
    /** `catch (IOException e)`: commons-httpclient's `HttpException` is an `IOException`. */
    predicate IsIOException() {
      HttpException? || IOException?
    }
  }
}
