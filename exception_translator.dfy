/**
 * `EwsExceptionTranslator.translate`: classifies any exception into the
 * facade's exception taxonomy. The Java method never returns normally; the
 * value of `Translate` is the exception it throws.
 */
module ExceptionTranslator {
  import opened Exceptions
  import ServiceResponseErrors

  /** The facade's exceptions; each wraps the exception it was translated from. */
  datatype EwsException =
    | FolderNotFoundEwsException(cause: JavaException)
    | ItemNotFoundEwsException(cause: JavaException)
    | NonExistentMailboxEwsException(cause: JavaException)
    | HttpEwsException(cause: JavaException)
    | GenericEwsException(cause: JavaException)
  {
    /** The three service-error variants derive from `PemanentEwsException`. */
    predicate IsPermanent() {
      FolderNotFoundEwsException? || ItemNotFoundEwsException? || NonExistentMailboxEwsException?
    }
  }

  /** `e` is a `ServiceResponseException` whose error code is `code`. */
  predicate HasServiceError(e: JavaException, code: ServiceError) {
    e.ServiceResponseException? && ServiceResponseErrors.ErrorCode(e) == code
  }

  function Translate(e: JavaException): (t: EwsException)
    ensures t.cause == e
    ensures t.FolderNotFoundEwsException? <==> HasServiceError(e, ErrorFolderNotFound)
    ensures t.ItemNotFoundEwsException? <==> HasServiceError(e, ErrorItemNotFound)
    ensures t.NonExistentMailboxEwsException? <==> HasServiceError(e, ErrorNonExistentMailbox)
    ensures t.HttpEwsException? <==> e.EwsHttpException?
    ensures t.GenericEwsException? <==>
      !e.EwsHttpException? &&
      !(e.ServiceResponseException? &&
        ServiceResponseErrors.ErrorCode(e) in {ErrorFolderNotFound, ErrorItemNotFound, ErrorNonExistentMailbox})
  {
    if e.ServiceResponseException? then
      match ServiceResponseErrors.ErrorCode(e)
      case ErrorFolderNotFound => FolderNotFoundEwsException(e)
      case ErrorItemNotFound => ItemNotFoundEwsException(e)
      case ErrorNonExistentMailbox => NonExistentMailboxEwsException(e)
      case _ => GenericEwsException(e)
    else if e.EwsHttpException? then
      HttpEwsException(e)
    else
      GenericEwsException(e)
  }

  /** Only a service response with one of the three "not found" codes yields a permanent failure. */
  lemma PermanentOnlyForNotFoundCodes(e: JavaException)
    ensures Translate(e).IsPermanent() <==>
      e.ServiceResponseException? &&
      e.response.errorCode in {ErrorFolderNotFound, ErrorItemNotFound, ErrorNonExistentMailbox}
  {
  }

  /** Examples of the classification. */
  lemma TranslateExamples(message: string, details: map<string, string>)
    ensures Translate(ServiceResponseException(ServiceResponse(ErrorItemNotFound, message, details))).ItemNotFoundEwsException?
    ensures Translate(ServiceResponseException(ServiceResponse(OtherServiceError("ErrorWhatever"), message, details))).GenericEwsException?
    ensures Translate(ServiceResponseException(ServiceResponse(ErrorInternalServerError, message, details))).GenericEwsException?
    ensures Translate(EwsHttpException(Text(message))).HttpEwsException?
    ensures Translate(IOException(Text(message))).GenericEwsException?
  {
  }
}
