/**
 * `ServiceResponseException`: the exception raised for a single failed
 * service response, and the diagnostic message it builds from the response's
 * error text and detail map.
 */
module ServiceResponseErrors {
  import opened Wrappers
  import opened Exceptions

  const ExceptionClassKey: string := "ExceptionClass"
  const ExceptionMessageKey: string := "ExceptionMessage"
  const StackTraceKey: string := "StackTrace"
  const InnerErrorResponseCodeKey: string := "InnerErrorResponseCode"
  const InnerErrorMessageTextKey: string := "InnerErrorMessageText"

  /** Both inner-error keys are present. */
  predicate HasInnerError(details: map<string, string>) {
    InnerErrorResponseCodeKey in details && InnerErrorMessageTextKey in details
  }

  /** All three server stack-trace keys are present. */
  predicate HasServerStackTrace(details: map<string, string>) {
    ExceptionClassKey in details && ExceptionMessageKey in details && StackTraceKey in details
  }

  function InnerErrorSuffix(code: string, text: string): string {
    " (InnerErrorResponseCode: " + code + ", InnerErrorMessageText: " + text + ")"
  }

  /** The text accumulated in the `StringBuilder`: the error message and, if present, the inner error. */
  function BuilderText(response: ServiceResponse): string {
    var details := response.errorDetails;
    if HasInnerError(details) then
      response.errorMessage + InnerErrorSuffix(details[InnerErrorResponseCodeKey], details[InnerErrorMessageTextKey])
    else
      response.errorMessage
  }

  /** `getErrorCode()`. */
  function ErrorCode(e: JavaException): (code: ServiceError)
    requires e.ServiceResponseException?
    ensures code == e.response.errorCode
  {
    e.response.errorCode
  }

  /**
   * `getMessage()`. The message is the builder text, except for an internal
   * server error that carries all three stack-trace keys, whose message is the
   * `ServerErrorAndStackTraceDetails` template applied to the builder text and
   * the three detail values, in that order.
   */
  function GetMessage(response: ServiceResponse): (m: Message)
    ensures m.Text? || m.Formatted?
    ensures m.Formatted? <==>
      response.errorCode == ErrorInternalServerError && HasServerStackTrace(response.errorDetails)
    ensures m.Text? ==> response.errorMessage <= m.text
    ensures m.Formatted? ==>
      && m.template == ServerErrorAndStackTraceDetails
      && |m.args| == 4
      && m.args[0].Text? && response.errorMessage <= m.args[0].text
      && m.args[1] == Text(response.errorDetails[ExceptionClassKey])
      && m.args[2] == Text(response.errorDetails[ExceptionMessageKey])
      && m.args[3] == Text(response.errorDetails[StackTraceKey])
  {
    var details := response.errorDetails;
    var builder := BuilderText(response);
    if response.errorCode == ErrorInternalServerError && HasServerStackTrace(details) then
      Formatted(ServerErrorAndStackTraceDetails,
        [Text(builder), Text(details[ExceptionClassKey]), Text(details[ExceptionMessageKey]), Text(details[StackTraceKey])])
    else
      Text(builder)
  }

  /** The text that the message leads with: the whole text, or the template's first argument. */
  function LeadingText(m: Message): string {
    match m
    case Text(s) => s
    case Formatted(_, args) => if |args| > 0 && args[0].Text? then args[0].text else ""
    case NullMessage => ""
  }

  /**
   * The inner-error suffix follows the error message if and only if both
   * inner-error keys are present; it then carries the code and then the text.
   */
  lemma InnerErrorSuffixIffBothKeys(response: ServiceResponse)
    ensures LeadingText(GetMessage(response)) == BuilderText(response)
    ensures HasInnerError(response.errorDetails) <==> BuilderText(response) != response.errorMessage
    ensures HasInnerError(response.errorDetails) ==>
      BuilderText(response) == response.errorMessage +
        InnerErrorSuffix(response.errorDetails[InnerErrorResponseCodeKey], response.errorDetails[InnerErrorMessageTextKey])
  {
    if HasInnerError(response.errorDetails) {
      var s := BuilderText(response);
      assert |s| > |response.errorMessage|;
    }
  }

  /** With only one of the two inner-error keys there is no suffix, whatever the code. */
  lemma OneInnerKeyAddsNothing(response: ServiceResponse)
    requires (InnerErrorResponseCodeKey in response.errorDetails) != (InnerErrorMessageTextKey in response.errorDetails)
    ensures LeadingText(GetMessage(response)) == response.errorMessage
  {
  }

  /** Apart from the stack-trace case, the message is exactly the builder text. */
  lemma PlainMessageUnlessServerStackTrace(response: ServiceResponse)
    requires response.errorCode != ErrorInternalServerError || !HasServerStackTrace(response.errorDetails)
    ensures GetMessage(response) == Text(BuilderText(response))
  {
  }

  /** The example of a "Bad request" response with inner-error detail. */
  lemma BadRequestExample()
    ensures GetMessage(ServiceResponse(OtherServiceError("ErrorInvalidRequest"), "Bad request",
      map[InnerErrorResponseCodeKey := "42", InnerErrorMessageTextKey := "quota"]))
      == Text("Bad request" + " (InnerErrorResponseCode: 42, InnerErrorMessageText: quota)")
  {
    var details := map[InnerErrorResponseCodeKey := "42", InnerErrorMessageTextKey := "quota"];
    assert HasInnerError(details);
    assert !HasServerStackTrace(details) by { assert StackTraceKey !in details; }
    var response := ServiceResponse(OtherServiceError("ErrorInvalidRequest"), "Bad request", details);
    assert InnerErrorSuffix("42", "quota") == " (InnerErrorResponseCode: 42, InnerErrorMessageText: quota)";
  }

  /**
   * `Throwable.getMessage()` for each modelled exception; for `NumberFormatException`
   * it is the JDK's "For input string" text.
   */
  function MessageOf(e: JavaException): (m: Message)
    ensures e.ServiceResponseException? ==> m == GetMessage(e.response)
  {
    match e
    case ServiceResponseException(response) => GetMessage(response)
    case ServiceRequestException(msg, _) => msg
    case ServiceXmlDeserializationException(msg, _) => msg
    case ArgumentException(msg, _) => msg
    case EwsHttpException(msg) => msg
    case HttpException(msg) => msg
    case IOException(msg) => msg
    case NumberFormatException(input) => Text("For input string: \"" + input + "\"")
    case ParseException(input) => Text("Unparseable date: \"" + input + "\"")
    case ClassCastException => NullMessage
    case NullPointerException => NullMessage
    case AssertionFailure(msg) => msg
    case OtherException(_, msg) => msg
  }
}
