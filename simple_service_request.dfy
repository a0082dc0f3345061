/**
 * `SimpleServiceRequestBase`: executing one request and reading its response.
 * The response (`HttpWebRequest` in the library) is an object with a content
 * type, a body read through a cursor, a way the body stream ends, and a count
 * of `close()` calls. The service's header processing and response tracing
 * are recorded in a trace log; the XML reader is a function of the bytes it
 * is given.
 */
module SimpleServiceRequest {
  import opened Wrappers
  import opened Exceptions
  import ServiceResponseErrors

  newtype byte = b: int | 0 <= b < 256

  /** What the body stream does after its last byte: report end of data (`read()` returns -1), or throw. */
  datatype StreamEnd = EndOfData | StreamFails(exception: JavaException)

  /** One `read()` of the stream: a byte, the -1 end marker, or an exception. */
  datatype ReadOutcome = Data(b: byte) | EndOfStream | ReadFailed(exception: JavaException)

  class HttpWebRequest {
    const contentType: string
    const body: seq<byte>
    const ending: StreamEnd
    /** How many body bytes have been read. */
    var cursor: nat
    var closeCount: nat

    ghost predicate Valid()
      reads this
    {
      cursor <= |body|
    }

    /** The bytes not yet read. */
    function Remaining(): (rest: seq<byte>)
      reads this
      requires Valid()
      ensures body == body[..cursor] + rest
    {
      body[cursor..]
    }

    constructor (contentType: string, body: seq<byte>, ending: StreamEnd)
      ensures Valid() && cursor == 0 && closeCount == 0
      ensures this.contentType == contentType && this.body == body && this.ending == ending
    {
      this.contentType := contentType;
      this.body := body;
      this.ending := ending;
      cursor := 0;
      closeCount := 0;
    }

    /** `read()` on the response stream. */
    method Read() returns (r: ReadOutcome)
      requires Valid()
      modifies this`cursor
      ensures Valid()
      ensures old(cursor) < |body| ==> r == Data(body[old(cursor)]) && cursor == old(cursor) + 1
      ensures old(cursor) == |body| ==>
        cursor == |body| && r == (if ending.EndOfData? then EndOfStream else ReadFailed(ending.exception))
    {
      if cursor < |body| {
        r := Data(body[cursor]);
        cursor := cursor + 1;
      } else if ending.EndOfData? {
        r := EndOfStream;
      } else {
        r := ReadFailed(ending.exception);
      }
    }

    method Close()
      modifies this`closeCount
      ensures closeCount == old(closeCount) + 1
    {
      closeCount := closeCount + 1;
    }
  }

  /** What the service's trace side channel records. */
  datatype TraceEvent =
    | ResponseHeadersProcessed(bytesReadBefore: nat)
    | ResponseTraced(bytes: seq<byte>)
    | NonXmlResponseLogged(firstLine: Option<seq<byte>>)

  /** The parts of `ExchangeService` that reading a response touches. */
  class ExchangeService {
    /** `isTraceEnabledFor(TraceFlags.EwsResponse)`. */
    var traceEwsResponse: bool
    var log: seq<TraceEvent>

    constructor (traceEwsResponse: bool)
      ensures this.traceEwsResponse == traceEwsResponse && log == []
    {
      this.traceEwsResponse := traceEwsResponse;
      log := [];
    }

    /** `processHttpResponseHeaders(TraceFlags.EwsResponseHttpHeaders, response)`: records how much of the body had been read. */
    method ProcessHttpResponseHeaders(response: HttpWebRequest)
      modifies this`log
      ensures log == old(log) + [ResponseHeadersProcessed(response.cursor)]
    {
      log := log + [ResponseHeadersProcessed(response.cursor)];
    }

    method Record(event: TraceEvent)
      modifies this`log
      ensures log == old(log) + [event]
    {
      log := log + [event];
    }
  }

  /** `getResponseContentType().startsWith("text/xml")`: a case-sensitive prefix test. */
  predicate IsXml(contentType: string) {
    "text/xml" <= contentType
  }

  predicate IsLineTerminator(b: byte) {
    b == 10 || b == 13
  }

  /** The length of the first line: the bytes before the first '\n' or '\r'. */
  function LineLength(bytes: seq<byte>): (n: nat)
    ensures n <= |bytes|
    ensures forall i :: 0 <= i < n ==> !IsLineTerminator(bytes[i])
    ensures n < |bytes| ==> IsLineTerminator(bytes[n])
  {
    if bytes == [] || IsLineTerminator(bytes[0]) then 0 else 1 + LineLength(bytes[1..])
  }

  /**
   * `BufferedReader.readLine()` on the stream: the first line, `null` at end
   * of data, or the stream's exception when no line ends before it fails.
   */
  function FirstLine(rest: seq<byte>, ending: StreamEnd): (r: Result<Option<seq<byte>>, JavaException>)
    ensures r.Success? && r.value.Some? ==>
      && r.value.value <= rest
      && (forall i :: 0 <= i < |r.value.value| ==> !IsLineTerminator(r.value.value[i]))
      && (|r.value.value| < |rest| ==> IsLineTerminator(rest[|r.value.value|]))
    ensures r.Failure? <==> ending.StreamFails? && forall i :: 0 <= i < |rest| ==> !IsLineTerminator(rest[i])
    ensures r.Failure? ==> r.error == ending.exception
    ensures r == Success(None) <==> (rest == [] && ending.EndOfData?)
  {
    var n := LineLength(rest);
    if n < |rest| then Success(Some(rest[..n]))
    else if ending.StreamFails? then Failure(ending.exception)
    else if rest == [] then Success(None)
    else Success(Some(rest))
  }

  /** The `ServiceRequestException` that `readResponse` and `internalExecute` wrap a cause in. */
  function RequestFailed(e: JavaException): (w: JavaException)
    ensures w.ServiceRequestException? && w.cause == Some(e)
  {
    ServiceRequestException(Formatted(ServiceRequestFailed, [ServiceResponseErrors.MessageOf(e)]), Some(e))
  }

  const NotXmlError: JavaException := ServiceRequestException(Formatted(ServiceResponseDoesNotContainXml, []), None)

  /** What the XML reader produces from the remaining stream: the stream's own failure, or the parse of its bytes. */
  function StreamParse<R>(rest: seq<byte>, ending: StreamEnd, parse: seq<byte> -> Result<R, JavaException>): Result<R, JavaException> {
    if ending.StreamFails? then Failure(ending.exception) else parse(rest)
  }

  /** The catch clauses of `readResponse`: an `HttpException` or `IOException` is wrapped, anything else propagates. */
  function CatchIO<R>(outcome: Result<R, JavaException>): Result<R, JavaException> {
    match outcome
    case Success(v) => Success(v)
    case Failure(e) => if e.IsIOException() then Failure(RequestFailed(e)) else Failure(e)
  }

  /** What `readResponse` returns for a response with this content type and remaining body, whichever trace flag is set. */
  function ReadResult<R>(contentType: string, rest: seq<byte>, ending: StreamEnd,
                         parse: seq<byte> -> Result<R, JavaException>): Result<R, JavaException> {
    if !IsXml(contentType) then
      match FirstLine(rest, ending)
      case Failure(e) => Failure(e)
      case Success(_) => Failure(NotXmlError)
    else
      CatchIO(StreamParse(rest, ending, parse))
  }

  /** The trace events `readResponse` records. */
  function ReadLog<R>(trace: bool, contentType: string, readBefore: nat, rest: seq<byte>, ending: StreamEnd,
                      parse: seq<byte> -> Result<R, JavaException>): seq<TraceEvent> {
    if !IsXml(contentType) then
      match FirstLine(rest, ending)
      case Failure(_) => []
      case Success(line) => [NonXmlResponseLogged(line)]
    else
      var outcome := StreamParse(rest, ending, parse);
      [ResponseHeadersProcessed(readBefore)]
      + (if trace && ending.EndOfData? then [ResponseTraced(rest)] else [])
      + (if outcome.Failure? && outcome.error.HttpException? && outcome.error.message != NullMessage
         then [ResponseHeadersProcessed(readBefore + |rest|)] else [])
  }

  /**
   * The tracing copy loop: `read()` until it returns -1, writing each byte to
   * the memory buffer. The buffer ends up holding the whole remaining body.
   */
  method CopyToMemory(response: HttpWebRequest) returns (memory: seq<byte>, failure: Option<JavaException>)
    requires response.Valid()
    modifies response`cursor
    ensures response.Valid() && response.cursor == |response.body|
    ensures memory == old(response.Remaining())
    ensures failure == if response.ending.StreamFails? then Some(response.ending.exception) else None
  {
    ghost var start := response.cursor;
    memory := [];
    while true
      invariant response.Valid() && start <= response.cursor
      invariant memory == response.body[start..response.cursor]
      decreases |response.body| - response.cursor
    {
      var data := response.Read();
      match data
      case EndOfStream =>
        failure := None;
        return;
      case ReadFailed(e) =>
        failure := Some(e);
        return;
      case Data(b) =>
        memory := memory + [b];
    }
  }

  /**
   * `readResponse(HttpWebRequest)`. A non-XML response is rejected before the
   * `try`, after reading its first line, and is not closed. Otherwise the
   * headers are processed first, the body is parsed (through the memory buffer
   * when response tracing is on), and the response is closed once whatever
   * the outcome.
   */
  method ReadResponse<R>(service: ExchangeService, response: HttpWebRequest, parse: seq<byte> -> Result<R, JavaException>)
    returns (r: Result<R, JavaException>)
    requires response.Valid()
    modifies service`log, response`cursor, response`closeCount
    ensures response.Valid()
    ensures r == ReadResult(response.contentType, old(response.Remaining()), response.ending, parse)
    ensures response.closeCount == old(response.closeCount) + (if IsXml(response.contentType) then 1 else 0)
    ensures response.cursor == if IsXml(response.contentType) then |response.body| else old(response.cursor)
    ensures service.log == old(service.log) +
      ReadLog(service.traceEwsResponse, response.contentType, old(response.cursor), old(response.Remaining()), response.ending, parse)
  {
    ghost var rest := response.Remaining();
    ghost var readBefore := response.cursor;
    if !IsXml(response.contentType) {
      var line := FirstLine(response.Remaining(), response.ending);
      match line {
        case Failure(e) =>
          r := Failure(e);
        case Success(l) =>
          service.Record(NonXmlResponseLogged(l));
          r := Failure(NotXmlError);
      }
      return;
    }
    service.ProcessHttpResponseHeaders(response);
    var outcome: Result<R, JavaException>;
    if service.traceEwsResponse {
      var memory, failure := CopyToMemory(response);
      if failure.Some? {
        outcome := Failure(failure.value);
      } else {
        service.Record(ResponseTraced(memory));
        outcome := parse(memory);
      }
    } else {
      // The XML reader consumes the live stream.
      outcome := StreamParse(response.Remaining(), response.ending, parse);
      response.cursor := |response.body|;
    }
    assert outcome == StreamParse(rest, response.ending, parse);
    match outcome {
      case Success(v) =>
        r := Success(v);
      case Failure(e) =>
        if e.HttpException? {
          if e.message != NullMessage {
            service.ProcessHttpResponseHeaders(response);
          }
          r := Failure(RequestFailed(e));
        } else if e.IOException? {
          r := Failure(RequestFailed(e));
        } else {
          r := Failure(e);
        }
    }
    // finally
    response.Close();
  }

  /** `internalExecute()`'s catch clause: every exception is wrapped in a `ServiceRequestException`. */
  function WrapAll<R>(outcome: Result<R, JavaException>): Result<R, JavaException> {
    match outcome
    case Success(v) => Success(v)
    case Failure(e) => Failure(RequestFailed(e))
  }

  /**
   * `internalExecute()`: `emitted` is what `validateAndEmitRequest()` returned
   * or threw. A response that was obtained is closed in `finally`, on top of
   * the close in `readResponse`.
   */
  method InternalExecute<R>(service: ExchangeService, emitted: Result<HttpWebRequest, JavaException>,
                            parse: seq<byte> -> Result<R, JavaException>)
    returns (r: Result<R, JavaException>)
    requires emitted.Success? ==> emitted.value.Valid()
    modifies service`log, if emitted.Success? then {emitted.value} else {}
    ensures emitted.Failure? ==> r == Failure(RequestFailed(emitted.error)) && service.log == old(service.log)
    ensures emitted.Success? ==>
      var response := emitted.value;
      && response.Valid()
      && r == WrapAll(ReadResult(response.contentType, old(response.Remaining()), response.ending, parse))
      && response.closeCount == old(response.closeCount) + (if IsXml(response.contentType) then 2 else 1)
      && response.cursor == (if IsXml(response.contentType) then |response.body| else old(response.cursor))
      && service.log == old(service.log) +
         ReadLog(service.traceEwsResponse, response.contentType, old(response.cursor), old(response.Remaining()), response.ending, parse)
  {
    match emitted
    case Failure(e) =>
      r := Failure(RequestFailed(e));
    case Success(response) =>
      var outcome := ReadResponse(service, response, parse);
      r := WrapAll(outcome);
      response.Close();
  }

  /** The result `beginExecute` hands back: it references the built request. */
  datatype AsyncRequestResult = AsyncRequestResult(request: HttpWebRequest)

  /**
   * `beginExecute`: `validate()` runs before `buildEwsHttpWebRequest()`, so a
   * validation failure is what the caller sees whatever building would do.
   */
  function BeginExecute(validation: Outcome<JavaException>, built: Result<HttpWebRequest, JavaException>): (r: Result<AsyncRequestResult, JavaException>)
    ensures validation.Fail? ==> r == Failure(validation.error)
    ensures validation.Pass? ==> (r.Success? <==> built.Success?)
    ensures validation.Pass? && built.Failure? ==> r.error == built.error
    ensures r.Success? ==> r.value.request == built.value
  {
    match validation
    case Fail(e) => Failure(e)
    case Pass =>
      match built
      case Failure(e) => Failure(e)
      case Success(request) => Success(AsyncRequestResult(request))
  }

  /**
   * `endInternalExecute`: `completed` is what `asyncResult.get()` returned or
   * threw; the response is read as on the synchronous path, and closed only by
   * `readResponse`.
   */
  method EndInternalExecute<R>(service: ExchangeService, completed: Result<HttpWebRequest, JavaException>,
                               parse: seq<byte> -> Result<R, JavaException>)
    returns (r: Result<R, JavaException>)
    requires completed.Success? ==> completed.value.Valid()
    modifies service`log, if completed.Success? then {completed.value} else {}
    ensures completed.Failure? ==> r == Failure(completed.error) && service.log == old(service.log)
    ensures completed.Success? ==>
      var response := completed.value;
      && response.Valid()
      && r == ReadResult(response.contentType, old(response.Remaining()), response.ending, parse)
      && response.closeCount == old(response.closeCount) + (if IsXml(response.contentType) then 1 else 0)
      && response.cursor == (if IsXml(response.contentType) then |response.body| else old(response.cursor))
      && service.log == old(service.log) +
         ReadLog(service.traceEwsResponse, response.contentType, old(response.cursor), old(response.Remaining()), response.ending, parse)
  {
    match completed
    case Failure(e) =>
      r := Failure(e);
    case Success(response) =>
      r := ReadResponse(service, response, parse);
  }

  // ---- properties of reading a response ----

  /** A non-XML response fails without its body being parsed: the parser cannot affect the outcome. */
  lemma NonXmlIgnoresParser<R>(contentType: string, rest: seq<byte>, ending: StreamEnd,
                               p1: seq<byte> -> Result<R, JavaException>, p2: seq<byte> -> Result<R, JavaException>)
    requires !IsXml(contentType)
    ensures ReadResult(contentType, rest, ending, p1) == ReadResult(contentType, rest, ending, p2)
    ensures ReadResult(contentType, rest, ending, p1).Failure?
    ensures FirstLine(rest, ending).Success? ==> ReadResult(contentType, rest, ending, p1) == Failure(NotXmlError)
  {
  }

  /** An XML body that ends normally yields exactly the parse of its bytes when that succeeds. */
  lemma WellFormedXmlYieldsParse<R>(contentType: string, rest: seq<byte>, parse: seq<byte> -> Result<R, JavaException>)
    requires IsXml(contentType) && parse(rest).Success?
    ensures ReadResult(contentType, rest, EndOfData, parse) == parse(rest)
  {
  }

  /** An I/O failure while reading is rethrown as a `ServiceRequestException` carrying its message and cause. */
  lemma IOFailureIsWrapped<R>(contentType: string, rest: seq<byte>, e: JavaException, parse: seq<byte> -> Result<R, JavaException>)
    requires IsXml(contentType) && e.IsIOException()
    ensures ReadResult(contentType, rest, StreamFails(e), parse) ==
      Failure(ServiceRequestException(Formatted(ServiceRequestFailed, [e.message]), Some(e)))
  {
  }

  /** `startsWith` is case-sensitive and accepts parameters after the media type. */
  lemma ContentTypeExamples()
    ensures IsXml("text/xml; charset=utf-8")
    ensures !IsXml("TEXT/XML") && !IsXml("text/html") && !IsXml("application/soap+xml")
  {
    assert "TEXT/XML"[0] != "text/xml"[0];
    assert "text/html"[5] != "text/xml"[5];
    assert "application/soap+xml"[0] != "text/xml"[0];
  }

  /** The first line stops at the first line terminator. */
  lemma {:induction false} FirstLineStopsAtTerminator(line: seq<byte>, tail: seq<byte>, ending: StreamEnd)
    requires forall i :: 0 <= i < |line| ==> !IsLineTerminator(line[i])
    ensures FirstLine(line + [10] + tail, ending) == Success(Some(line))
  {
    LineLengthOfPrefix(line, [10 as byte] + tail);
    assert line + [10] + tail == line + ([10 as byte] + tail);
    assert (line + ([10 as byte] + tail))[..|line|] == line;
  }

  lemma {:induction false} LineLengthOfPrefix(line: seq<byte>, tail: seq<byte>)
    requires forall i :: 0 <= i < |line| ==> !IsLineTerminator(line[i])
    requires |tail| > 0 && IsLineTerminator(tail[0])
    ensures LineLength(line + tail) == |line|
  {
    if line == [] {
      assert line + tail == tail;
    } else {
      LineLengthOfPrefix(line[1..], tail);
      assert (line + tail)[1..] == line[1..] + tail;
    }
  }
}
