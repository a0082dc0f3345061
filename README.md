# Request-execution core of the EWS Java client, modelled in Dafny

This project models the request-execution layer of the Exchange Web Services
Java client library and proves properties of the model. Five pieces of the
library are covered.

- **Typed value conversion** (`MapiTypeConverterMapEntry`, module
  `MapiTypeConverter`). The entry is a class with the mutable fields
  `isArray`, `type`, `convertToString` and `parse`. The default-value table
  is a constant map. `changeType`, `validateValueAsArray`, `convertToValue`
  and `ConvertToValueOrDefault` are functions of the entry's fields.
  `getDim` is a method with its `while` loop. Java classes become the closed
  datatype `ClassId`, and objects become the tagged datatype `Value`. A Java
  `null` is `None`.
- **Response reading and request execution** (`SimpleServiceRequestBase`,
  module `SimpleServiceRequest`). The response object (`HttpWebRequest`) has
  a content type, a body read through a cursor, a way its stream ends, and a
  count of `close()` calls. The service records header processing and
  response tracing in a trace log. The XML reader is a function of the bytes
  it is handed, passed in as a parameter.
- **Error messages** (`ServiceResponseException.getMessage`, module
  `ServiceResponseErrors`). A pure function over the error code, the error
  text and the detail map. The `Strings` templates stay symbolic: a
  `Message` is literal text, `null`, or a template applied to arguments.
- **Error classification** (`EwsExceptionTranslator.translate`, module
  `ExceptionTranslator`). A total function from an exception to the
  exception it throws. The Java method never returns normally.
- **Time-change recurrence** (`TimeChangeRecurrence`, module `TimeChange`).
  A class with three optional fields, guarded setters, a writer of the
  non-null fields and a case-insensitive element reader. A write/read round
  trip is proved.

Shared modules: `Wrappers` (Option, Result, Outcome), `JavaText` (the JDK's
`equalsIgnoreCase`, `Integer.toString`, `Integer.parseInt` and
`Boolean.parseBoolean`, restricted to ASCII) and `Exceptions` (error codes,
service responses, messages, and the Java exceptions that are thrown,
caught or wrapped).

Collaborators that are not part of this model become parameters:
- the XML parser: `parse: seq<byte> -> Result<R, JavaException>`;
- the date parser: `parseDate`;
- `ComplexProperty.canSetFieldValue`: a function parameter of each setter;
- the results of `validate()`, `buildEwsHttpWebRequest()`,
  `validateAndEmitRequest()` and `asyncResult.get()`: `Outcome`/`Result`
  arguments.

`ComplexProperty.changed()` is modelled as a change counter.

Behaviours of the code that the model keeps as they are:
- The response is not closed exactly once on every path. `internalExecute`
  closes an XML response twice: once in `readResponse`'s `finally`, then in
  its own. It closes a non-XML response once. `endInternalExecute` never
  closes a non-XML response, because the rejection is thrown before
  `readResponse`'s `try`. `InternalExecute` and `EndInternalExecute` state
  these counts.
- A scalar mismatch does not fail with "value cannot be converted".
  `changeType` returns `null` for every target other than `Integer`, `Date`
  and `Boolean`. That includes `String`, because `isInstance(String.class)`
  never holds for a `String` entry (`StringTargetYieldsNull`).
- Only `Integer` targets are parsed. `Short` and `Long` targets also fall
  through to `null`.

## Model

| member | source | states |
|---|---|---|
| `MapiTypeConverter.DefaultTableShape` | src/main/java/microsoft/exchange/webservices/data/MapiTypeConverterMapEntry.java:34-49 | The table has entries for exactly Boolean, Byte[], Short, Integer, Long, Float, Double, Date, UUID and String. Every non-null default is a value of its own class. Only String and Byte[] default to null. |
| `MapiTypeConverter.MapiTypeConverterMapEntry.constructor` | src/main/java/microsoft/exchange/webservices/data/MapiTypeConverterMapEntry.java:84-99 | Requires a default-table entry for the class (the `EwsAssert`). Sets the type. Installs identity `parse` and `String.valueOf` `convertToString`. `isArray` is false. |
| `MapiTypeConverter.MapiTypeConverterMapEntry.Create` | src/main/java/microsoft/exchange/webservices/data/MapiTypeConverterMapEntry.java:84-86 | Construction succeeds if and only if the class has a table entry. Otherwise it fails with an assertion failure carrying the corrected message `NoDefaultMessage`, which names the class (see Findings; the source's own message does not). |
| `MapiTypeConverter.NoDefaultMessageOmitsTypeName` | src/main/java/microsoft/exchange/webservices/data/MapiTypeConverterMapEntry.java:85-86 | As written, the assertion message never ends with the class name: Java's `String.format` leaves the C#-style `{0}` in place. |
| `MapiTypeConverter.NoDefaultMessage` | src/main/java/microsoft/exchange/webservices/data/MapiTypeConverterMapEntry.java:86 | The corrected message ends with the class's name. |
| `MapiTypeConverter.MapiTypeConverterMapEntry.SetType` | src/main/java/microsoft/exchange/webservices/data/MapiTypeConverterMapEntry.java:255-257 | Sets the type and leaves the other three fields unchanged. |
| `MapiTypeConverter.MapiTypeConverterMapEntry.SetIsArray` | src/main/java/microsoft/exchange/webservices/data/MapiTypeConverterMapEntry.java:274-276 | Sets the array flag and leaves the other three fields unchanged. |
| `MapiTypeConverter.MapiTypeConverterMapEntry.SetConvertToString` | src/main/java/microsoft/exchange/webservices/data/MapiTypeConverterMapEntry.java:292-294 | Sets the to-string function and leaves the other three fields unchanged. |
| `MapiTypeConverter.MapiTypeConverterMapEntry.SetParse` | src/main/java/microsoft/exchange/webservices/data/MapiTypeConverterMapEntry.java:310-312 | Sets the parse function and leaves the other three fields unchanged. |
| `MapiTypeConverter.MapiTypeConverterMapEntry.GetDefaultValue` | src/main/java/microsoft/exchange/webservices/data/MapiTypeConverterMapEntry.java:319-321 | Returns the table entry for the entry's own class, or null for a class outside the table. A non-null result is always a value of that class. |
| `MapiTypeConverter.MapiTypeConverterMapEntry.ConvertToValue` | src/main/java/microsoft/exchange/webservices/data/MapiTypeConverterMapEntry.java:164-177 | Returns the parse result unchanged. A `ClassCastException` or `NumberFormatException` becomes a `ServiceXmlDeserializationException` that names the string and the class and keeps the cause. Any other exception propagates. |
| `MapiTypeConverter.MapiTypeConverterMapEntry.ConvertToValueOrDefault` | src/main/java/microsoft/exchange/webservices/data/MapiTypeConverterMapEntry.java:188-192 | A null or empty string gives the default value. Any other string gives `convertToValue`. |
| `MapiTypeConverter.DefaultParseIsIdentity` | src/main/java/microsoft/exchange/webservices/data/MapiTypeConverterMapEntry.java:94-98 | With the constructor's parse function, `convertToValue(s)` is `s`, and so is `ConvertToValueOrDefault(s)` for a non-empty `s`. |
| `MapiTypeConverter.MissingStringGivesDefault` | src/main/java/microsoft/exchange/webservices/data/MapiTypeConverterMapEntry.java:190 | For a null or empty string the result is false, zero or the zero UUID according to the class. For String and Byte[] it is null. |
| `MapiTypeConverter.NumberFormatBecomesDeserializationError` | src/main/java/microsoft/exchange/webservices/data/MapiTypeConverterMapEntry.java:172-175 | A parser's `NumberFormatException` becomes a deserialization error whose first argument is the string and whose cause is the original exception. |
| `MapiTypeConverter.MapiTypeConverterMapEntry.ValidateValueAsArray` | src/main/java/microsoft/exchange/webservices/data/MapiTypeConverterMapEntry.java:200-222 | A value passes if and only if it is a one-dimensional, non-empty array whose component class is the declared class. Rejections come in the source's order: not an array, dimension not 1, length 0, wrong component class. A null value throws `NullPointerException`. |
| `MapiTypeConverter.MapiTypeConverterMapEntry.ValidateValueAsArrayAsWritten` | src/main/java/microsoft/exchange/webservices/data/MapiTypeConverterMapEntry.java:202-211 | As written, every value is rejected: `instanceof java.lang.reflect.Array` never holds. |
| `MapiTypeConverter.ArrayCheckAsWrittenRejectsValidArray` | src/main/java/microsoft/exchange/webservices/data/MapiTypeConverterMapEntry.java:203 | A one-element `Integer[]` passes the intended checks but is rejected as written. |
| `MapiTypeConverter.MapiTypeConverterMapEntry.ChangeType` | src/main/java/microsoft/exchange/webservices/data/MapiTypeConverterMapEntry.java:116-151 | An array entry returns the value unchanged exactly when validation passes, and fails with the validation error otherwise. A non-array entry throws on null, returns a value of exactly the declared class unchanged, and coerces any other value. |
| `MapiTypeConverter.CoerceScalar` | src/main/java/microsoft/exchange/webservices/data/MapiTypeConverterMapEntry.java:124-145 | An Integer target succeeds exactly when `Integer.parseInt` accepts the printed value, and then gives that 32-bit number; otherwise a `NumberFormatException` on the printed value. A Date target gives the date parser's result on the printed value, or a `ParseException` when it fails. A Boolean target gives `Boolean.parseBoolean` of the printed value. Every other target gives null. |
| `MapiTypeConverter.ArrayRejectionsAreDistinct` | src/main/java/microsoft/exchange/webservices/data/MapiTypeConverterMapEntry.java:207-221 | A non-array, a two-dimensional array, an empty array and an array of the wrong component class are rejected with four different errors. |
| `MapiTypeConverter.ArrayEntryReturnsValidArray` | src/main/java/microsoft/exchange/webservices/data/MapiTypeConverterMapEntry.java:117-119 | An array entry returns a non-empty one-dimensional array of its class unchanged. |
| `MapiTypeConverter.IntegerTargetKeepsIntegralValue` | src/main/java/microsoft/exchange/webservices/data/MapiTypeConverterMapEntry.java:126-130 | An Integer entry turns any Byte, Short or Long value within 32 bits into the Integer with the same number. |
| `MapiTypeConverter.IntegerTargetParsesStrings` | src/main/java/microsoft/exchange/webservices/data/MapiTypeConverterMapEntry.java:128 | An Integer entry turns "42" into 42. It rejects "4x2" with a `NumberFormatException`, which is not caught. |
| `MapiTypeConverter.BooleanTargetUsesParseBoolean` | src/main/java/microsoft/exchange/webservices/data/MapiTypeConverterMapEntry.java:136-140 | A Boolean entry yields true exactly when the printed value equals "true" ignoring case. |
| `MapiTypeConverter.StringTargetYieldsNull` | src/main/java/microsoft/exchange/webservices/data/MapiTypeConverterMapEntry.java:141-144 | A String entry given a non-String value returns null: the `isInstance(String.class)` branch is never taken. |
| `MapiTypeConverter.ClassOf` | src/main/java/microsoft/exchange/webservices/data/MapiTypeConverterMapEntry.java:121 | `getClass()` of an array value is the array class of its component class. Every other value has a non-array class. |
| `MapiTypeConverter.ClassName` | src/main/java/microsoft/exchange/webservices/data/MapiTypeConverterMapEntry.java:86 | `getName()` is non-empty and starts with `[` exactly for an array class. |
| `MapiTypeConverter.ClassNameInjective` | src/main/java/microsoft/exchange/webservices/data/MapiTypeConverterMapEntry.java:86 | Two classes with the same `getName()` are the same class. |
| `MapiTypeConverter.ValueOf` | src/main/java/microsoft/exchange/webservices/data/MapiTypeConverterMapEntry.java:128-138 | `value + ""` (also `String.valueOf`, line 91): null prints as "null", a String as itself, a boxed integral value as `Integer.toString` of its number, and a Boolean as text that `Boolean.parseBoolean` reads back to the same value. An array's text starts with its class name. |
| `JavaText.IntToString` | src/main/java/microsoft/exchange/webservices/data/MapiTypeConverterMapEntry.java:128 | The decimal text of n is non-empty, starts with '-' exactly when n is negative, and is otherwise all digits. `ParseIntOfIntToString` shows `Integer.parseInt` reads it back. |
| `JavaText.EqualsIgnoreCaseIffLowerEqual` | src/main/java/microsoft/exchange/webservices/data/TimeChangeRecurrence.java:146-155 | `equalsIgnoreCase` holds exactly when the two strings are equal after lower-casing every letter. |
| `ServiceResponseErrors.ErrorCode` | src/main/java/microsoft/exchange/webservices/data/ServiceResponseException.java:64-66 | `getErrorCode()` is the error code of the wrapped response. |
| `SimpleServiceRequest.FirstLine` | src/main/java/microsoft/exchange/webservices/data/SimpleServiceRequestBase.java:115 | `readLine()` gives a prefix of the remaining bytes with no terminator, followed by a terminator or the end of the data. It throws the stream's exception exactly when the stream fails before any terminator. It gives null exactly for an empty stream that ends normally. |
| `MapiTypeConverter.GetDim` | src/main/java/microsoft/exchange/webservices/data/MapiTypeConverterMapEntry.java:230-238 | The loop returns the number of array levels of the value's class. The result is 0 exactly for a non-array value. |
| `MapiTypeConverter.DimOfNest` | src/main/java/microsoft/exchange/webservices/data/MapiTypeConverterMapEntry.java:230-238 | `getDim` of k array levels around a non-array class is k. |
| `MapiTypeConverter.DimZeroIffNotArray` | src/main/java/microsoft/exchange/webservices/data/MapiTypeConverterMapEntry.java:232-236 | Dimension 0 holds exactly for non-arrays. An array has one more level than its component class. |
| `JavaText.ParseIntOfIntToString` | src/main/java/microsoft/exchange/webservices/data/MapiTypeConverterMapEntry.java:128 | `Integer.parseInt` reads back the decimal text of every 32-bit integer. |
| `JavaText.DigitsValueOfNatToString` | src/main/java/microsoft/exchange/webservices/data/MapiTypeConverterMapEntry.java:128 | The decimal digits of n read back as n. |
| `JavaText.ParseInt` | src/main/java/microsoft/exchange/webservices/data/MapiTypeConverterMapEntry.java:128 | A successful parse yields a 32-bit value from a non-empty string. |
| `JavaText.ParseBoolean` | src/main/java/microsoft/exchange/webservices/data/MapiTypeConverterMapEntry.java:138 | True exactly when the text is "true" ignoring case. The text then has four characters. |
| `JavaText.ParseBooleanExamples` | src/main/java/microsoft/exchange/webservices/data/MapiTypeConverterMapEntry.java:138 | "TRUE" and "True" parse as true. "yes" and "1" parse as false. |
| `JavaText.EqualsIgnoreCaseIsEquivalence` | src/main/java/microsoft/exchange/webservices/data/TimeChangeRecurrence.java:146 | Case-insensitive equality is reflexive, symmetric and transitive. |
| `ServiceResponseErrors.GetMessage` | src/main/java/microsoft/exchange/webservices/data/ServiceResponseException.java:73-99 | The message is the stack-trace template exactly for an internal server error with all three stack-trace keys. It then carries the builder text followed by class, message and trace, verbatim. Otherwise it is plain text. Either way it begins with the response's error message. |
| `ServiceResponseErrors.InnerErrorSuffixIffBothKeys` | src/main/java/microsoft/exchange/webservices/data/ServiceResponseException.java:78-81 | The inner-error suffix follows the error message if and only if both inner-error keys are present. It then carries the code and then the text. |
| `ServiceResponseErrors.OneInnerKeyAddsNothing` | src/main/java/microsoft/exchange/webservices/data/ServiceResponseException.java:78 | With only one of the two inner-error keys, the message leads with the bare error message. |
| `ServiceResponseErrors.PlainMessageUnlessServerStackTrace` | src/main/java/microsoft/exchange/webservices/data/ServiceResponseException.java:83-98 | For any other code, or an internal server error without all three keys, the message is the builder text. |
| `ServiceResponseErrors.BadRequestExample` | src/main/java/microsoft/exchange/webservices/data/ServiceResponseException.java:74-81 | "Bad request" with inner-error detail gives the base text followed by the suffix. |
| `ServiceResponseErrors.MessageOf` | src/main/java/microsoft/exchange/webservices/data/ServiceResponseException.java:73 | A `ServiceResponseException`'s `getMessage()` is the formatted response message. |
| `ExceptionTranslator.Translate` | src/main/java/microsoft/exchange/webservices/data/exception/translator/EwsExceptionTranslator.java:13-27 | Every result wraps the original exception. Folder-not-found, item-not-found and non-existent-mailbox service errors map to their own variants (each if and only if). An `EWSHttpException` maps to the HTTP variant. Everything else maps to the generic `EwsException`. |
| `ExceptionTranslator.PermanentOnlyForNotFoundCodes` | src/main/java/microsoft/exchange/webservices/data/exception/translator/EwsExceptionTranslator.java:17-21 | The result is a permanent failure if and only if the input is a service response exception with one of the three codes. |
| `ExceptionTranslator.TranslateExamples` | src/main/java/microsoft/exchange/webservices/data/exception/translator/EwsExceptionTranslator.java:17-26 | ErrorItemNotFound gives the item variant. An unknown code and ErrorInternalServerError give the generic variant. An `EWSHttpException` gives the HTTP variant. A plain `IOException` gives the generic variant. |
| `SimpleServiceRequest.HttpWebRequest.Read` | src/main/java/microsoft/exchange/webservices/data/SimpleServiceRequestBase.java:133 | Returns the next byte and advances the cursor by one. At the end of the body it returns the end marker or the stream's exception, without moving. |
| `SimpleServiceRequest.HttpWebRequest.Close` | src/main/java/microsoft/exchange/webservices/data/SimpleServiceRequestBase.java:167-171 | Adds one to the close count. |
| `SimpleServiceRequest.ExchangeService.ProcessHttpResponseHeaders` | src/main/java/microsoft/exchange/webservices/data/SimpleServiceRequestBase.java:127 | Records how many body bytes had been read when the headers were processed. |
| `SimpleServiceRequest.CopyToMemory` | src/main/java/microsoft/exchange/webservices/data/SimpleServiceRequestBase.java:129-141 | Afterwards the memory buffer is the whole remaining body, in order, and the cursor is at the end. The loop stops with the stream's exception if the stream fails. |
| `SimpleServiceRequest.ReadResponse` | src/main/java/microsoft/exchange/webservices/data/SimpleServiceRequestBase.java:111-175 | The result is `ReadResult` of the content type and remaining bytes, the same whether tracing buffers the body or not. A non-XML response is read only for its first line, is not closed and keeps its cursor. An XML response has its headers processed before any byte is read and is closed exactly once. An `HttpException` with a message triggers a second header pass. |
| `SimpleServiceRequest.InternalExecute` | src/main/java/microsoft/exchange/webservices/data/SimpleServiceRequestBase.java:39-51 | Every exception is wrapped in a `ServiceRequestException` with the original as cause. An obtained response is closed twice on the XML path and once on the non-XML path. A failed emit closes nothing. |
| `SimpleServiceRequest.BeginExecute` | src/main/java/microsoft/exchange/webservices/data/SimpleServiceRequestBase.java:82-103 | A validation failure is the result whatever building the request would do. Otherwise the result succeeds exactly when building does and references the built request. |
| `SimpleServiceRequest.EndInternalExecute` | src/main/java/microsoft/exchange/webservices/data/SimpleServiceRequestBase.java:59-73 | A failed async result propagates unchanged. Otherwise the result, the cursor and the trace log are those of `readResponse` (headers processed before any body byte is read), and the response is closed once if XML, never if not. |
| `SimpleServiceRequest.RequestFailed` | src/main/java/microsoft/exchange/webservices/data/SimpleServiceRequestBase.java:161-165 | The wrapper is a `ServiceRequestException` whose cause is the original exception. |
| `SimpleServiceRequest.NonXmlIgnoresParser` | src/main/java/microsoft/exchange/webservices/data/SimpleServiceRequestBase.java:114-118 | For a non-XML content type the outcome is a failure that does not depend on the parser. It is `ServiceResponseDoesNotContainXml` once the first line has been read. |
| `SimpleServiceRequest.WellFormedXmlYieldsParse` | src/main/java/microsoft/exchange/webservices/data/SimpleServiceRequestBase.java:143-152 | An XML body that parses yields exactly the parse of its bytes. |
| `SimpleServiceRequest.IOFailureIsWrapped` | src/main/java/microsoft/exchange/webservices/data/SimpleServiceRequestBase.java:156-166 | An `HttpException` or `IOException` from the stream is rethrown as a `ServiceRequestException` carrying its message and cause. |
| `SimpleServiceRequest.ContentTypeExamples` | src/main/java/microsoft/exchange/webservices/data/SimpleServiceRequestBase.java:114 | "text/xml; charset=utf-8" is accepted. "TEXT/XML", "text/html" and "application/soap+xml" are rejected. |
| `SimpleServiceRequest.FirstLineStopsAtTerminator` | src/main/java/microsoft/exchange/webservices/data/SimpleServiceRequestBase.java:115 | `readLine` returns the bytes before the first newline. |
| `SimpleServiceRequest.LineLengthOfPrefix` | src/main/java/microsoft/exchange/webservices/data/SimpleServiceRequestBase.java:115 | A line without terminators followed by a terminator has exactly its own length. |
| `TimeChange.TimeChangeRecurrence.Empty` | src/main/java/microsoft/exchange/webservices/data/TimeChangeRecurrence.java:34-36 | All three fields are null and nothing has changed. |
| `TimeChange.TimeChangeRecurrence.constructor` | src/main/java/microsoft/exchange/webservices/data/TimeChangeRecurrence.java:45-50 | The three fields are exactly the arguments. |
| `TimeChange.TimeChangeRecurrence.SetDayOfTheWeek` | src/main/java/microsoft/exchange/webservices/data/TimeChangeRecurrence.java:66-71 | When `canSetFieldValue(old, new)` holds, it assigns the field and counts one change. Otherwise nothing changes. The other two fields are never touched. |
| `TimeChange.TimeChangeRecurrence.SetDayOfTheWeekIndex` | src/main/java/microsoft/exchange/webservices/data/TimeChangeRecurrence.java:87-92 | The same guard, assignment and change count for the day-of-week index. |
| `TimeChange.TimeChangeRecurrence.SetMonth` | src/main/java/microsoft/exchange/webservices/data/TimeChangeRecurrence.java:108-113 | The same guard, assignment and change count for the month. |
| `TimeChange.TimeChangeRecurrence.WriteElementsToXml` | src/main/java/microsoft/exchange/webservices/data/TimeChangeRecurrence.java:123-136 | Appends exactly `WrittenElements` of the current fields to the writer. |
| `TimeChange.WrittenElements` | src/main/java/microsoft/exchange/webservices/data/TimeChangeRecurrence.java:125-135 | One Types-namespace element per non-null field. DaysOfWeek comes first and Month last. All fields null gives no elements. |
| `TimeChange.TimeChangeRecurrence.TryReadElementFromXml` | src/main/java/microsoft/exchange/webservices/data/TimeChangeRecurrence.java:145-162 | The new fields and the result are those of `ReadElement`: a name matched ignoring case sets only its field and returns true. It counts no change. |
| `TimeChange.ElementNamesDistinct` | src/main/java/microsoft/exchange/webservices/data/TimeChangeRecurrence.java:146-155 | No two of the three element names are equal ignoring case, so at most one branch matches. |
| `TimeChange.ReadWrittenElement` | src/main/java/microsoft/exchange/webservices/data/TimeChangeRecurrence.java:146-157 | Every written element is recognised and sets exactly its own field. |
| `TimeChange.ReadBackWrittenElements` | src/main/java/microsoft/exchange/webservices/data/TimeChangeRecurrence.java:125-157 | Reading back the written elements restores every non-null field and leaves the others as they were. Starting from an empty recurrence, it restores the value. |
| `TimeChange.ReadAllConcat` | src/main/java/microsoft/exchange/webservices/data/TimeChangeRecurrence.java:145-162 | Reading a concatenation continues from the fields a clean prefix produced. |
| `TimeChange.UnknownElementIgnored` | src/main/java/microsoft/exchange/webservices/data/TimeChangeRecurrence.java:159-161 | An unrecognised element name returns false and leaves every field unchanged. |
| `TimeChange.NameCaseIgnored` | src/main/java/microsoft/exchange/webservices/data/TimeChangeRecurrence.java:155-157 | The name "MONTH" sets the month. |

## Findings

| source | as written | input that shows it | evidently intended | confidence | as-written member | corrected member |
|---|---|---|---|---|---|---|
| src/main/java/microsoft/exchange/webservices/data/MapiTypeConverterMapEntry.java:203 | `value instanceof Array` tests for `java.lang.reflect.Array`, which is never the class of a value. So `array` stays null and every value is rejected as an incompatible type. | An array entry of type `Integer` given `new Integer[]{7}` | Accept one-dimensional, non-empty arrays of the declared type (the class's own comment says so) | not executed; high | `MapiTypeConverter.ArrayCheckAsWrittenRejectsValidArray` | `MapiTypeConverter.MapiTypeConverterMapEntry.ValidateValueAsArray` |
| src/main/java/microsoft/exchange/webservices/data/MapiTypeConverterMapEntry.java:86 | `String.format("No default value entry for type {0}", name)` uses a C# placeholder. Java leaves `{0}` in the text and drops the name. | `Byte.class`, which has no table entry | The assertion message names the type | not executed; high | `MapiTypeConverter.NoDefaultMessageOmitsTypeName` | `MapiTypeConverter.NoDefaultMessage` |

`ValidateValueAsArrayAsWritten` is the code as written; `ChangeType` uses
the corrected `ValidateValueAsArray`. `NoDefaultMessageAsWritten` is the
message as written; `Create` uses the corrected `NoDefaultMessage`.

## Left out

- AsyncExecutor is not part of this model. This covers the thread pool (core 1, maximum 5, queue capacity 1), its saturation policy, the callback thread (started even for a null callback), `es.shutdown()` and `Future.get` blocking. `BeginExecute` keeps only the order of `validate()` and `buildEwsHttpWebRequest()`. `EndInternalExecute` takes the value or exception of `asyncResult.get()` as an argument.
- ExchangeServiceFacade, ExchangeServiceBaseFacade, FailedRequestLogger, EwsTraceListener and the constructor-only exception classes are not part of this model. The exception classes appear as constructors of `EwsException`.
- XML parsing, HTTP transport, `processHttpResponseHeaders`, `traceResponse` and logging are foreign code. The parser is a function parameter, and its exceptions are its results. Header processing, tracing and the error log are trace-log events that never throw.
- ReadResponse: on the streamed path the parser is taken to consume the whole stream. A stream failure therefore surfaces as the same exception as on the buffered path. A parser that stops early, or fails before reaching the broken part of the stream, is not modelled.
- ReadResponse: on the non-XML path the model leaves the cursor where it was. `BufferedReader`'s read-ahead, and its decoding of bytes to characters, are not modelled. The first line is kept as bytes.
- ReadResponse: `getResponseStream`'s decompression is not modelled. Neither are the extra `serviceResponseStream.close()` and `memoryStream.flush()` on the traced success path (lines 146-147): they do not touch the response's close count.
- A null content type, which would throw `NullPointerException` at `startsWith`, is not modelled. The content type is always a string.
- The text of the `Strings` templates and the format of `EwsAssert`'s exception are not modelled. Messages are symbolic (`Message.Formatted`).
- `SimpleDateFormat` parsing (the default Date and the Date coercion) is not modelled: the Date coercion calls a `parseDate` parameter. Float, Double, Date and UUID values carry opaque tokens, which are also their printed forms. An array's printed form leaves out its identity hash code.
- The table is built lazily in the source (`LazyMember`). Here it is a constant. The `catch (ParseException)` around the Date default is treated as never taken.
- CoerceScalar: the `catch (ClassCastException)` of `changeType` (lines 146-149) has no counterpart, because nothing in its `try` can throw that exception.
- CoerceScalar: Java's `isInstance` would also accept supertypes such as `Object` or `Number`. The closed class set has none, so `isInstance` is class equality.
- `JavaText.EqualsIgnoreCase`, `JavaText.ParseInt`: only ASCII is folded or read as digits. Java's `equalsIgnoreCase` also matches, for example, U+017F with 's' and U+212A with 'k'. `parseInt` also accepts non-ASCII decimal digits.
- TimeChange: `ComplexProperty.canSetFieldValue` is a parameter of each setter, and `changed()` is a counter. Element values are the enum values themselves: the writer's and reader's text encoding is not modelled. `readElementValue` on content of the wrong kind fails with `ValueNotConvertible`. How `ComplexProperty.loadFromXml` treats unrecognised elements is not modelled: `ReadAll` skips them.
- `ServiceResponseException.getErrorCode` and `getResponse` are plain getters. They appear as `ServiceResponseErrors.ErrorCode` and the `response` field, which `Translate` dispatches on.
- The messages `String.format` builds are not modelled as text. In particular, a class formatted with `%s` prints as `class <name>`; the model carries `Class.getName()`.
- Create: fails with the corrected message `NoDefaultMessage`, which names the class. The source's message as built at line 86 ends in the literal `{0}` (`NoDefaultMessageAsWritten`), so the model does not reproduce that exact text.
- The datatypes admit states Java cannot hold. `ByteValue`, `ShortValue`, `IntegerValue` and `LongValue` carry an unbounded integer rather than an 8-, 16-, 32- or 64-bit one. An array's elements are not required to be of its component class. `OtherServiceError` may carry the name of one of the four distinguished codes. No proved property depends on such a state.
- ConvertToValue: a null string, which the identity parse returns as null, is not modelled; only `ConvertToValueOrDefault` takes a null string.
- GetDim: `getDim(null)`, which throws `NullPointerException`, is not modelled; the argument is always a value.
- GetMessage: a null error message, for which `new StringBuilder(null)` at line 74 throws `NullPointerException`, is not modelled. Neither is a null detail value, which the builder appends as "null".
- Translate: a null error code, on which the `switch` at line 17 throws `NullPointerException`, is not modelled.
