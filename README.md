# ConfigHelper parameter lookup and detailed failure log

ConfigHelper is a small .NET helper. It reads configuration values from the AWS Systems
Manager Parameter Store. This project models its two pieces of behaviour and proves what they
promise.

- `ConfigurationService.GetConfigurationValueAsync(keyName, appType)`:
  - rejects a blank key name, then a blank application type, each with one error log entry
    and an `ArgumentException`;
  - builds the parameter path `/{appType}/{keyName}` and logs the attempt;
  - sends exactly one `GetParameterRequest` with decryption on;
  - on success, logs the success message and returns the value unchanged;
  - on a `ParameterNotFoundException` or any other exception, logs the detailed failure
    record as an error and rethrows the same exception.
- `DetailedLogBuilder`: the failure record. It holds host, date, exception message, stack
  trace and elapsed milliseconds. It is filled by the constructor, `WithException` and
  `WithTimeTaken`, and written as one comma-separated line by `ToString`. The implicit
  conversion to `string` returns `ToString()`. The implicit conversion from `string` parses
  such a line back.

Modules:

- `Results` (results.dfy): the `Result` type. `Failure` stands for an exception raised or
  rethrown.
- `Text` (text.dfy): the .NET string operations the code relies on:
  - `Char.IsWhiteSpace`, `String.IsNullOrWhiteSpace` and `Trim`;
  - `Split(char)`, and `Split(char, 2)` for the corrected parser;
  - `Replace(x, "")`;
  - `Int64.ToString` and `Int64.Parse`.

  A string reference is a `NullableString`, and interpolation renders null as empty text.
- `DetailedLog` (detailed_log.dfy):
  - the `DetailedLogBuilder` class, whose methods update its five fields in place and return
    `this`;
  - the text form `Serialize`;
  - the parser `Parse`, which returns a `Result` whose failures are the exceptions the C#
    raises: `IndexOutOfRangeException` for a missing piece, and the two `Int64.Parse`
    exceptions.
- `Configuration` (configuration_service.dfy):
  - the `ConfigurationService` class; its `trace` field records, in order, every log entry
    and every request;
  - the function `Lookup`, which gives the result and the effects of one call from its
    inputs;
  - lemmas about `Lookup`, and the two unit tests as methods.

  `GetConfigurationValue` is proved to return `Lookup`'s result and to append exactly
  `Lookup`'s effects to the trace. The Parameter Store client is the function parameter
  `store`, which answers a request with `Value(v)`, `NotFound(ex)` or `Other(ex)`. The
  stopwatch reading after the call (`elapsedMs`), the host name and the rendered UTC date are
  inputs.

Behaviour of the code worth noting:

- A field is read by `Split(':')[1]`, the text between the first and the second colon of its
  comma piece.
- The time field has every `"ms"` removed by `Replace("ms", "")`, in one left-to-right pass:
  `"mmss"` becomes `"ms"`.
- An argument is rejected when it is null, empty or white space only (`IsNullOrWhiteSpace`).
- The date field handed to `DateTime.Parse` is the date's rendering up to its first colon. A
  rendering whose time separator is ':' (the invariant culture, en-US and most others) has a
  colon, so the proved round trip, which leaves `DateTime.Parse` out, gives back only that cut
  text. For that cut text the real conversion most likely raises a `FormatException` instead;
  see the Findings section. A culture that separates hours and minutes with '.' (such as
  Finnish or Danish) gives a rendering with no colon, which is not cut.

## Model

| member | source | states |
|---|---|---|
| Configuration.ConfigurationService.GetConfigurationValue | ConfigHelper/ConfigurationService.cs:73-138 | the call returns `Lookup`'s result (a value, or the exception it raises or rethrows) and appends exactly `Lookup`'s effects to the trace; the logger's entries and the client's requests grow by the entries and requests of those effects |
| Configuration.ConfigurationService.Retrieve | ConfigHelper/ConfigurationService.cs:90-137 | after validation: the attempt entry, one request for the path with decryption, then the success entry and the value, or the failure record as an error entry and the same exception rethrown |
| Configuration.Lookup | ConfigHelper/ConfigurationService.cs:73-138 | the specification of one call as a function of its inputs: the result and the effects in order; its promises are the lemmas below, from BlankKeyRejected to ValueOnlyFromStore |
| Configuration.Retrieval | ConfigHelper/ConfigurationService.cs:90-137 | the part of `Lookup` after validation (the attempt entry, the request, and the try block with its two catch clauses); FoundValueReturned, NotFoundLoggedAndRethrown and OtherFailureLoggedAndRethrown state what it does |
| Configuration.ConfigurationService.constructor | ConfigHelper/ConfigurationService.cs:58-62 | a new service has logged nothing and sent no request |
| Configuration.ParameterPath | ConfigHelper/ConfigurationService.cs:90 | the path is a slash, the application type, a slash and the key name: its length, the positions of both slashes and the two slices |
| Configuration.RequestFor | ConfigHelper/ConfigurationService.cs:99-103 | the `GetParameterRequest` built for valid arguments: `Name` is the path of line 90 and `WithDecryption` is true; ValidArgumentsShape and ValidArgumentsFetchOnce state that it is the one request sent |
| Configuration.AttemptMessage | ConfigHelper/ConfigurationService.cs:91 | the template "Attempting to retrieve parameter: {ParameterName}" with the path in place of `{ParameterName}`; AttemptMentionsPath states that the entry names the path |
| Configuration.SuccessMessage | ConfigHelper/ConfigurationService.cs:109 | the template "Successfully retrieved parameter: {ParameterName} in {TimeTaken}ms" with the path in place of `{ParameterName}` and the elapsed milliseconds, written in decimal, in place of `{TimeTaken}`, just before "ms"; SuccessMentions states what the entry contains |
| Configuration.BlankKeyRejected | ConfigHelper/ConfigurationService.cs:76-80 | a null, empty or white-space key name gives ArgumentException("Key name cannot be null or whitespace.", "keyName"), whatever the application type; the only log entry is that error, and no request is sent |
| Configuration.BlankAppTypeRejected | ConfigHelper/ConfigurationService.cs:83-87 | with a usable key name, a blank application type gives ArgumentException for "appType"; the only log entry is "Application type cannot be null or whitespace.", and no request is sent |
| Configuration.ValidArgumentsShape | ConfigHelper/ConfigurationService.cs:90-105 | with valid arguments the effects are, in order, the attempt entry, the request for "/" + appType + "/" + keyName with decryption on, and one more log entry |
| Configuration.ValidArgumentsFetchOnce | ConfigHelper/ConfigurationService.cs:99-105 | with valid arguments exactly one request is sent, for "/" + appType + "/" + keyName with decryption on |
| Configuration.AttemptLoggedBeforeFetch | ConfigHelper/ConfigurationService.cs:90-105 | the first effect is the information entry of the attempt, it contains the path, and the request comes right after it |
| Configuration.AttemptMentionsPath | ConfigHelper/ConfigurationService.cs:91 | the attempt message contains the path |
| Configuration.SuccessMentions | ConfigHelper/ConfigurationService.cs:109 | the success message contains "Successfully retrieved parameter" and the path |
| Configuration.FoundValueReturned | ConfigHelper/ConfigurationService.cs:105-112 | a value from the store is returned unchanged; the log holds exactly the attempt entry and the success entry, which contains "Successfully retrieved parameter" and the path |
| Configuration.NotFoundLoggedAndRethrown | ConfigHelper/ConfigurationService.cs:114-125 | a not-found exception is rethrown as it came; the log holds the attempt entry and exactly one error entry, the text form of (host, date, message, stack trace, elapsed ms), which contains the exception message and the elapsed time with "ms" |
| Configuration.OtherFailureLoggedAndRethrown | ConfigHelper/ConfigurationService.cs:126-137 | any other exception is logged the same way and rethrown as it came |
| Configuration.ValueOnlyFromStore | ConfigHelper/ConfigurationService.cs:73-138 | the call returns a value if and only if the arguments are valid and the store answered with a value, and then it is that value: no failure path returns one |
| Configuration.NotFoundLogReadsBack | ConfigHelper/ConfigurationService.cs:114-125 | when host, message and stack trace are clean (no comma, no colon, no white space at either end), the date has no comma and the elapsed time is within the range of a long, the parser reads the exception message and the stopwatch reading back from the logged error entry |
| Configuration.DescribeFailure | ConfigHelper/ConfigurationService.cs:118-123 | the builder chain `new DetailedLogBuilder().WithException(ex).WithTimeTaken(sw).ToString()` gives the text form of the record (host, date, ex.Message, ex.StackTrace, elapsed ms) |
| Configuration.FailureTextMentions | ConfigHelper/ConfigurationService.cs:118-123 | the failure text contains the exception message and the elapsed milliseconds followed by "ms" |
| Configuration.FailureTextReadsBack | ConfigHelper/Loggers/DetailedLogBuilder.cs:92-109 | the parser gives back the host, message, stack trace and elapsed time of a failure text whose host, message and trace are clean and whose date has no comma |
| Configuration.FailureTextReadsBackWhole | ConfigHelper/Loggers/DetailedLogBuilder.cs:95-99 | with the corrected field read, when host, date, message and stack trace have no comma and no white space at either end and the elapsed time is within the range of a long, the whole failure record comes back, the date and any colons included; a .NET stack trace, whose frames list parameters separated by commas, does not meet this and does not come back whole |
| Configuration.FailureText | ConfigHelper/ConfigurationService.cs:123 | the text logged as the error entry: the builder's `ToString()` after the chain; FailureTextMentions and FailureTextReadsBack state what it contains and what the parser reads back from it |
| Configuration.LoggedEntries | ConfigHelper.Tests/TestHelpers/TestLogger.cs:48-52 | the test logger's list: the formatted text of every log effect of a trace, in order; LoggedEntriesAppend states that it only grows by appending |
| Configuration.ConfigurationService.Logs | ConfigHelper.Tests/TestHelpers/TestLogger.cs:14 | the `Logs` list of the test logger, read from the service's trace |
| Configuration.Requests | ConfigHelper/ConfigurationService.cs:105 | the requests handed to `GetParameterAsync` in a trace, in order; RequestsAppend states that it only grows by appending |
| Configuration.ConfigurationService.Fetches | ConfigHelper/ConfigurationService.cs:105 | the requests the service has sent to the client, read from its trace |
| Configuration.LoggedEntriesAppend | ConfigHelper.Tests/TestHelpers/TestLogger.cs:48-52 | the log entries of two traces in a row are those of the first followed by those of the second (the logger only appends) |
| Configuration.RequestsAppend | ConfigHelper/ConfigurationService.cs:105 | the requests of two traces in a row are those of the first followed by those of the second |
| Configuration.TestArguments | ConfigHelper.Tests/ConfigurationServiceTests.cs:69-79 | key "test" and application "app" are valid and give the request "/app/test" with decryption |
| Configuration.ReturnsValueWhenParameterExists | ConfigHelper.Tests/ConfigurationServiceTests.cs:65-84 | with a store answering "test-value", a fresh service returns "test-value", sends the one request "/app/test", and logs an entry containing "Successfully retrieved parameter" |
| Configuration.ThrowsWhenParameterNotFound | ConfigHelper.Tests/ConfigurationServiceTests.cs:90-100 | with a store raising not-found "Parameter not found", a fresh service rethrows that exception and logs an entry containing "Parameter not found" |
| DetailedLog.DetailedLogBuilder.constructor | ConfigHelper/Loggers/DetailedLogBuilder.cs:39-43 | a new builder holds the given host and date, no exception message or stack trace, and a time of 0 |
| DetailedLog.DetailedLogBuilder.WithException | ConfigHelper/Loggers/DetailedLogBuilder.cs:50-55 | sets the message and the stack trace from the exception, leaves host, date and time unchanged, and returns the same builder |
| DetailedLog.DetailedLogBuilder.WithTimeTaken | ConfigHelper/Loggers/DetailedLogBuilder.cs:62-66 | sets only the time, to the stopwatch's milliseconds, and returns the same builder |
| DetailedLog.DetailedLogBuilder.ToString | ConfigHelper/Loggers/DetailedLogBuilder.cs:72-85 | `ToString()` and the implicit conversion to `string`, which returns it: the text form `Serialize` of the builder's five fields; DescribeFailure states it after the builder chain |
| DetailedLog.FailureRecord | ConfigHelper/ConfigurationService.cs:118-120 | the builder's record after `new DetailedLogBuilder().WithException(ex).WithTimeTaken(stopwatch)`: host and date from the constructor, message and stack trace from the exception, the elapsed milliseconds; DescribeFailure states that the chain ends in it |
| DetailedLog.Serialize | ConfigHelper/Loggers/DetailedLogBuilder.cs:74 | the interpolation of line 74; SerializeLayout, SerializeSplits and SerializeMentions state its layout and contents |
| DetailedLog.SerializeLayout | ConfigHelper/Loggers/DetailedLogBuilder.cs:72-75 | the text form of `ToString` (and of the string conversion) is exactly the five pieces "Host: h", " Date: d", " Exception: m", " StackTrace: s", " TimeTaken: tms" joined by commas |
| DetailedLog.SerializeSplits | ConfigHelper/Loggers/DetailedLogBuilder.cs:74 | when no field holds a comma, splitting the text on commas gives exactly those five pieces, and joining the pieces gives the text |
| DetailedLog.SplitFive | ConfigHelper/Loggers/DetailedLogBuilder.cs:94 | five comma-free pieces with one comma between neighbours split back into exactly the five |
| DetailedLog.SerializeMentions | ConfigHelper/Loggers/DetailedLogBuilder.cs:74 | the text contains the exception message and the time followed by "ms" |
| DetailedLog.Parse | ConfigHelper/Loggers/DetailedLogBuilder.cs:92-110 | the implicit conversion from `string`: split on commas, read the first five pieces with FieldOf, convert the time with TimeOf; ParseNeedsFiveFields, ParseIgnoresLaterPieces and RoundTrip state its behaviour |
| DetailedLog.ParsePieces | ConfigHelper/Loggers/DetailedLogBuilder.cs:94-99 | the body of the parse operator over the comma pieces: fewer than five pieces raise IndexOutOfRangeException and pieces after the fifth are not read; AllFieldsPresent, MissingFieldFails and ParseIgnoresLaterPieces state this |
| DetailedLog.ParseFive | ConfigHelper/Loggers/DetailedLogBuilder.cs:95-109 | the five field reads in order, a failing read raising IndexOutOfRangeException, then `long.Parse` of the time and the object initializer of lines 102-109; FieldsAssemble states the success case |
| DetailedLog.ParseWholeFields | ConfigHelper/Loggers/DetailedLogBuilder.cs:92-110 | the parse operator with the corrected field read `Split(':', 2)[1]` in place of `Split(':')[1]`; RoundTripWholeFields and FailureTextReadsBackWhole state that it gives back the whole record |
| DetailedLog.FieldOf | ConfigHelper/Loggers/DetailedLogBuilder.cs:95-99 | `piece.Split(':')[1].Trim()` succeeds if and only if the piece holds a colon, and otherwise raises IndexOutOfRangeException |
| DetailedLog.TimeOf | ConfigHelper/Loggers/DetailedLogBuilder.cs:99 | `long.Parse(text.Replace("ms", ""))`: a successful read is within the range of a long; TimeOfRendered gives its round trip |
| DetailedLog.ParseNeedsFiveFields | ConfigHelper/Loggers/DetailedLogBuilder.cs:94-99 | parsing raises IndexOutOfRangeException if and only if the text lacks five comma pieces that each hold a colon |
| DetailedLog.AllFieldsPresent | ConfigHelper/Loggers/DetailedLogBuilder.cs:95-99 | when each of the first five pieces has a field, no indexing fails |
| DetailedLog.MissingFieldFails | ConfigHelper/Loggers/DetailedLogBuilder.cs:94-99 | a missing piece, or one of the first five with no colon, makes the parse fail with IndexOutOfRangeException |
| DetailedLog.ParseIgnoresLaterPieces | ConfigHelper/Loggers/DetailedLogBuilder.cs:94-99 | comma pieces after the fifth do not change the result |
| DetailedLog.FieldOfLabelled | ConfigHelper/Loggers/DetailedLogBuilder.cs:95-98 | a piece "name: v" with no colon in name or v reads as v, trimmed |
| DetailedLog.FieldOfDate | ConfigHelper/Loggers/DetailedLogBuilder.cs:96 | the date piece reads as the trimmed text before the date's first colon |
| DetailedLog.TimeOfRendered | ConfigHelper/Loggers/DetailedLogBuilder.cs:99 | for a time in the range of a long, removing "ms" from "tms" and parsing gives t back |
| DetailedLog.TimeTextClean | ConfigHelper/Loggers/DetailedLogBuilder.cs:74 | the written time "tms" has no comma or colon and no white space at either end |
| DetailedLog.FieldOfClean | ConfigHelper/Loggers/DetailedLogBuilder.cs:95-98 | a clean value reads back unchanged from the piece the text form writes for it |
| DetailedLog.FieldsAssemble | ConfigHelper/Loggers/DetailedLogBuilder.cs:102-109 | five pieces whose fields read as host, date, message, trace and a parsable time give the record with those values |
| DetailedLog.ParseLabelled | ConfigHelper/Loggers/DetailedLogBuilder.cs:95-109 | the five labelled pieces of clean values parse to the record with those values, the date cut at its first colon |
| DetailedLog.ParseSegments | ConfigHelper/Loggers/DetailedLogBuilder.cs:95-109 | the pieces of a record with a clean host, message and trace and a long-range time parse back to that record, the date cut at its first colon |
| DetailedLog.RoundTrip | ConfigHelper/Loggers/DetailedLogBuilder.cs:92-109 | bounded round trip: with a clean host, message and trace, a date with no comma and a long-range time, parsing the text gives back host, message, trace and time exactly (an unset message or trace comes back empty), and the date cut at its first colon |
| DetailedLog.RoundTripWithPlainDate | ConfigHelper/Loggers/DetailedLogBuilder.cs:92-109 | if the date rendering is clean as well, every field comes back |
| DetailedLog.DateCutAtFirstColon | ConfigHelper/Loggers/DetailedLogBuilder.cs:96 | a date rendering `before:after` comes back as `before` alone, so the date read back differs from the one written |
| DetailedLog.DateBeforeColon | ConfigHelper/Loggers/DetailedLogBuilder.cs:96 | the date field of `before:after` is `before` when `before` is clean |
| DetailedLog.FieldAfterColon | ConfigHelper/Loggers/DetailedLogBuilder.cs:95-99 | the corrected field read `piece.Split(':', 2)[1].Trim()` succeeds if and only if the piece holds a colon, as FieldOf does |
| DetailedLog.FieldAfterColonLabelled | ConfigHelper/Loggers/DetailedLogBuilder.cs:95-99 | with the corrected field read, "name: v" reads as v trimmed, however many colons v holds |
| DetailedLog.FieldAfterColonPlain | ConfigHelper/Loggers/DetailedLogBuilder.cs:95-99 | with the corrected field read, a value with no comma and no white space at its ends reads back unchanged |
| DetailedLog.RoundTripWholeFields | ConfigHelper/Loggers/DetailedLogBuilder.cs:92-109 | with the corrected field read, all five fields come back exactly, colons included, for values with no comma and no white space at their ends |
| Text.TrimStartShape | ConfigHelper/Loggers/DetailedLogBuilder.cs:95 | the start trim keeps a suffix, drops only white space, and what it keeps does not start with white space |
| Text.TrimEndShape | ConfigHelper/Loggers/DetailedLogBuilder.cs:95 | the end trim keeps a prefix, drops only white space, and what it keeps does not end with white space |
| Text.TrimBy | ConfigHelper/Loggers/DetailedLogBuilder.cs:95 | the trimmed text is empty or starts and ends with a character that is not white space |
| Text.TrimShape | ConfigHelper/Loggers/DetailedLogBuilder.cs:95 | Trim keeps one slice of its input with only white space around it |
| Text.IsWhiteSpace | ConfigHelper/ConfigurationService.cs:76 | `Char.IsWhiteSpace` as the fixed set of white-space characters .NET documents; the same predicate drives `IsNullOrWhiteSpace` (lines 76 and 83) and `Trim` (ConfigHelper/Loggers/DetailedLogBuilder.cs:95), and TrimEmptyIffBlank relates the two |
| Text.Render | ConfigHelper/Loggers/DetailedLogBuilder.cs:74 | string interpolation writes a null value as empty text and any other string as itself |
| Text.ContainsText | ConfigHelper.Tests/ConfigurationServiceTests.cs:83 | `String.Contains`: the text occurs at some position; ContainsMiddle and ContainsPrefix state when it holds, and every "contains" contract uses it |
| Text.Trim | ConfigHelper/Loggers/DetailedLogBuilder.cs:95 | `String.Trim()`: the result is empty or starts and ends with a character that is not white space; TrimShape says it is a slice of the input with only white space around it |
| Text.IsNullOrWhiteSpace | ConfigHelper/ConfigurationService.cs:76 | `String.IsNullOrWhiteSpace`: null, or every character white space; TrimEmptyIffBlank ties it to Trim |
| Text.TrimEmptyIffBlank | ConfigHelper/ConfigurationService.cs:76 | a string is null-or-white-space exactly when trimming it leaves nothing |
| Text.TrimPadded | ConfigHelper/Loggers/DetailedLogBuilder.cs:95 | a value with no white space at its ends comes back unchanged from behind the space the text form adds |
| Text.TrimSkipsLeadingSpace | ConfigHelper/Loggers/DetailedLogBuilder.cs:95 | a leading space does not survive Trim |
| Text.Split | ConfigHelper/Loggers/DetailedLogBuilder.cs:94 | Split gives at least one piece, no piece holds the delimiter, and joining the pieces with the delimiter gives the text |
| Text.SplitOfJoin | ConfigHelper/Loggers/DetailedLogBuilder.cs:94 | splitting undoes joining when no piece holds the delimiter |
| Text.SplitConcat | ConfigHelper/Loggers/DetailedLogBuilder.cs:94 | splitting a + d + b is splitting a, then splitting b |
| Text.SplitWithoutDelimiter | ConfigHelper/Loggers/DetailedLogBuilder.cs:94 | text without the delimiter is one piece |
| Text.SplitHasSecondPiece | ConfigHelper/Loggers/DetailedLogBuilder.cs:95-99 | the pieces include a second one, the one the parser indexes, if and only if the text holds the delimiter |
| Text.SplitOnce | ConfigHelper/Loggers/DetailedLogBuilder.cs:95-99 | `Split(d, 2)` gives one or two pieces |
| Text.SplitOnceAtFirst | ConfigHelper/Loggers/DetailedLogBuilder.cs:95-99 | `Split(d, 2)` cuts at the first delimiter: a + d + b with no d in a gives [a, b], later delimiters staying in b |
| Text.SplitOnceHasSecondPiece | ConfigHelper/Loggers/DetailedLogBuilder.cs:95-99 | `Split(d, 2)` has a second piece if and only if the text holds the delimiter; it gives FieldAfterColon its contract |
| Text.DeleteAllKeepsPlain | ConfigHelper/Loggers/DetailedLogBuilder.cs:99 | text that cannot start the pattern passes through the removal unchanged |
| Text.DeleteAllIsOnePass | ConfigHelper/Loggers/DetailedLogBuilder.cs:99 | the removal is one left-to-right pass: "mmss" becomes "ms" |
| Text.DeleteAll | ConfigHelper/Loggers/DetailedLogBuilder.cs:99 | `Replace(pattern, "")`: one left-to-right pass that drops each occurrence it meets; DeleteAllKeepsPlain and DeleteAllIsOnePass state its behaviour |
| Text.DeleteAllKeepsFirst | ConfigHelper/Loggers/DetailedLogBuilder.cs:99 | a first character that cannot start the pattern is kept, and the removal goes on from the next one |
| Text.NatToTextShape | ConfigHelper/Loggers/DetailedLogBuilder.cs:74 | a natural number is written as one or more digits, with no leading zero, whose decimal value is the number |
| Text.IntToTextShape | ConfigHelper/Loggers/DetailedLogBuilder.cs:74 | a written long is non-empty, has no 'm', comma or colon, starts with '-' or a digit and ends with a digit |
| Text.IntToText | ConfigHelper/Loggers/DetailedLogBuilder.cs:74 | `{TimeTaken}` in the interpolation, Int64.ToString with a "-" sign; IntToTextShape and LongTextRoundTrip state its form and that Int64.Parse reads it back |
| Text.ParseLong | ConfigHelper/Loggers/DetailedLogBuilder.cs:99 | a successful Int64.Parse gives a value in the range of a long |
| Text.LongTextRoundTrip | ConfigHelper/Loggers/DetailedLogBuilder.cs:99 | Int64.Parse reads back every long that Int64.ToString writes |

## Left out

- The Parameter Store client, `GetParameterAsync`, decryption and the AWS exception types are
  the function `store`. A response whose `Parameter` is null, which would make line 112 raise
  a NullReferenceException inside the try block, is not modelled: a `Value` answer always
  holds a value.
- `Stopwatch`: the reading after the call completes or fails is the input `elapsedMs`, a
  natural number of milliseconds. Both branches of the call report the same reading.
- `Dns.GetHostName()` and `DateTime.UtcNow` in the builder's constructor are the constructor's
  inputs `hostName` and `now`.
- The date is the text that rendering the `DateTime` produces. Culture-dependent `DateTime`
  formatting and `DateTime.Parse` are not modelled, so the parser's date field is the text
  handed to `DateTime.Parse`. The `FormatException` that `DateTime.Parse` may raise is not
  modelled.
- `async`/`await`: there is one suspension point and no concurrency.
- `ILogger` message templates: each entry is the formatted text the test logger records
  (`{ParameterName}` and `{TimeTaken}` filled in). Structured-logging properties and the
  exception argument of the logger are not modelled.
- `Int64.Parse`: the model accepts optional white space (U+0009-U+000D, U+0020), one sign and
  ASCII digits. It does not model trailing NUL characters or culture-specific sign symbols.
- `Char.IsWhiteSpace` is given as the fixed set of white-space characters that .NET documents.
  The same predicate drives the blank check and `Trim`.
- The parse operator's null argument: `log.Split(',')` at ConfigHelper/Loggers/DetailedLogBuilder.cs:94
  raises a NullReferenceException for a null `log`. `Parse` takes a non-null string, and no
  caller in the repository passes null.
- The parse operator builds its result with an object initializer. The default constructor
  runs first (calling `Dns.GetHostName` and `DateTime.UtcNow`), and the initializer then
  overwrites all five properties. The model returns the five parsed values as a `LogRecord`.
- The service constructor's `ArgumentNullException` checks for a null client or logger: the
  client is a total function and the logger is the trace.
- ConfigHelper/ConfigurationServiceExtensions.cs (dependency-injection registration, AWS Secrets
  Manager, JSON, Serilog/Elasticsearch sink) and ConfigHelper/Models/ElasticsearchCredentials.cs
  are not part of this model. Both are glue, or data without behaviour.
- DetailedLog.RoundTrip: states the bounded round trip for values without commas or colons and
  with no white space at their ends. It gives the date back only up to its first colon,
  because the parser as written reads no more. The `Success` it proves assumes that
  `DateTime.Parse` accepts the date field's text. For a rendering whose time separator is ':'
  (such as "10/14/2026 3:04:05 PM", read as "10/14/2026 3") the real conversion most likely raises a `FormatException`
  instead, and then no field comes back; that has not been executed.
- DetailedLog.ParseNeedsFiveFields: the if-and-only-if is about the model's parser, which has
  no `DateTime.Parse`. In the program, a text whose date piece is not a date raises a
  `FormatException` at line 96 before `parts[2]` is indexed, so a text with fewer than five
  pieces can fail that way instead of with IndexOutOfRangeException.
- `Dns.GetHostName()` runs inside both catch blocks, in the builder's constructor, and can raise
  a SocketException. That exception would escape in place of the one being rethrown, and no
  error entry would be logged. The model takes the host name as an input, so it cannot fail.
- `TimeTaken` and `ElapsedMilliseconds` are 64-bit `long`s; the model's `timeTaken: int` and
  `elapsedMs: nat` are unbounded. The round-trip lemmas require the time to be in the range
  of a long.
- Strings are sequences of Unicode scalar values, not of UTF-16 code units: a character
  outside the Basic Multilingual Plane is one character in the model and two in a C#
  `string`, so lengths such as the one ParameterPath states differ for such text, and lone
  surrogates cannot be represented.

## Findings

| source | as written | input that shows it | evidently intended | confidence | as-written member | corrected member |
|---|---|---|---|---|---|---|
| ConfigHelper/Loggers/DetailedLogBuilder.cs:95-99 | each field is read with `Split(':')[1]`, the text between the first and the second colon of its piece, so a value with a colon is cut | a record whose date renders with ':' as its time separator (the invariant culture, en-US and most others), such as "10/14/2026 3:04:05 PM": the date piece reads as "10/14/2026 3", which is what line 96 hands to `DateTime.Parse`; that most likely raises a `FormatException`, and then no field comes back (the model, which leaves `DateTime.Parse` out, returns the cut text); a stack trace with ":line 42" is cut the same way | read everything after the first colon, `Split(':', 2)[1]`, so that the text form of a record parses back to that record | medium, not executed | DetailedLog.DateCutAtFirstColon | DetailedLog.RoundTripWholeFields |
