/**
 * ConfigurationService.GetConfigurationValueAsync: validates the key name and the
 * application type, builds the Parameter Store path, logs the attempt, issues one
 * GetParameter request with decryption, and either returns the value or logs a
 * detailed failure record and rethrows.
 *
 * The Parameter Store client is the function `store`, which answers a request
 * with a value or an exception; the stopwatch reading, the host name and the
 * rendered UTC date are inputs. The logger and the client calls are recorded,
 * in order, in one trace of effects.
 */
module Configuration {
  import opened Results
  import opened Text
  import opened DetailedLog

  datatype Level = Information | Error

  /** One formatted log message and its level. */
  datatype LogEntry = LogEntry(level: Level, text: string)

  /** The GetParameterRequest the service sends. */
  datatype GetParameterRequest = GetParameterRequest(name: string, withDecryption: bool)

  /** What GetParameterAsync does with a request: answer with the parameter's value, raise
      ParameterNotFoundException, or raise any other exception. */
  datatype FetchOutcome =
    | Value(value: string)
    | NotFound(ex: ExceptionInfo)
    | Other(ex: ExceptionInfo)

  /** The exceptions GetConfigurationValueAsync lets escape. */
  datatype ServiceError =
    | InvalidArgument(message: string, paramName: string)  // ArgumentException
    | ParameterNotFound(ex: ExceptionInfo)                  // rethrown as it came
    | OtherFailure(ex: ExceptionInfo)                       // rethrown as it came

  /** What the service does to the outside world, in order. */
  datatype Effect =
    | Logged(entry: LogEntry)
    | Fetched(request: GetParameterRequest)

  const KeyNameBlank := "Key name cannot be null or whitespace."
  const AppTypeBlank := "Application type cannot be null or whitespace."

  // ---------------------------------------------------------------------------
  // Path and messages

  /** $"/{appType}/{keyName}" */
  function ParameterPath(appType: string, keyName: string): (p: string)
    ensures |p| == |appType| + |keyName| + 2
    ensures p[0] == '/' && p[|appType| + 1] == '/'
    ensures p[1..|appType| + 1] == appType && p[|appType| + 2..] == keyName
  {
    "/" + appType + "/" + keyName
  }

  /** The attempt message, with the path in place of {ParameterName}. */
  function AttemptMessage(path: string): string
  {
    "Attempting to retrieve parameter: " + path
  }

  /** The success message, with the path and the elapsed milliseconds in their places. */
  function SuccessMessage(path: string, elapsedMs: nat): string
  {
    "Successfully retrieved parameter" + ": " + path + " in " + IntToText(elapsedMs) + "ms"
  }

  lemma AttemptMentionsPath(path: string)
    ensures ContainsText(AttemptMessage(path), path)
  {
    assert AttemptMessage(path) == "Attempting to retrieve parameter: " + path + [];
    ContainsMiddle("Attempting to retrieve parameter: ", path, []);
  }

  lemma SuccessMentions(path: string, elapsedMs: nat)
    ensures ContainsText(SuccessMessage(path, elapsedMs), "Successfully retrieved parameter")
    ensures ContainsText(SuccessMessage(path, elapsedMs), path)
  {
    PiecesMentioned("Successfully retrieved parameter", ": ", path, " in ", IntToText(elapsedMs), "ms");
  }

  /** A text made of six pieces contains its first and its third. */
  lemma PiecesMentioned(a: string, b: string, p: string, c: string, d: string, e: string)
    ensures ContainsText(a + b + p + c + d + e, a)
    ensures ContainsText(a + b + p + c + d + e, p)
  {
    var s := a + b + p + c + d + e;
    assert s == a + (b + p + c + d + e);
    ContainsPrefix(a, b + p + c + d + e);
    assert s == (a + b) + p + (c + d + e);
    ContainsMiddle(a + b, p, c + d + e);
  }

  /** The text logged when the fetch raises `ex`: the detailed record of the failure. */
  function FailureText(hostName: string, now: string, ex: ExceptionInfo, elapsedMs: nat): string
  {
    Serialize(FailureRecord(hostName, now, ex, elapsedMs))
  }

  /** new DetailedLogBuilder().WithException(ex).WithTimeTaken(stopwatch).ToString() */
  method DescribeFailure(hostName: string, now: string, ex: ExceptionInfo, elapsedMs: nat) returns (text: string)
    ensures text == FailureText(hostName, now, ex, elapsedMs)
  {
    var builder := new DetailedLogBuilder(hostName, now);
    builder := builder.WithException(ex);
    builder := builder.WithTimeTaken(elapsedMs);
    text := builder.ToString();
  }

  /** The failure text names the exception message and the elapsed time. */
  lemma FailureTextMentions(hostName: string, now: string, ex: ExceptionInfo, elapsedMs: nat)
    ensures ContainsText(FailureText(hostName, now, ex, elapsedMs), ex.message)
    ensures ContainsText(FailureText(hostName, now, ex, elapsedMs), IntToText(elapsedMs) + "ms")
  {
    SerializeMentions(FailureRecord(hostName, now, ex, elapsedMs));
  }

  /** The failure text reads back, through the parser, as the exception message, stack trace
      and elapsed time that went into it. */
  lemma FailureTextReadsBack(hostName: string, now: string, ex: ExceptionInfo, elapsedMs: nat)
    requires Clean(hostName) && Clean(ex.message) && Clean(Render(ex.stackTrace)) && ',' !in now
    requires elapsedMs <= LongMax
    ensures Parse(FailureText(hostName, now, ex, elapsedMs)).Success?
    ensures var back := Parse(FailureText(hostName, now, ex, elapsedMs)).value;
      && back.host == hostName
      && back.exceptionMessage == Str(ex.message)
      && back.stackTrace == Str(Render(ex.stackTrace))
      && back.timeTaken == elapsedMs
  {
    RoundTrip(FailureRecord(hostName, now, ex, elapsedMs));
  }

  /** With the corrected field read, the failure text reads back as the whole record, the
      rendered date and any colons in the message or the stack trace included. */
  lemma FailureTextReadsBackWhole(hostName: string, now: string, ex: ExceptionInfo, elapsedMs: nat)
    requires Plain(hostName) && Plain(now) && Plain(ex.message) && Plain(Render(ex.stackTrace))
    requires elapsedMs <= LongMax
    ensures ParseWholeFields(FailureText(hostName, now, ex, elapsedMs))
         == Success(LogRecord(hostName, now, Str(ex.message), Str(Render(ex.stackTrace)), elapsedMs))
  {
    RoundTripWholeFields(FailureRecord(hostName, now, ex, elapsedMs));
  }

  // ---------------------------------------------------------------------------
  // Views of the trace

  /** The log entries of a trace, in order: what the test logger's list holds. */
  function LoggedEntries(trace: seq<Effect>): seq<LogEntry>
  {
    if trace == [] then []
    else
      var rest := LoggedEntries(trace[..|trace| - 1]);
      match trace[|trace| - 1]
      case Logged(entry) => rest + [entry]
      case Fetched(_) => rest
  }

  /** The requests of a trace, in order. */
  function Requests(trace: seq<Effect>): seq<GetParameterRequest>
  {
    if trace == [] then []
    else
      var rest := Requests(trace[..|trace| - 1]);
      match trace[|trace| - 1]
      case Logged(_) => rest
      case Fetched(request) => rest + [request]
  }

  lemma {:induction false} LoggedEntriesAppend(a: seq<Effect>, b: seq<Effect>)
    ensures LoggedEntries(a + b) == LoggedEntries(a) + LoggedEntries(b)
  {
    if b == [] {
      assert a + b == a;
    } else {
      var b' := b[..|b| - 1];
      assert (a + b)[..|a + b| - 1] == a + b';
      LoggedEntriesAppend(a, b');
    }
  }

  lemma {:induction false} RequestsAppend(a: seq<Effect>, b: seq<Effect>)
    ensures Requests(a + b) == Requests(a) + Requests(b)
  {
    if b == [] {
      assert a + b == a;
    } else {
      var b' := b[..|b| - 1];
      assert (a + b)[..|a + b| - 1] == a + b';
      RequestsAppend(a, b');
    }
  }

  // ---------------------------------------------------------------------------
  // The lookup, as a function of its inputs

  /** What one call returns or raises, and the effects it has. */
  datatype Outcome = Outcome(result: Result<string, ServiceError>, effects: seq<Effect>)

  /** Both arguments are usable: neither is null, empty or white space only. */
  predicate ValidArguments(keyName: NullableString, appType: NullableString)
  {
    !IsNullOrWhiteSpace(keyName) && !IsNullOrWhiteSpace(appType)
  }

  /** The request a call with valid arguments sends. */
  function RequestFor(keyName: NullableString, appType: NullableString): GetParameterRequest
  {
    GetParameterRequest(ParameterPath(Render(appType), Render(keyName)), true)
  }

  function Lookup(keyName: NullableString, appType: NullableString, store: GetParameterRequest -> FetchOutcome,
                  elapsedMs: nat, hostName: string, now: string): Outcome
  {
    if IsNullOrWhiteSpace(keyName) then
      Outcome(Failure(InvalidArgument(KeyNameBlank, "keyName")), [Logged(LogEntry(Error, KeyNameBlank))])
    else if IsNullOrWhiteSpace(appType) then
      Outcome(Failure(InvalidArgument(AppTypeBlank, "appType")), [Logged(LogEntry(Error, AppTypeBlank))])
    else
      var request := RequestFor(keyName, appType);
      Retrieval(request.name, store, elapsedMs, hostName, now)
  }

  /** The part after validation: log the attempt, send one request for `path` with decryption,
      then log the success or the failure record. */
  function Retrieval(path: string, store: GetParameterRequest -> FetchOutcome,
                     elapsedMs: nat, hostName: string, now: string): Outcome
  {
    var request := GetParameterRequest(path, true);
    var before := [Logged(LogEntry(Information, AttemptMessage(path))), Fetched(request)];
    match store(request)
    case Value(v) =>
      Outcome(Success(v), before + [Logged(LogEntry(Information, SuccessMessage(path, elapsedMs)))])
    case NotFound(ex) =>
      Outcome(Failure(ParameterNotFound(ex)), before + [Logged(LogEntry(Error, FailureText(hostName, now, ex, elapsedMs)))])
    case Other(ex) =>
      Outcome(Failure(OtherFailure(ex)), before + [Logged(LogEntry(Error, FailureText(hostName, now, ex, elapsedMs)))])
  }

  /** A blank key name is rejected first, whatever the application type: one error entry,
      no request. */
  lemma BlankKeyRejected(keyName: NullableString, appType: NullableString, store: GetParameterRequest -> FetchOutcome,
                         elapsedMs: nat, hostName: string, now: string)
    requires IsNullOrWhiteSpace(keyName)
    ensures var o := Lookup(keyName, appType, store, elapsedMs, hostName, now);
      && o.result == Failure(InvalidArgument("Key name cannot be null or whitespace.", "keyName"))
      && LoggedEntries(o.effects) == [LogEntry(Error, "Key name cannot be null or whitespace.")]
      && Requests(o.effects) == []
  {
    var o := Lookup(keyName, appType, store, elapsedMs, hostName, now);
    assert o.effects[..0] == [];
  }

  /** With a usable key name, a blank application type is rejected: one error entry, no request. */
  lemma BlankAppTypeRejected(keyName: NullableString, appType: NullableString, store: GetParameterRequest -> FetchOutcome,
                             elapsedMs: nat, hostName: string, now: string)
    requires !IsNullOrWhiteSpace(keyName) && IsNullOrWhiteSpace(appType)
    ensures var o := Lookup(keyName, appType, store, elapsedMs, hostName, now);
      && o.result == Failure(InvalidArgument("Application type cannot be null or whitespace.", "appType"))
      && LoggedEntries(o.effects) == [LogEntry(Error, "Application type cannot be null or whitespace.")]
      && Requests(o.effects) == []
  {
    var o := Lookup(keyName, appType, store, elapsedMs, hostName, now);
    assert o.effects[..0] == [];
  }

  /** With valid arguments the effects are the attempt entry, the request for the path, and
      one more entry. */
  lemma ValidArgumentsShape(keyName: NullableString, appType: NullableString, store: GetParameterRequest -> FetchOutcome,
                            elapsedMs: nat, hostName: string, now: string)
    requires ValidArguments(keyName, appType)
    ensures var o := Lookup(keyName, appType, store, elapsedMs, hostName, now);
      var request := RequestFor(keyName, appType);
      && request == GetParameterRequest("/" + appType.value + "/" + keyName.value, true)
      && |o.effects| == 3
      && o.effects[0] == Logged(LogEntry(Information, AttemptMessage(request.name)))
      && o.effects[1] == Fetched(request)
      && o.effects[2].Logged?
  {
  }

  /** With valid arguments exactly one request goes out, for "/" + appType + "/" + keyName with
      decryption on. */
  lemma ValidArgumentsFetchOnce(keyName: NullableString, appType: NullableString, store: GetParameterRequest -> FetchOutcome,
                                elapsedMs: nat, hostName: string, now: string)
    requires ValidArguments(keyName, appType)
    ensures Requests(Lookup(keyName, appType, store, elapsedMs, hostName, now).effects)
         == [GetParameterRequest("/" + appType.value + "/" + keyName.value, true)]
  {
    ValidArgumentsShape(keyName, appType, store, elapsedMs, hostName, now);
    OneFetchBetweenLogs(Lookup(keyName, appType, store, elapsedMs, hostName, now).effects);
  }

  /** The request is preceded, as the first effect, by an information entry naming the path. */
  lemma AttemptLoggedBeforeFetch(keyName: NullableString, appType: NullableString, store: GetParameterRequest -> FetchOutcome,
                                 elapsedMs: nat, hostName: string, now: string)
    requires ValidArguments(keyName, appType)
    ensures var o := Lookup(keyName, appType, store, elapsedMs, hostName, now);
      var path := "/" + appType.value + "/" + keyName.value;
      && |o.effects| == 3
      && o.effects[0] == Logged(LogEntry(Information, AttemptMessage(path)))
      && o.effects[1] == Fetched(GetParameterRequest(path, true))
      && ContainsText(o.effects[0].entry.text, path)
  {
    ValidArgumentsShape(keyName, appType, store, elapsedMs, hostName, now);
    AttemptMentionsPath("/" + appType.value + "/" + keyName.value);
  }

  /** The requests of a trace of two entries around one request. */
  lemma OneFetchBetweenLogs(effects: seq<Effect>)
    requires |effects| == 3 && effects[0].Logged? && effects[1].Fetched? && effects[2].Logged?
    ensures Requests(effects) == [effects[1].request]
  {
    var e0, e1, e2 := effects[0], effects[1], effects[2];
    assert effects[..2] == [e0, e1];
    assert [e0, e1][..1] == [e0];
    assert [e0][..0] == [];
    assert Requests([e0]) == [];
  }

  /** A value from the store is returned unchanged, after an information entry that names the
      path and reports success. */
  lemma FoundValueReturned(keyName: NullableString, appType: NullableString, store: GetParameterRequest -> FetchOutcome,
                           elapsedMs: nat, hostName: string, now: string, v: string)
    requires ValidArguments(keyName, appType)
    requires store(RequestFor(keyName, appType)) == Value(v)
    ensures var o := Lookup(keyName, appType, store, elapsedMs, hostName, now);
      var path := "/" + appType.value + "/" + keyName.value;
      && o.result == Success(v)
      && LoggedEntries(o.effects) == [LogEntry(Information, AttemptMessage(path)),
                                      LogEntry(Information, SuccessMessage(path, elapsedMs))]
      && ContainsText(SuccessMessage(path, elapsedMs), "Successfully retrieved parameter")
      && ContainsText(SuccessMessage(path, elapsedMs), path)
  {
    var path := RequestFor(keyName, appType).name;
    SuccessMentions(path, elapsedMs);
    var o := Lookup(keyName, appType, store, elapsedMs, hostName, now);
    TwoLogsAroundFetch(o.effects);
  }

  /** A ParameterNotFoundException is logged once, as the detailed failure record, and rethrown. */
  lemma NotFoundLoggedAndRethrown(keyName: NullableString, appType: NullableString, store: GetParameterRequest -> FetchOutcome,
                                  elapsedMs: nat, hostName: string, now: string, ex: ExceptionInfo)
    requires ValidArguments(keyName, appType)
    requires store(RequestFor(keyName, appType)) == NotFound(ex)
    ensures var o := Lookup(keyName, appType, store, elapsedMs, hostName, now);
      var path := "/" + appType.value + "/" + keyName.value;
      var text := Serialize(LogRecord(hostName, now, Str(ex.message), ex.stackTrace, elapsedMs));
      && o.result == Failure(ParameterNotFound(ex))
      && LoggedEntries(o.effects) == [LogEntry(Information, AttemptMessage(path)), LogEntry(Error, text)]
      && ContainsText(text, ex.message)
      && ContainsText(text, IntToText(elapsedMs) + "ms")
  {
    FailureTextMentions(hostName, now, ex, elapsedMs);
    var o := Lookup(keyName, appType, store, elapsedMs, hostName, now);
    TwoLogsAroundFetch(o.effects);
  }

  /** Any other exception is logged the same way and rethrown as it came. */
  lemma OtherFailureLoggedAndRethrown(keyName: NullableString, appType: NullableString, store: GetParameterRequest -> FetchOutcome,
                                      elapsedMs: nat, hostName: string, now: string, ex: ExceptionInfo)
    requires ValidArguments(keyName, appType)
    requires store(RequestFor(keyName, appType)) == Other(ex)
    ensures var o := Lookup(keyName, appType, store, elapsedMs, hostName, now);
      var path := "/" + appType.value + "/" + keyName.value;
      var text := Serialize(LogRecord(hostName, now, Str(ex.message), ex.stackTrace, elapsedMs));
      && o.result == Failure(OtherFailure(ex))
      && LoggedEntries(o.effects) == [LogEntry(Information, AttemptMessage(path)), LogEntry(Error, text)]
      && ContainsText(text, ex.message)
      && ContainsText(text, IntToText(elapsedMs) + "ms")
  {
    FailureTextMentions(hostName, now, ex, elapsedMs);
    var o := Lookup(keyName, appType, store, elapsedMs, hostName, now);
    TwoLogsAroundFetch(o.effects);
  }

  /** The log entries of a trace of two entries around one request. */
  lemma TwoLogsAroundFetch(effects: seq<Effect>)
    requires |effects| == 3 && effects[0].Logged? && effects[1].Fetched? && effects[2].Logged?
    ensures LoggedEntries(effects) == [effects[0].entry, effects[2].entry]
  {
    var e0, e1, e2 := effects[0], effects[1], effects[2];
    assert effects[..2] == [e0, e1];
    assert [e0, e1][..1] == [e0];
    assert [e0][..0] == [];
    assert LoggedEntries([e0]) == [e0.entry];
    assert LoggedEntries([e0, e1]) == [e0.entry];
  }

  /** A value is returned exactly when the arguments are valid and the store answers with
      that value: no failure path returns one. */
  lemma ValueOnlyFromStore(keyName: NullableString, appType: NullableString, store: GetParameterRequest -> FetchOutcome,
                           elapsedMs: nat, hostName: string, now: string)
    ensures Lookup(keyName, appType, store, elapsedMs, hostName, now).result.Success?
        <==> ValidArguments(keyName, appType) && store(RequestFor(keyName, appType)).Value?
    ensures Lookup(keyName, appType, store, elapsedMs, hostName, now).result.Success? ==>
      Lookup(keyName, appType, store, elapsedMs, hostName, now).result.value == store(RequestFor(keyName, appType)).value
  {
  }

  /** A not-found failure whose fields are clean logs a record from which the parser reads the
      exception message and the stopwatch reading back. */
  lemma NotFoundLogReadsBack(keyName: NullableString, appType: NullableString, store: GetParameterRequest -> FetchOutcome,
                             elapsedMs: nat, hostName: string, now: string, ex: ExceptionInfo)
    requires ValidArguments(keyName, appType)
    requires store(RequestFor(keyName, appType)) == NotFound(ex)
    requires Clean(hostName) && Clean(ex.message) && Clean(Render(ex.stackTrace)) && ',' !in now
    requires elapsedMs <= LongMax
    ensures var o := Lookup(keyName, appType, store, elapsedMs, hostName, now);
      var entries := LoggedEntries(o.effects);
      && |entries| == 2
      && var back := Parse(entries[1].text);
      && back.Success?
      && back.value.exceptionMessage == Str(ex.message)
      && back.value.timeTaken == elapsedMs
  {
    NotFoundLoggedAndRethrown(keyName, appType, store, elapsedMs, hostName, now, ex);
    FailureTextReadsBack(hostName, now, ex, elapsedMs);
  }

  // ---------------------------------------------------------------------------
  // The service

  class ConfigurationService {
    /** Everything logged and requested so far, in order. */
    var trace: seq<Effect>

    constructor ()
      ensures trace == []
    {
      trace := [];
    }

    /** The entries the logger received. */
    function Logs(): seq<LogEntry>
      reads this
    {
      LoggedEntries(trace)
    }

    /** The requests the Parameter Store client received. */
    function Fetches(): seq<GetParameterRequest>
      reads this
    {
      Requests(trace)
    }

    /** GetConfigurationValueAsync(keyName, appType). The stopwatch reading after the request
        completes or fails is `elapsedMs`; the failure record takes `hostName` and `now`. */
    method GetConfigurationValue(keyName: NullableString, appType: NullableString,
                                 store: GetParameterRequest -> FetchOutcome,
                                 elapsedMs: nat, hostName: string, now: string)
      returns (r: Result<string, ServiceError>)
      modifies this
      ensures r == Lookup(keyName, appType, store, elapsedMs, hostName, now).result
      ensures trace == old(trace) + Lookup(keyName, appType, store, elapsedMs, hostName, now).effects
      ensures Logs() == old(Logs()) + LoggedEntries(Lookup(keyName, appType, store, elapsedMs, hostName, now).effects)
      ensures Fetches() == old(Fetches()) + Requests(Lookup(keyName, appType, store, elapsedMs, hostName, now).effects)
    {
      var start := trace;
      if IsNullOrWhiteSpace(keyName) {
        trace := trace + [Logged(LogEntry(Error, KeyNameBlank))];
        r := Failure(InvalidArgument(KeyNameBlank, "keyName"));
      } else if IsNullOrWhiteSpace(appType) {
        trace := trace + [Logged(LogEntry(Error, AppTypeBlank))];
        r := Failure(InvalidArgument(AppTypeBlank, "appType"));
      } else {
        var parameterName := ParameterPath(appType.value, keyName.value);
        r := Retrieve(parameterName, store, elapsedMs, hostName, now);
      }
      LoggedEntriesAppend(start, Lookup(keyName, appType, store, elapsedMs, hostName, now).effects);
      RequestsAppend(start, Lookup(keyName, appType, store, elapsedMs, hostName, now).effects);
    }

    /** The try block and its two catch clauses, for the path built from the arguments. */
    method Retrieve(parameterName: string, store: GetParameterRequest -> FetchOutcome,
                    elapsedMs: nat, hostName: string, now: string)
      returns (r: Result<string, ServiceError>)
      modifies this
      ensures r == Retrieval(parameterName, store, elapsedMs, hostName, now).result
      ensures trace == old(trace) + Retrieval(parameterName, store, elapsedMs, hostName, now).effects
    {
      trace := trace + [Logged(LogEntry(Information, AttemptMessage(parameterName)))];
      var request := GetParameterRequest(parameterName, true);
      trace := trace + [Fetched(request)];
      match store(request) {
        case Value(v) =>
          trace := trace + [Logged(LogEntry(Information, SuccessMessage(parameterName, elapsedMs)))];
          r := Success(v);
        case NotFound(ex) =>
          var detailedLog := DescribeFailure(hostName, now, ex, elapsedMs);
          trace := trace + [Logged(LogEntry(Error, detailedLog))];
          r := Failure(ParameterNotFound(ex));
        case Other(ex) =>
          var detailedLog := DescribeFailure(hostName, now, ex, elapsedMs);
          trace := trace + [Logged(LogEntry(Error, detailedLog))];
          r := Failure(OtherFailure(ex));
      }
    }
  }

  // ---------------------------------------------------------------------------
  // The two unit tests, against a fresh service

  /** The arguments both tests pass: key "test" of application "app". */
  lemma TestArguments()
    ensures ValidArguments(Str("test"), Str("app"))
    ensures RequestFor(Str("test"), Str("app")) == GetParameterRequest("/app/test", true)
  {
    assert !IsWhiteSpace("test"[0]) && !IsWhiteSpace("app"[0]);
    assert "/" + "app" + "/" + "test" == "/app/test";
  }

  /** A store that answers every request with "test-value" returns it for key "test" of
      application "app", and the log holds the success message. */
  method ReturnsValueWhenParameterExists(elapsedMs: nat, hostName: string, now: string)
    returns (result: Result<string, ServiceError>, logs: seq<LogEntry>, requests: seq<GetParameterRequest>)
    ensures result == Success("test-value")
    ensures requests == [GetParameterRequest("/app/test", true)]
    ensures exists i :: 0 <= i < |logs| && ContainsText(logs[i].text, "Successfully retrieved parameter")
  {
    var service := new ConfigurationService();
    var store := (request: GetParameterRequest) => Value("test-value");
    result := service.GetConfigurationValue(Str("test"), Str("app"), store, elapsedMs, hostName, now);
    logs := service.Logs();
    requests := service.Fetches();
    TestArguments();
    FoundValueReturned(Str("test"), Str("app"), store, elapsedMs, hostName, now, "test-value");
    ValidArgumentsFetchOnce(Str("test"), Str("app"), store, elapsedMs, hostName, now);
    assert ContainsText(logs[1].text, "Successfully retrieved parameter");
  }

  /** A store that raises ParameterNotFoundException("Parameter not found") makes the call
      rethrow it, and the log holds the exception message. */
  method ThrowsWhenParameterNotFound(elapsedMs: nat, hostName: string, now: string, stackTrace: NullableString)
    returns (result: Result<string, ServiceError>, logs: seq<LogEntry>)
    ensures result == Failure(ParameterNotFound(ExceptionInfo("Parameter not found", stackTrace)))
    ensures exists i :: 0 <= i < |logs| && ContainsText(logs[i].text, "Parameter not found")
  {
    var ex := ExceptionInfo("Parameter not found", stackTrace);
    var service := new ConfigurationService();
    var store := (request: GetParameterRequest) => NotFound(ex);
    result := service.GetConfigurationValue(Str("test"), Str("app"), store, elapsedMs, hostName, now);
    logs := service.Logs();
    TestArguments();
    NotFoundLoggedAndRethrown(Str("test"), Str("app"), store, elapsedMs, hostName, now, ex);
    assert ContainsText(logs[1].text, "Parameter not found");
  }
}
