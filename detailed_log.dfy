/**
 * DetailedLogBuilder: the diagnostic record logged when a parameter fetch fails
 * (host, date, exception message, stack trace, elapsed milliseconds), its
 * comma-separated text form and the parser that reads that text back.
 *
 * The host name and the date are inputs of the constructor; the date is kept as
 * the text that rendering the DateTime would produce.
 */
module DetailedLog {
  import opened Results
  import opened Text

  /** What the builder reads from a System.Exception. */
  datatype ExceptionInfo = ExceptionInfo(message: string, stackTrace: NullableString)

  /** The five properties of a builder, as a value. */
  datatype LogRecord = LogRecord(
    host: string,
    date: string,
    exceptionMessage: NullableString,
    stackTrace: NullableString,
    timeTaken: int)

  /** The record that a builder holds after WithException(ex) and WithTimeTaken(elapsedMs). */
  function FailureRecord(hostName: string, now: string, ex: ExceptionInfo, elapsedMs: nat): LogRecord
  {
    LogRecord(hostName, now, Str(ex.message), ex.stackTrace, elapsedMs)
  }

  // ---------------------------------------------------------------------------
  // The builder

  class DetailedLogBuilder {
    var host: string
    var date: string
    var exceptionMessage: NullableString
    var stackTrace: NullableString
    var timeTaken: int

    function Record(): LogRecord
      reads this
    {
      LogRecord(host, date, exceptionMessage, stackTrace, timeTaken)
    }

    /** Takes the host name and the current UTC date; the exception fields stay unset. */
    constructor (hostName: string, now: string)
      ensures Record() == LogRecord(hostName, now, Null, Null, 0)
    {
      host := hostName;
      date := now;
      exceptionMessage := Null;
      stackTrace := Null;
      timeTaken := 0;
    }

    method WithException(ex: ExceptionInfo) returns (self: DetailedLogBuilder)
      modifies this
      ensures self == this
      ensures Record() == old(Record()).(exceptionMessage := Str(ex.message), stackTrace := ex.stackTrace)
    {
      exceptionMessage := Str(ex.message);
      stackTrace := ex.stackTrace;
      self := this;
    }

    /** Records the stopwatch reading, in whole milliseconds. */
    method WithTimeTaken(elapsedMs: nat) returns (self: DetailedLogBuilder)
      modifies this
      ensures self == this
      ensures Record() == old(Record()).(timeTaken := elapsedMs)
    {
      timeTaken := elapsedMs;
      self := this;
    }

    /** ToString(), and the implicit conversion to string, which returns it. */
    function ToString(): string
      reads this
    {
      Serialize(Record())
    }
  }

  // ---------------------------------------------------------------------------
  // Text form

  function Serialize(r: LogRecord): string
  {
    "Host: " + r.host + ", Date: " + r.date + ", Exception: " + Render(r.exceptionMessage)
      + ", StackTrace: " + Render(r.stackTrace) + ", TimeTaken: " + IntToText(r.timeTaken) + "ms"
  }

  /** One piece of the text form: a name, a colon, a space and the value. */
  function Labelled(name: string, v: string): string
  {
    name + (": " + v)
  }

  /** The five comma-separated pieces of the text form, in order. */
  function Segments(r: LogRecord): seq<string>
  {
    [ Labelled("Host", r.host),
      Labelled(" Date", r.date),
      Labelled(" Exception", Render(r.exceptionMessage)),
      Labelled(" StackTrace", Render(r.stackTrace)),
      Labelled(" TimeTaken", IntToText(r.timeTaken) + "ms") ]
  }

  /** The text form is the five labelled pieces with a comma between neighbours. */
  lemma SerializeLayout(r: LogRecord)
    ensures Serialize(r) ==
      Labelled("Host", r.host) + [','] + Labelled(" Date", r.date)
      + [','] + Labelled(" Exception", Render(r.exceptionMessage))
      + [','] + Labelled(" StackTrace", Render(r.stackTrace))
      + [','] + Labelled(" TimeTaken", IntToText(r.timeTaken) + "ms")
  {
    var a0 := "Host: " + r.host;
    var a1 := a0 + ", Date: " + r.date;
    var a2 := a1 + ", Exception: " + Render(r.exceptionMessage);
    var a3 := a2 + ", StackTrace: " + Render(r.stackTrace);
    var time := IntToText(r.timeTaken);
    assert a0 == Labelled("Host", r.host);
    AppendLabelled(a0, ", Date: ", " Date", r.date);
    AppendLabelled(a1, ", Exception: ", " Exception", Render(r.exceptionMessage));
    AppendLabelled(a2, ", StackTrace: ", " StackTrace", Render(r.stackTrace));
    assert Serialize(r) == a3 + ", TimeTaken: " + (time + "ms");
    AppendLabelled(a3, ", TimeTaken: ", " TimeTaken", time + "ms");
  }

  /** Appending a ", Name: " literal and a value appends a comma and the labelled piece. */
  lemma AppendLabelled(front: string, literal: string, name: string, v: string)
    requires literal == [','] + name + ": "
    ensures front + literal + v == front + [','] + Labelled(name, v)
  {
  }

  /** Exact layout: when no field holds a comma, the text splits on commas into exactly the
      five labelled pieces, and joining them back gives the text. */
  lemma SerializeSplits(r: LogRecord)
    requires ',' !in r.host && ',' !in r.date
    requires ',' !in Render(r.exceptionMessage) && ',' !in Render(r.stackTrace)
    ensures Split(Serialize(r), ',') == Segments(r)
    ensures Join(Segments(r), ',') == Serialize(r)
  {
    var p := Segments(r);
    assert ',' !in p[4] by {
      IntToTextShape(r.timeTaken);
    }
    SerializeLayout(r);
    SplitFive(p[0], p[1], p[2], p[3], p[4]);
  }

  /** Five comma-free pieces with a comma between neighbours split back into the five. */
  lemma SplitFive(p0: string, p1: string, p2: string, p3: string, p4: string)
    requires ',' !in p0 && ',' !in p1 && ',' !in p2 && ',' !in p3 && ',' !in p4
    ensures Split(p0 + [','] + p1 + [','] + p2 + [','] + p3 + [','] + p4, ',') == [p0, p1, p2, p3, p4]
  {
    var x1 := p0 + [','] + p1;
    var x2 := x1 + [','] + p2;
    var x3 := x2 + [','] + p3;
    SplitWithoutDelimiter(p0, ',');
    SplitWithoutDelimiter(p1, ',');
    SplitWithoutDelimiter(p2, ',');
    SplitWithoutDelimiter(p3, ',');
    SplitWithoutDelimiter(p4, ',');
    assert Split(x1, ',') == [p0, p1] by { SplitConcat(p0, p1, ','); }
    assert Split(x2, ',') == [p0, p1, p2] by { SplitConcat(x1, p2, ','); }
    assert Split(x3, ',') == [p0, p1, p2, p3] by { SplitConcat(x2, p3, ','); }
    SplitConcat(x3, p4, ',');
  }

  /** The text form mentions the exception message and the elapsed time with its "ms". */
  lemma SerializeMentions(r: LogRecord)
    ensures ContainsText(Serialize(r), Render(r.exceptionMessage))
    ensures ContainsText(Serialize(r), IntToText(r.timeTaken) + "ms")
  {
    InterpolationMentions("Host: ", r.host, ", Date: ", r.date, ", Exception: ", Render(r.exceptionMessage),
      ", StackTrace: ", Render(r.stackTrace), ", TimeTaken: ", IntToText(r.timeTaken), "ms");
  }

  /** An eleven-piece interpolation contains its sixth piece and its last two. */
  lemma InterpolationMentions(h0: string, host: string, h1: string, date: string, h2: string, message: string,
                              h3: string, trace: string, h4: string, time: string, h5: string)
    ensures ContainsText(h0 + host + h1 + date + h2 + message + h3 + trace + h4 + time + h5, message)
    ensures ContainsText(h0 + host + h1 + date + h2 + message + h3 + trace + h4 + time + h5, time + h5)
  {
    var front := h0 + host + h1 + date + h2;
    var s := front + message + h3 + trace + h4 + time + h5;
    assert s == front + message + (h3 + trace + h4 + time + h5);
    ContainsMiddle(front, message, h3 + trace + h4 + time + h5);
    assert s == (front + message + h3 + trace + h4) + (time + h5) + [];
    ContainsMiddle(front + message + h3 + trace + h4, time + h5, []);
  }

  // ---------------------------------------------------------------------------
  // Parsing the text form

  datatype ParseError =
    | IndexOutOfRange                   // a missing comma piece, or a piece with no colon
    | NumberFormat(cause: NumberError)  // long.Parse rejected the time field

  /** piece.Split(':')[1].Trim(): the text between the first and the second colon, trimmed,
      or the IndexOutOfRangeException that the indexing raises. */
  function FieldOf(piece: string): (r: Result<string, ParseError>)
    ensures r.Success? <==> ':' in piece
  {
    SplitHasSecondPiece(piece, ':');
    var halves := Split(piece, ':');
    if |halves| >= 2 then Success(Trim(halves[1])) else Failure(IndexOutOfRange)
  }

  /** The corrected field read, piece.Split(':', 2)[1].Trim(): everything after the first colon,
      trimmed, so that a value holding a colon survives. */
  function FieldAfterColon(piece: string): (r: Result<string, ParseError>)
    ensures r.Success? <==> ':' in piece
  {
    SplitOnceHasSecondPiece(piece, ':');
    var halves := SplitOnce(piece, ':');
    if |halves| == 2 then Success(Trim(halves[1])) else Failure(IndexOutOfRange)
  }

  /** The time field: every "ms" deleted, then Int64.Parse. */
  function TimeOf(text: string): (r: Result<int, NumberError>)
    ensures r.Success? ==> LongMin <= r.value <= LongMax
  {
    ParseLong(DeleteAll(text, "ms"))
  }

  /** The parser over the comma pieces, reading each field with `field`. Fewer than five pieces
      make one of the five indexings fail; pieces after the fifth are never read. */
  function ParsePieces(field: string -> Result<string, ParseError>, parts: seq<string>): Result<LogRecord, ParseError>
  {
    if |parts| < 5 then Failure(IndexOutOfRange)
    else ParseFive(field, parts[0], parts[1], parts[2], parts[3], parts[4])
  }

  /** The five field reads of the object initializer, then the time conversion. */
  function ParseFive(field: string -> Result<string, ParseError>,
                     p0: string, p1: string, p2: string, p3: string, p4: string): Result<LogRecord, ParseError>
  {
    var host := field(p0);
    var date := field(p1);
    var exception := field(p2);
    var stackTrace := field(p3);
    var time := field(p4);
    if host.Failure? || date.Failure? || exception.Failure? || stackTrace.Failure? || time.Failure? then
      Failure(IndexOutOfRange)
    else
      var t := TimeOf(time.value);
      if t.Failure? then Failure(NumberFormat(t.error))
      else Success(LogRecord(host.value, date.value, Str(exception.value), Str(stackTrace.value), t.value))
  }

  /** The implicit conversion from string. The date field is the text handed to DateTime.Parse. */
  function Parse(log: string): Result<LogRecord, ParseError>
  {
    ParsePieces(FieldOf, Split(log, ','))
  }

  /** The same conversion with the corrected field read. */
  function ParseWholeFields(log: string): Result<LogRecord, ParseError>
  {
    ParsePieces(FieldAfterColon, Split(log, ','))
  }

  /** The shape the parser needs: five comma pieces, each of the first five with a colon. */
  predicate HasFiveFields(log: string)
  {
    var parts := Split(log, ',');
    |parts| >= 5 && forall i :: 0 <= i < 5 ==> ':' in parts[i]
  }

  lemma AllFieldsPresent(parts: seq<string>)
    requires |parts| >= 5 && forall i :: 0 <= i < 5 ==> FieldOf(parts[i]).Success?
    ensures ParsePieces(FieldOf, parts) != Failure(IndexOutOfRange)
  {
  }

  lemma MissingFieldFails(parts: seq<string>, i: nat)
    requires i < 5 && (i >= |parts| || FieldOf(parts[i]).Failure?)
    ensures ParsePieces(FieldOf, parts) == Failure(IndexOutOfRange)
  {
    if i == 0 {} else if i == 1 {} else if i == 2 {} else if i == 3 {} else {}
  }

  /** The parser indexes out of range exactly when the text lacks that shape. */
  lemma ParseNeedsFiveFields(log: string)
    ensures Parse(log) == Failure(IndexOutOfRange) <==> !HasFiveFields(log)
  {
    var parts := Split(log, ',');
    if HasFiveFields(log) {
      forall i | 0 <= i < 5 ensures FieldOf(parts[i]).Success? {
        SplitHasSecondPiece(parts[i], ':');
      }
      AllFieldsPresent(parts);
    } else {
      var i :| 0 <= i < 5 && (i >= |parts| || ':' !in parts[i]);
      assert i >= |parts| || FieldOf(parts[i]).Failure? by {
        if i < |parts| {
          SplitHasSecondPiece(parts[i], ':');
        }
      }
      MissingFieldFails(parts, i);
    }
  }

  /** Comma pieces after the fifth are ignored. */
  lemma ParseIgnoresLaterPieces(log: string, extra: string)
    requires |Split(log, ',')| >= 5
    ensures Parse(log + "," + extra) == Parse(log)
  {
    assert log + "," + extra == log + [','] + extra;
    SplitConcat(log, extra, ',');
    var parts := Split(log, ',');
    var more := parts + Split(extra, ',');
    assert more[0] == parts[0] && more[1] == parts[1] && more[2] == parts[2];
    assert more[3] == parts[3] && more[4] == parts[4];
  }

  /** A labelled piece whose value has no colon reads back as its trimmed value. */
  lemma FieldOfLabelled(name: string, v: string)
    requires ':' !in name && ':' !in v
    ensures FieldOf(Labelled(name, v)) == Success(Trim([' '] + v))
  {
    assert Labelled(name, v) == name + ([':'] + ([' '] + v));
    SplitCons(name, [' '] + v, ':');
    SplitWithoutDelimiter([' '] + v, ':');
  }

  /** The date piece keeps only the text before the date's first colon. */
  lemma FieldOfDate(date: string)
    ensures FieldOf(Labelled(" Date", date)) == Success(Trim(Split(date, ':')[0]))
  {
    var s := [' '] + date;
    assert Labelled(" Date", date) == " Date" + ([':'] + s);
    SplitCons(" Date", s, ':');
    assert s[1..] == date;
    var rest := Split(date, ':');
    assert Split(s, ':')[0] == [' '] + rest[0];
    TrimSkipsLeadingSpace(rest[0]);
  }

  /** The time piece as the text form writes it reads back as the number. */
  lemma TimeOfRendered(t: int)
    requires LongMin <= t <= LongMax
    ensures TimeOf(IntToText(t) + "ms") == Success(t)
  {
    var time := IntToText(t);
    IntToTextShape(t);
    DeleteAllKeepsPlain(time, "ms", "ms");
    assert DeleteAll("ms", "ms") == [];
    assert DeleteAll(time + "ms", "ms") == time;
    LongTextRoundTrip(t);
  }

  /** A field value with no comma and no white space at either end. */
  predicate Plain(s: string)
  {
    ',' !in s && (s == [] || (!IsWhiteSpace(s[0]) && !IsWhiteSpace(s[|s| - 1])))
  }

  /** A field value that survives the text form unchanged: plain, and without a colon. */
  predicate Clean(s: string)
  {
    Plain(s) && ':' !in s
  }

  /** Bounded round trip: host, exception message, stack trace and time come back exactly
      (an unset message or trace comes back empty); the date comes back cut at its first colon. */
  lemma RoundTrip(r: LogRecord)
    requires Clean(r.host) && Clean(Render(r.exceptionMessage)) && Clean(Render(r.stackTrace))
    requires ',' !in r.date
    requires LongMin <= r.timeTaken <= LongMax
    ensures Parse(Serialize(r)) == Success(LogRecord(r.host, Trim(Split(r.date, ':')[0]),
      Str(Render(r.exceptionMessage)), Str(Render(r.stackTrace)), r.timeTaken))
  {
    SerializeSplits(r);
    ParseSegments(r);
  }

  /** The parser reads each of the five segments back. */
  lemma ParseSegments(r: LogRecord)
    requires Clean(r.host) && Clean(Render(r.exceptionMessage)) && Clean(Render(r.stackTrace))
    requires LongMin <= r.timeTaken <= LongMax
    ensures ParsePieces(FieldOf, Segments(r)) == Success(LogRecord(r.host, Trim(Split(r.date, ':')[0]),
      Str(Render(r.exceptionMessage)), Str(Render(r.stackTrace)), r.timeTaken))
  {
    TimeTextClean(r.timeTaken);
    TimeOfRendered(r.timeTaken);
    ParseLabelled(r.host, r.date, Render(r.exceptionMessage), Render(r.stackTrace),
      IntToText(r.timeTaken) + "ms", r.timeTaken);
  }

  lemma ParseLabelled(host: string, date: string, message: string, trace: string, time: string, t: int)
    requires Clean(host) && Clean(message) && Clean(trace) && Clean(time)
    requires TimeOf(time) == Success(t)
    ensures ParsePieces(FieldOf, [Labelled("Host", host), Labelled(" Date", date), Labelled(" Exception", message),
                         Labelled(" StackTrace", trace), Labelled(" TimeTaken", time)])
         == Success(LogRecord(host, Trim(Split(date, ':')[0]), Str(message), Str(trace), t))
  {
    assert FieldNames[0] == "Host" && FieldNames[2] == " Exception";
    assert FieldNames[3] == " StackTrace" && FieldNames[4] == " TimeTaken";
    FieldOfClean(0, host);
    FieldOfDate(date);
    FieldOfClean(2, message);
    FieldOfClean(3, trace);
    FieldOfClean(4, time);
    FieldsAssemble(FieldOf, Labelled("Host", host), Labelled(" Date", date), Labelled(" Exception", message),
      Labelled(" StackTrace", trace), Labelled(" TimeTaken", time),
      host, Trim(Split(date, ':')[0]), message, trace, time, t);
  }

  /** The names of the five fields, as the text form writes them. */
  const FieldNames: seq<string> := ["Host", " Date", " Exception", " StackTrace", " TimeTaken"]

  /** A clean value reads back unchanged from its labelled piece. */
  lemma FieldOfClean(i: nat, v: string)
    requires i < |FieldNames| && Clean(v)
    ensures FieldOf(Labelled(FieldNames[i], v)) == Success(v)
  {
    assert ':' !in FieldNames[i] by {
      if i == 0 {} else if i == 1 {} else if i == 2 {} else if i == 3 {} else {}
    }
    FieldOfLabelled(FieldNames[i], v);
    TrimPadded(v);
  }

  /** The written time is a clean field value. */
  lemma TimeTextClean(t: int)
    ensures Clean(IntToText(t) + "ms")
  {
    var time := IntToText(t);
    IntToTextShape(t);
    assert (time + "ms")[0] == time[0];
    assert (time + "ms")[|time| + 1] == 's';
  }

  lemma FieldsAssemble(field: string -> Result<string, ParseError>, p0: string, p1: string, p2: string, p3: string, p4: string,
                       host: string, date: string, message: string, trace: string, time: string, t: int)
    requires field(p0) == Success(host) && field(p1) == Success(date)
    requires field(p2) == Success(message) && field(p3) == Success(trace)
    requires field(p4) == Success(time) && TimeOf(time) == Success(t)
    ensures ParsePieces(field, [p0, p1, p2, p3, p4]) == Success(LogRecord(host, date, Str(message), Str(trace), t))
  {
    var parts := [p0, p1, p2, p3, p4];
    assert parts[0] == p0 && parts[1] == p1 && parts[2] == p2 && parts[3] == p3 && parts[4] == p4;
  }

  /** With a date rendering that has no colon either, all five fields survive. */
  lemma RoundTripWithPlainDate(r: LogRecord)
    requires Clean(r.host) && Clean(r.date) && Clean(Render(r.exceptionMessage)) && Clean(Render(r.stackTrace))
    requires LongMin <= r.timeTaken <= LongMax
    ensures Parse(Serialize(r)) == Success(r.(exceptionMessage := Str(Render(r.exceptionMessage)),
                                               stackTrace := Str(Render(r.stackTrace))))
  {
    RoundTrip(r);
    SplitWithoutDelimiter(r.date, ':');
    TrimPadded(r.date);
    TrimSkipsLeadingSpace(r.date);
  }

  /** A date rendering with a time of day, such as "10/14/2026 3:04:05 PM", comes back cut
      at its first colon: as "10/14/2026 3". */
  lemma DateCutAtFirstColon(r: LogRecord, before: string, after: string)
    requires Clean(r.host) && Clean(Render(r.exceptionMessage)) && Clean(Render(r.stackTrace))
    requires r.date == before + ":" + after && Clean(before) && ',' !in after
    requires LongMin <= r.timeTaken <= LongMax
    ensures Parse(Serialize(r)) == Success(r.(date := before, exceptionMessage := Str(Render(r.exceptionMessage)),
                                               stackTrace := Str(Render(r.stackTrace))))
    ensures Parse(Serialize(r)).value.date != r.date
  {
    DateBeforeColon(before, after);
    RoundTrip(r);
    assert |r.date| > |before|;
  }

  lemma DateBeforeColon(before: string, after: string)
    requires Clean(before) && ',' !in after
    ensures ',' !in before + ":" + after
    ensures Trim(Split(before + ":" + after, ':')[0]) == before
  {
    var date := before + ":" + after;
    assert date == before + ([':'] + after);
    assert Split(date, ':')[0] == before by {
      SplitCons(before, after, ':');
    }
    assert Trim(before) == before by {
      TrimPadded(before);
      TrimSkipsLeadingSpace(before);
    }
  }

  // ---------------------------------------------------------------------------
  // The corrected field read

  /** A labelled piece reads back, with the corrected field read, as its trimmed value, however
      many colons the value holds. */
  lemma FieldAfterColonLabelled(name: string, v: string)
    requires ':' !in name
    ensures FieldAfterColon(Labelled(name, v)) == Success(Trim([' '] + v))
  {
    assert Labelled(name, v) == name + [':'] + ([' '] + v);
    SplitOnceAtFirst(name, [' '] + v, ':');
  }

  /** A plain value reads back unchanged from its labelled piece with the corrected field read. */
  lemma FieldAfterColonPlain(i: nat, v: string)
    requires i < |FieldNames| && Plain(v)
    ensures FieldAfterColon(Labelled(FieldNames[i], v)) == Success(v)
  {
    assert ':' !in FieldNames[i] by {
      if i == 0 {} else if i == 1 {} else if i == 2 {} else if i == 3 {} else {}
    }
    FieldAfterColonLabelled(FieldNames[i], v);
    TrimPadded(v);
  }

  /** With the corrected field read, every field comes back exactly, colons included: a
      rendered date with a time of day survives. */
  lemma RoundTripWholeFields(r: LogRecord)
    requires Plain(r.host) && Plain(r.date) && Plain(Render(r.exceptionMessage)) && Plain(Render(r.stackTrace))
    requires LongMin <= r.timeTaken <= LongMax
    ensures ParseWholeFields(Serialize(r)) == Success(r.(exceptionMessage := Str(Render(r.exceptionMessage)),
                                                         stackTrace := Str(Render(r.stackTrace))))
  {
    var message := Render(r.exceptionMessage);
    var trace := Render(r.stackTrace);
    var time := IntToText(r.timeTaken) + "ms";
    SerializeSplits(r);
    assert FieldNames[0] == "Host" && FieldNames[1] == " Date" && FieldNames[2] == " Exception";
    assert FieldNames[3] == " StackTrace" && FieldNames[4] == " TimeTaken";
    FieldAfterColonPlain(0, r.host);
    FieldAfterColonPlain(1, r.date);
    FieldAfterColonPlain(2, message);
    FieldAfterColonPlain(3, trace);
    TimeTextClean(r.timeTaken);
    FieldAfterColonPlain(4, time);
    TimeOfRendered(r.timeTaken);
    FieldsAssemble(FieldAfterColon, Labelled("Host", r.host), Labelled(" Date", r.date), Labelled(" Exception", message),
      Labelled(" StackTrace", trace), Labelled(" TimeTaken", time),
      r.host, r.date, message, trace, time, r.timeTaken);
  }
}
