/** The command assembler of the `ffmpeg` package (`Command`): a form over
    the command-line options that, once its fields are valid, emits the
    ffmpeg program path, the options that go before the input, the input,
    the options after it, the codecs, the filters and the output, in that
    order. */
module FfmpegGenerator {
  import opened Wrappers
  import opened Text
  import opened Renderings
  import opened FfmpegUtils
  import opened FfmpegCodecs
  import opened FfmpegFilters

  // ---------------------------------------------------------------------
  // Form data and its cleaning
  // ---------------------------------------------------------------------

  /** A value given for a time field: nothing, a text in one of the field's
      input formats (`%H:%M:%S.%f`, `%H:%M:%S`), or a `time` object. */
  datatype TimeInput = NoTime | TimeText(text: string) | TimeValue(time: Time)

  /** A value given for the timestamp field: nothing, a text, or a
      `datetime` object. */
  datatype DateTimeInput = NoDateTime | DateTimeText(text: string) | DateTimeValue(dateTime: DateTime)

  /** The keyword arguments a `Command` is built from. `loglevel == ""` means
      no log level; a log level member is given by its value. */
  datatype CommandData = CommandData(
    input: string,
    output: string,
    loglevel: string,
    overwrite: Option<bool>,
    streamLoop: Option<int>,
    duration: TimeInput,
    addDurationBeforeInput: bool,
    toPosition: TimeInput,
    ssPosition: TimeInput,
    addSsPositionBeforeInput: bool,
    sseofPosition: TimeInput,
    fileSizeLimit: Option<int>,
    itsoffset: TimeInput,
    timestamp: DateTimeInput,
    timestampNow: bool,
    vn: bool,
    aspect: Option<Decimal>)

  /** `cleaned_data` of a valid command. */
  datatype Cleaned = Cleaned(
    input: string,
    output: string,
    loglevel: string,
    overwrite: Option<bool>,
    streamLoop: Option<int>,
    duration: Option<Time>,
    addDurationBeforeInput: bool,
    toPosition: Option<Time>,
    ssPosition: Option<Time>,
    addSsPositionBeforeInput: bool,
    sseofPosition: Option<Time>,
    fileSizeLimit: Option<int>,
    itsoffset: Option<Time>,
    timestamp: Option<DateTime>,
    timestampNow: bool,
    vn: bool,
    aspect: Option<Decimal>)

  /** A `TimeField` with the two input formats: an empty value cleans to
      `None`, a text must parse in one of the formats, a `time` object is kept. */
  function CleanTime(v: TimeInput): (r: Option<Option<Time>>)
    ensures r.Some? && r.value.Some? ==> ValidTime(r.value.value)
  {
    match v
    case NoTime => Some(None)
    case TimeText(s) =>
      if s == "" then Some(None)
      else (match ParseTime(s) case Some(t) => Some(Some(t)) case None => None)
    case TimeValue(t) => if ValidTime(t) then Some(Some(t)) else None
  }

  /** A `DateTimeField`: an empty value cleans to `None`, a text must be read
      by `ParseDateTime`, a `datetime` object is kept. */
  function CleanDateTime(v: DateTimeInput): (r: Option<Option<DateTime>>)
    ensures r.Some? && r.value.Some? ==> ValidDateTime(r.value.value)
  {
    match v
    case NoDateTime => Some(None)
    case DateTimeText(s) =>
      if s == "" then Some(None)
      else (match ParseDateTime(s) case Some(dt) => Some(Some(dt)) case None => None)
    case DateTimeValue(dt) => if ValidDateTime(dt) then Some(Some(dt)) else None
  }

  predicate LogLevelChoice(s: string)
  {
    s == "" || s in Values(LogLevelClass)
  }

  /** The field checks, in declaration order: the text and count fields, the
      five times, then the size limit and the timestamp. */
  function CommandViolations(d: CommandData): seq<Violation>
  {
    TextViolations(d) + TimeViolations(d) + LimitViolations(d)
  }

  function TextViolations(d: CommandData): seq<Violation>
  {
    (if d.input == "" then [FieldViolation("input")] else [])
    + (if d.output == "" then [FieldViolation("output")] else [])
    + (if !LogLevelChoice(d.loglevel) then [FieldViolation("loglevel")] else [])
    + (if d.streamLoop.Some? && d.streamLoop.value < -1 then [FieldViolation("stream_loop")] else [])
  }

  function TimeViolations(d: CommandData): seq<Violation>
  {
    (if CleanTime(d.duration).None? then [FieldViolation("duration")] else [])
    + (if CleanTime(d.toPosition).None? then [FieldViolation("to_position")] else [])
    + (if CleanTime(d.ssPosition).None? then [FieldViolation("ss_position")] else [])
    + (if CleanTime(d.sseofPosition).None? then [FieldViolation("sseof_position")] else [])
  }

  function LimitViolations(d: CommandData): seq<Violation>
  {
    (if d.fileSizeLimit.Some? && d.fileSizeLimit.value < 0 then [FieldViolation("file_size_limit")] else [])
    + (if CleanTime(d.itsoffset).None? then [FieldViolation("itsoffset")] else [])
    + (if CleanDateTime(d.timestamp).None? then [FieldViolation("timestamp")] else [])
  }

  predicate CommandValid(d: CommandData)
  {
    CommandViolations(d) == []
  }

  /** A command is valid exactly when it names an input and an output, its log
      level is empty or one of the choices, the stream loop is at least -1,
      the file size limit is not negative, and each time field and the
      timestamp clean. */
  lemma CommandValidIff(d: CommandData)
    ensures CommandValid(d) <==>
      && d.input != "" && d.output != ""
      && LogLevelChoice(d.loglevel)
      && (d.streamLoop.Some? ==> d.streamLoop.value >= -1)
      && (d.fileSizeLimit.Some? ==> d.fileSizeLimit.value >= 0)
      && CleanTime(d.duration).Some? && CleanTime(d.toPosition).Some?
      && CleanTime(d.ssPosition).Some? && CleanTime(d.sseofPosition).Some?
      && CleanTime(d.itsoffset).Some?
      && CleanDateTime(d.timestamp).Some?
  {
  }

  function Clean(d: CommandData): (c: Cleaned)
    requires CommandValid(d)
  {
    Cleaned(d.input, d.output, d.loglevel, d.overwrite, d.streamLoop,
            CleanTime(d.duration).value, d.addDurationBeforeInput,
            CleanTime(d.toPosition).value, CleanTime(d.ssPosition).value, d.addSsPositionBeforeInput,
            CleanTime(d.sseofPosition).value, d.fileSizeLimit, CleanTime(d.itsoffset).value,
            CleanDateTime(d.timestamp).value, d.timestampNow, d.vn, d.aspect)
  }

  /** A time given as the text `str()` writes for it, or as a `time` object,
      cleans to that time; a text in neither input format is a violation. */
  lemma CleanTimeReadsBack(t: Time, s: string)
    requires ValidTime(t)
    ensures CleanTime(TimeText(TimeStr(t))) == Some(Some(t))
    ensures CleanTime(TimeValue(t)) == Some(Some(t))
    ensures s != "" && ParseTime(s).None? ==> CleanTime(TimeText(s)).None?
  {
    TimeStrRoundTrip(t);
  }

  /** A timestamp given as the text `str()` writes for it, or as a `datetime`
      object, cleans to that timestamp; a text `ParseDateTime` refuses is a
      violation. */
  lemma CleanDateTimeReadsBack(dt: DateTime, s: string)
    requires ValidDateTime(dt)
    ensures CleanDateTime(DateTimeText(DateTimeStr(dt))) == Some(Some(dt))
    ensures CleanDateTime(DateTimeValue(dt)) == Some(Some(dt))
    ensures s != "" && ParseDateTime(s).None? ==> CleanDateTime(DateTimeText(s)).None?
  {
    DateTimeStrRoundTrip(dt);
  }

  // ---------------------------------------------------------------------
  // Quoting of file paths
  // ---------------------------------------------------------------------

  /** `_normalize`: a backslash before every double and every single quote. */
  function Normalize(s: string): string
  {
    ReplaceChar(ReplaceChar(s, '"', "\\\""), '\'', "\\'")
  }

  /** A path as it is written on the command line: normalized, in double quotes. */
  function Quote(s: string): string
  {
    "\"" + Normalize(s) + "\""
  }

  function EscapeChar(ch: char): string
  {
    if ch == '"' then "\\\"" else if ch == '\'' then "\\'" else [ch]
  }

  /** The reference reading of `_normalize`: each character escaped on its own. */
  function EscapeAll(s: string): string
  {
    if s == [] then [] else EscapeChar(s[0]) + EscapeAll(s[1..])
  }

  /** Drops the backslash of every escaped quote. */
  function Unescape(s: string): string
  {
    if s == [] then []
    else if |s| >= 2 && s[0] == '\\' && (s[1] == '"' || s[1] == '\'') then [s[1]] + Unescape(s[2..])
    else [s[0]] + Unescape(s[1..])
  }

  /** Reads a quoted path back. */
  function Unquote(s: string): Option<string>
  {
    if |s| >= 2 && s[0] == '"' && s[|s| - 1] == '"' then Some(Unescape(s[1..|s| - 1])) else None
  }

  lemma {:induction false} ReplaceCharConcat(a: string, b: string, c: char, r: string)
    ensures ReplaceChar(a + b, c, r) == ReplaceChar(a, c, r) + ReplaceChar(b, c, r)
  {
    if a == [] {
      assert a + b == b;
    } else {
      assert (a + b)[0] == a[0];
      assert (a + b)[1..] == a[1..] + b;
      ReplaceCharConcat(a[1..], b, c, r);
    }
  }

  /** The two replacements of `_normalize` escape each character on its own:
      the backslashes the first one inserts are not touched by the second. */
  lemma {:induction false} NormalizeEscapesEach(s: string)
    ensures Normalize(s) == EscapeAll(s)
  {
    if s != [] {
      var first := if s[0] == '"' then "\\\"" else [s[0]];
      var rest := ReplaceChar(s[1..], '"', "\\\"");
      assert ReplaceChar(s, '"', "\\\"") == first + rest;
      ReplaceCharConcat(first, rest, '\'', "\\'");
      NormalizeEscapesEach(s[1..]);
      if s[0] == '"' {
        assert ReplaceChar(first, '\'', "\\'") == "\\\"" by {
          assert first[1..][1..] == [];
        }
      } else {
        assert first[1..] == [];
      }
    }
  }

  lemma {:induction false} EscapeAllHead(s: string)
    requires s != []
    ensures EscapeAll(s) != [] && EscapeAll(s)[0] != '"' && EscapeAll(s)[0] != '\''
  {
  }

  lemma {:induction false} UnescapeEscapeAll(s: string)
    ensures Unescape(EscapeAll(s)) == s
  {
    if s != [] {
      var e := EscapeAll(s);
      var rest := EscapeAll(s[1..]);
      assert e == EscapeChar(s[0]) + rest;
      UnescapeEscapeAll(s[1..]);
      if s[0] == '"' || s[0] == '\'' {
        assert e[2..] == rest;
      } else {
        assert e[1..] == rest;
        if s[0] == '\\' && |e| >= 2 {
          EscapeAllHead(s[1..]);
          assert e[1] == rest[0];
        }
      }
      assert [s[0]] + s[1..] == s;
    }
  }

  /** `_normalize` loses nothing: undoing the escapes gives the path back, so
      the quoted form of a path reads back to it. */
  lemma QuoteRoundTrip(s: string)
    ensures Unescape(Normalize(s)) == s
    ensures Unquote(Quote(s)) == Some(s)
  {
    NormalizeEscapesEach(s);
    UnescapeEscapeAll(s);
    var q := Quote(s);
    assert q[1..|q| - 1] == Normalize(s);
  }

  /** Every quote character in `n` has a backslash just before it. */
  predicate QuotesEscaped(n: string)
  {
    forall i :: 0 <= i < |n| && (n[i] == '"' || n[i] == '\'') ==> i > 0 && n[i - 1] == '\\'
  }

  lemma EscapeCharEscaped(ch: char)
    ensures QuotesEscaped(EscapeChar(ch))
  {
  }

  lemma QuotesEscapedConcat(a: string, b: string)
    requires QuotesEscaped(a) && QuotesEscaped(b)
    requires b != [] ==> b[0] != '"' && b[0] != '\''
    ensures QuotesEscaped(a + b)
  {
    var n := a + b;
    forall i | 0 <= i < |n| && (n[i] == '"' || n[i] == '\'')
      ensures i > 0 && n[i - 1] == '\\'
    {
      if i >= |a| {
        assert n[i] == b[i - |a|];
        assert n[i - 1] == b[i - |a| - 1];
      } else {
        assert n[i] == a[i];
      }
    }
  }

  /** Inside a quoted path every quote character is preceded by a backslash. */
  lemma {:induction false} EveryQuoteEscaped(s: string)
    ensures QuotesEscaped(Normalize(s))
  {
    NormalizeEscapesEach(s);
    EscapeAllEscaped(s);
  }

  lemma {:induction false} EscapeAllEscaped(s: string)
    ensures QuotesEscaped(EscapeAll(s))
  {
    if s != [] {
      EscapeAllEscaped(s[1..]);
      EscapeCharEscaped(s[0]);
      if s[1..] != [] {
        EscapeAllHead(s[1..]);
      }
      QuotesEscapedConcat(EscapeChar(s[0]), EscapeAll(s[1..]));
    }
  }

  lemma NoQuotesUnchanged(s: string, c: char, r: string)
    requires c !in s
    ensures ReplaceChar(s, c, r) == s
  {
  }

  /** A path without quote characters is written as it is, in double quotes. */
  lemma QuotePlain(s: string)
    requires '"' !in s && '\'' !in s
    ensures Quote(s) == "\"" + s + "\""
  {
    NoQuotesUnchanged(s, '"', "\\\"");
    NoQuotesUnchanged(s, '\'', "\\'");
  }

  // ---------------------------------------------------------------------
  // The argument list
  // ---------------------------------------------------------------------

  /** `str()` of an optional time: `None` when absent. */
  function OptTimeStr(t: Option<Time>): string
  {
    if t.Some? then TimeStr(t.value) else "None"
  }

  function LogLevelArgs(c: Cleaned): seq<string>
  {
    if c.loglevel != "" then ["-loglevel", c.loglevel] else []
  }

  /** Reads `duration` whether or not it is set. */
  function DurationBeforeInputArgs(c: Cleaned): seq<string>
  {
    if c.addDurationBeforeInput then ["-t", OptTimeStr(c.duration)] else []
  }

  function ItsoffsetArgs(c: Cleaned): seq<string>
  {
    if c.itsoffset.Some? then ["-itsoffset", TimeStr(c.itsoffset.value)] else []
  }

  function BeforeInputArgs(c: Cleaned): seq<string>
  {
    LogLevelArgs(c) + DurationBeforeInputArgs(c) + ItsoffsetArgs(c)
  }

  /** The generated strings of the codecs whose `before_input` is `before`, in order. */
  function CodecArgs(codecs: seq<Codec>, before: bool): (r: seq<string>)
    ensures |r| <= |codecs|
  {
    if codecs == [] then []
    else
      var last := codecs[|codecs| - 1];
      CodecArgs(codecs[..|codecs| - 1], before) + (if last.beforeInput == before then [CodecString(last)] else [])
  }

  function FilterString(f: Filter): string
  {
    Join(" ", FilterTokens(f))
  }

  function FilterArgs(filters: seq<Filter>): (r: seq<string>)
    ensures |r| == |filters|
  {
    if filters == [] then [] else FilterArgs(filters[..|filters| - 1]) + [FilterString(filters[|filters| - 1])]
  }

  function InputArgs(c: Cleaned): seq<string>
  {
    ["-i", Quote(c.input)]
  }

  function OverwriteArgs(c: Cleaned): seq<string>
  {
    match c.overwrite
    case None => []
    case Some(ow) => if ow then ["-y"] else ["-n"]
  }

  function DurationArgs(c: Cleaned): seq<string>
  {
    if c.duration.Some? then ["-t", TimeStr(c.duration.value)] else []
  }

  function FileSizeLimitArgs(c: Cleaned): seq<string>
  {
    if IntTruthy(c.fileSizeLimit) then ["-fs", IntStr(c.fileSizeLimit.value)] else []
  }

  function ToPositionArgs(c: Cleaned): seq<string>
  {
    if c.toPosition.Some? then ["-to", TimeStr(c.toPosition.value)] else []
  }

  function SsPositionArgs(c: Cleaned): seq<string>
  {
    if c.ssPosition.Some? then ["-ss", TimeStr(c.ssPosition.value)] else []
  }

  function SseofPositionArgs(c: Cleaned): seq<string>
  {
    if c.sseofPosition.Some? then ["-sseof", TimeStr(c.sseofPosition.value)] else []
  }

  function TimestampArgs(c: Cleaned): seq<string>
  {
    if c.timestampNow then ["-timestamp", "now"]
    else if c.timestamp.Some? then ["-timestamp", DateTimeStr(c.timestamp.value)]
    else []
  }

  function VnArgs(c: Cleaned): seq<string>
  {
    if c.vn then ["-vn"] else []
  }

  function AspectArgs(c: Cleaned): seq<string>
  {
    if c.aspect.Some? && DecimalTruthy(c.aspect.value) then ["-aspect", DecimalStr(c.aspect.value)] else []
  }

  function OverwriteAndLimitArgs(c: Cleaned): seq<string>
  {
    OverwriteArgs(c) + DurationArgs(c) + FileSizeLimitArgs(c) + ToPositionArgs(c)
  }

  function PositionArgs(c: Cleaned): seq<string>
  {
    SsPositionArgs(c) + SseofPositionArgs(c) + TimestampArgs(c)
  }

  function VideoArgs(c: Cleaned): seq<string>
  {
    VnArgs(c) + AspectArgs(c)
  }

  function AfterInputArgs(c: Cleaned): seq<string>
  {
    OverwriteAndLimitArgs(c) + PositionArgs(c) + VideoArgs(c)
  }

  function OutputArgs(c: Cleaned): seq<string>
  {
    [Quote(c.output)]
  }

  /** The whole argument list of a command whose stream loop is unset or 0. */
  function CommandArgs(path: string, c: Cleaned, codecs: seq<Codec>, filters: seq<Filter>): seq<string>
  {
    [path] + BeforeInputArgs(c) + FromCodecsArgs(c, codecs, filters)
  }

  /** Everything from the codecs that go before the input to the output. */
  function FromCodecsArgs(c: Cleaned, codecs: seq<Codec>, filters: seq<Filter>): seq<string>
  {
    InputPartArgs(c, codecs) + OutputPartArgs(c, codecs, filters)
  }

  /** The codecs placed before the input, the input, and the options after it. */
  function InputPartArgs(c: Cleaned, codecs: seq<Codec>): seq<string>
  {
    CodecArgs(codecs, true) + InputArgs(c) + AfterInputArgs(c)
  }

  /** The remaining codecs, the filters, and the output. */
  function OutputPartArgs(c: Cleaned, codecs: seq<Codec>, filters: seq<Filter>): seq<string>
  {
    CodecArgs(codecs, false) + FilterArgs(filters) + OutputArgs(c)
  }

  /** Three appends in a row make one concatenation. */
  lemma ConcatThree(a0: seq<string>, a1: seq<string>, a2: seq<string>, a3: seq<string>,
                    x1: seq<string>, x2: seq<string>, x3: seq<string>)
    requires a1 == a0 + x1 && a2 == a1 + x2 && a3 == a2 + x3
    ensures a3 == a0 + (x1 + x2 + x3)
  {
  }

  /** Four appends in a row make one concatenation. */
  lemma ConcatFour(a0: seq<string>, a1: seq<string>, a2: seq<string>, a3: seq<string>, a4: seq<string>,
                   x1: seq<string>, x2: seq<string>, x3: seq<string>, x4: seq<string>)
    requires a1 == a0 + x1 && a2 == a1 + x2 && a3 == a2 + x3 && a4 == a3 + x4
    ensures a4 == a0 + (x1 + x2 + x3 + x4)
  {
  }

  /** The list `generate` leaves in `args` and what it returns or raises. */
  datatype Generated = Generated(args: seq<string>, result: Result<Output, Error>)

  /** `Command.generate(as_str)`. Validation runs after the path is in `args`.
      A truthy stream loop appends `-stream_loop` and then reads an attribute
      the form does not have (declared fields are not attributes of a form). */
  function GenerateSpec(path: string, d: CommandData, codecs: seq<Codec>, filters: seq<Filter>, asStr: bool): Generated
  {
    if !CommandValid(d) then Generated([path], Err(ValueError(CommandViolations(d))))
    else GenerateCleaned(path, Clean(d), codecs, filters, asStr)
  }

  /** `generate` from the point where validation has succeeded. */
  function GenerateCleaned(path: string, c: Cleaned, codecs: seq<Codec>, filters: seq<Filter>, asStr: bool): Generated
  {
    if IntTruthy(c.streamLoop) then
      Generated([path] + BeforeInputArgs(c) + ["-stream_loop"], Err(AttributeError("stream_loop")))
    else
      var all := CommandArgs(path, c, codecs, filters);
      Generated(all, Ok(Render(asStr, all)))
  }

  lemma CodecArgsStep(codecs: seq<Codec>, i: nat, before: bool)
    requires i < |codecs|
    ensures CodecArgs(codecs[..i + 1], before)
         == CodecArgs(codecs[..i], before) + (if codecs[i].beforeInput == before then [CodecString(codecs[i])] else [])
  {
    assert codecs[..i + 1][..i] == codecs[..i];
  }

  lemma FilterArgsStep(filters: seq<Filter>, i: nat)
    requires i < |filters|
    ensures FilterArgs(filters[..i + 1]) == FilterArgs(filters[..i]) + [FilterString(filters[i])]
  {
    assert filters[..i + 1][..i] == filters[..i];
  }

  /** A valid codec generates its two tokens joined by a space. */
  lemma CodecGenerates(c: Codec)
    requires CodecValid(c)
    ensures GenerateCodec(c, true) == Ok(Joined(CodecString(c)))
  {
  }

  /** A valid filter generates its two tokens joined by a space. */
  lemma FilterGenerates(f: Filter)
    requires FilterValid(f)
    ensures GenerateFilter(f, true) == Ok(Joined(FilterString(f)))
  {
  }

  // ---------------------------------------------------------------------
  // The command object
  // ---------------------------------------------------------------------

  class Command {
    /** `FFMPEG_PATH`, fixed when the package is loaded. */
    const path: string
    const data: CommandData
    var args: seq<string>
    var codecs: seq<Codec>
    var filters: seq<Filter>

    /** Every attached codec and filter passed its validation. */
    predicate Valid()
      reads this`codecs, this`filters
    {
      (forall i :: 0 <= i < |codecs| ==> CodecValid(codecs[i]))
      && (forall i :: 0 <= i < |filters| ==> FilterValid(filters[i]))
    }

    constructor(path: string, data: CommandData)
      ensures this.path == path && this.data == data
      ensures args == [] && codecs == [] && filters == []
      ensures Valid()
    {
      this.path := path;
      this.data := data;
      args := [];
      codecs := [];
      filters := [];
    }

    /** `validate()`: the cleaned data, or the `ValueError` of the failed checks. */
    method Validate() returns (r: Result<Cleaned, Error>)
      ensures r.Ok? <==> CommandValid(data)
      ensures r.Ok? ==> r.value == Clean(data)
      ensures r.Err? ==> r.error == ValueError(CommandViolations(data))
    {
      if CommandViolations(data) == [] {
        r := Ok(Clean(data));
      } else {
        r := Err(ValueError(CommandViolations(data)));
      }
    }

    /** `add_codec`: validates the codec, then attaches it. */
    method AddCodec(codec: Codec) returns (r: Result<Command, Error>)
      requires Valid()
      modifies this`codecs
      ensures Valid()
      ensures r.Ok? <==> CodecValid(codec)
      ensures r.Ok? ==> r.value == this && codecs == old(codecs) + [codec]
      ensures r.Err? ==> r.error == FfmpegUtils.Validate(codec, CodecFullClean(codec)).error && codecs == old(codecs)
    {
      match FfmpegUtils.Validate(codec, CodecFullClean(codec))
      case Err(e) =>
        r := Err(e);
      case Ok(_) =>
        codecs := codecs + [codec];
        r := Ok(this);
    }

    /** `add_filter`: validates the filter, then attaches it. */
    method AddFilter(f: Filter) returns (r: Result<Command, Error>)
      requires Valid()
      modifies this`filters
      ensures Valid()
      ensures r.Ok? <==> FilterValid(f)
      ensures r.Ok? ==> r.value == this && filters == old(filters) + [f]
      ensures r.Err? ==> r.error == ValueError(FilterViolations(f)) && filters == old(filters)
    {
      var checked := GenerateFilter(f, true);
      if checked.Ok? {
        filters := filters + [f];
        r := Ok(this);
      } else {
        r := Err(checked.error);
      }
    }

    method Append(token: string)
      modifies this`args
      ensures args == old(args) + [token]
    {
      args := args + [token];
    }

    method AddLogLevel(c: Cleaned)
      modifies this`args
      ensures args == old(args) + ["-loglevel", c.loglevel]
    {
      Append("-loglevel");
      Append(c.loglevel);
    }

    method AddDuration(c: Cleaned)
      modifies this`args
      ensures args == old(args) + ["-t", OptTimeStr(c.duration)]
    {
      Append("-t");
      Append(OptTimeStr(c.duration));
    }

    method AddItsoffset(c: Cleaned)
      requires c.itsoffset.Some?
      modifies this`args
      ensures args == old(args) + ItsoffsetArgs(c)
    {
      Append("-itsoffset");
      Append(TimeStr(c.itsoffset.value));
    }

    method AddInputFile(c: Cleaned)
      modifies this`args
      ensures args == old(args) + InputArgs(c)
    {
      Append("-i");
      Append("\"" + Normalize(c.input) + "\"");
    }

    method AddOverwriteOrNotExistingFiles(c: Cleaned)
      modifies this`args
      ensures args == old(args) + OverwriteArgs(c)
    {
      match c.overwrite
      case None =>
      case Some(ow) =>
        if ow {
          Append("-y");
        } else {
          Append("-n");
        }
    }

    method AddFileSizeLimit(c: Cleaned)
      requires IntTruthy(c.fileSizeLimit)
      modifies this`args
      ensures args == old(args) + FileSizeLimitArgs(c)
    {
      Append("-fs");
      Append(IntStr(c.fileSizeLimit.value));
    }

    method AddToPosition(c: Cleaned)
      requires c.toPosition.Some?
      modifies this`args
      ensures args == old(args) + ToPositionArgs(c)
    {
      Append("-to");
      Append(TimeStr(c.toPosition.value));
    }

    method AddSsPosition(c: Cleaned)
      requires c.ssPosition.Some?
      modifies this`args
      ensures args == old(args) + SsPositionArgs(c)
    {
      Append("-ss");
      Append(TimeStr(c.ssPosition.value));
    }

    method AddSseofPosition(c: Cleaned)
      requires c.sseofPosition.Some?
      modifies this`args
      ensures args == old(args) + SseofPositionArgs(c)
    {
      Append("-sseof");
      Append(TimeStr(c.sseofPosition.value));
    }

    method AddTimestamp(stamp: string)
      modifies this`args
      ensures args == old(args) + ["-timestamp", stamp]
    {
      Append("-timestamp");
      Append(stamp);
    }

    method AddVn()
      modifies this`args
      ensures args == old(args) + ["-vn"]
    {
      Append("-vn");
    }

    method AddAspect(c: Cleaned)
      requires c.aspect.Some? && DecimalTruthy(c.aspect.value)
      modifies this`args
      ensures args == old(args) + AspectArgs(c)
    {
      Append("-aspect");
      Append(DecimalStr(c.aspect.value));
    }

    method AddOutputFile(c: Cleaned)
      modifies this`args
      ensures args == old(args) + OutputArgs(c)
    {
      Append("\"" + Normalize(c.output) + "\"");
    }

    /** `self.args.append(codec.generate())` for one attached codec. */
    method AppendCodec(codec: Codec)
      requires CodecValid(codec)
      modifies this`args
      ensures args == old(args) + [CodecString(codec)]
    {
      CodecGenerates(codec);
      var generated := GenerateCodec(codec, true);
      Append(generated.value.text);
    }

    /** `self.args.append(flt.generate())` for one attached filter. */
    method AppendFilter(f: Filter)
      requires FilterValid(f)
      modifies this`args
      ensures args == old(args) + [FilterString(f)]
    {
      FilterGenerates(f);
      var generated := GenerateFilter(f, true);
      Append(generated.value.text);
    }

    /** `_add_codecs(before)`: the generated text of each codec whose
        `before_input` matches, in the order they were added. */
    method AddCodecs(before: bool)
      requires Valid()
      modifies this`args
      ensures args == old(args) + CodecArgs(codecs, before)
    {
      var i := 0;
      while i < |codecs|
        invariant 0 <= i <= |codecs|
        invariant args == old(args) + CodecArgs(codecs[..i], before)
      {
        var codec := codecs[i];
        CodecArgsStep(codecs, i, before);
        if before == codec.beforeInput {
          ConcatAssoc(old(args), CodecArgs(codecs[..i], before), [CodecString(codec)]);
          AppendCodec(codec);
        }
        i := i + 1;
      }
      assert codecs[..i] == codecs;
    }

    /** `_add_filters()`: the generated text of each filter, in order. */
    method AddFilters()
      requires Valid()
      modifies this`args
      ensures args == old(args) + FilterArgs(filters)
    {
      var i := 0;
      while i < |filters|
        invariant 0 <= i <= |filters|
        invariant args == old(args) + FilterArgs(filters[..i])
      {
        FilterArgsStep(filters, i);
        ConcatAssoc(old(args), FilterArgs(filters[..i]), [FilterString(filters[i])]);
        AppendFilter(filters[i]);
        i := i + 1;
      }
      assert filters[..i] == filters;
    }

    /** The options `generate` places before the input, up to the stream loop. */
    method AddBeforeInputOptions(c: Cleaned)
      modifies this`args
      ensures args == old(args) + BeforeInputArgs(c)
    {
      ghost var a0 := args;
      if c.loglevel != "" {
        AddLogLevel(c);
      }
      ghost var a1 := args;
      if c.addDurationBeforeInput {
        AddDuration(c);
      }
      ghost var a2 := args;
      if c.itsoffset.Some? {
        AddItsoffset(c);
      }
      ConcatThree(a0, a1, a2, args, LogLevelArgs(c), DurationBeforeInputArgs(c), ItsoffsetArgs(c));
    }

    /** The options `generate` places after the input, before the codecs. */
    method AddAfterInputOptions(c: Cleaned)
      modifies this`args
      ensures args == old(args) + AfterInputArgs(c)
    {
      ghost var a0 := args;
      AddOverwriteAndLimits(c);
      ghost var a1 := args;
      AddPositions(c);
      ghost var a2 := args;
      AddVideoOptions(c);
      ConcatThree(a0, a1, a2, args, OverwriteAndLimitArgs(c), PositionArgs(c), VideoArgs(c));
    }

    /** `-y`/`-n`, then `-t`, `-fs` and `-to` when set. */
    method AddOverwriteAndLimits(c: Cleaned)
      modifies this`args
      ensures args == old(args) + OverwriteAndLimitArgs(c)
    {
      ghost var a0 := args;
      AddOverwriteOrNotExistingFiles(c);
      ghost var a1 := args;
      if c.duration.Some? {
        AddDuration(c);
      }
      ghost var a2 := args;
      if IntTruthy(c.fileSizeLimit) {
        AddFileSizeLimit(c);
      }
      ghost var a3 := args;
      if c.toPosition.Some? {
        AddToPosition(c);
      }
      ConcatFour(a0, a1, a2, a3, args, OverwriteArgs(c), DurationArgs(c), FileSizeLimitArgs(c), ToPositionArgs(c));
    }

    /** `-ss`, `-sseof` and `-timestamp` (`now` winning over a given timestamp). */
    method AddPositions(c: Cleaned)
      modifies this`args
      ensures args == old(args) + PositionArgs(c)
    {
      ghost var a0 := args;
      if c.ssPosition.Some? {
        AddSsPosition(c);
      }
      ghost var a1 := args;
      if c.sseofPosition.Some? {
        AddSseofPosition(c);
      }
      ghost var a2 := args;
      if c.timestampNow {
        AddTimestamp("now");
      } else if c.timestamp.Some? {
        AddTimestamp(DateTimeStr(c.timestamp.value));
      }
      ConcatThree(a0, a1, a2, args, SsPositionArgs(c), SseofPositionArgs(c), TimestampArgs(c));
    }

    /** `-vn`, then `-aspect` when the ratio is nonzero. */
    method AddVideoOptions(c: Cleaned)
      modifies this`args
      ensures args == old(args) + VideoArgs(c)
    {
      if c.vn {
        AddVn();
      }
      if c.aspect.Some? && DecimalTruthy(c.aspect.value) {
        AddAspect(c);
      }
    }

    /** The part of `generate` after the stream loop check. */
    method AddFromCodecsToOutput(c: Cleaned)
      requires Valid()
      modifies this`args
      ensures args == old(args) + FromCodecsArgs(c, codecs, filters)
    {
      AddInputPart(c);
      AddOutputPart(c);
      ConcatAssoc(old(args), InputPartArgs(c, codecs), OutputPartArgs(c, codecs, filters));
    }

    method AddInputPart(c: Cleaned)
      requires Valid()
      modifies this`args
      ensures args == old(args) + InputPartArgs(c, codecs)
    {
      ghost var a0 := args;
      AddCodecs(true);
      ghost var a1 := args;
      AddInputFile(c);
      ghost var a2 := args;
      AddAfterInputOptions(c);
      ConcatThree(a0, a1, a2, args, CodecArgs(codecs, true), InputArgs(c), AfterInputArgs(c));
    }

    method AddOutputPart(c: Cleaned)
      requires Valid()
      modifies this`args
      ensures args == old(args) + OutputPartArgs(c, codecs, filters)
    {
      ghost var a0 := args;
      AddCodecs(false);
      ghost var a1 := args;
      AddFilters();
      ghost var a2 := args;
      AddOutputFile(c);
      ConcatThree(a0, a1, a2, args, CodecArgs(codecs, false), FilterArgs(filters), OutputArgs(c));
    }

    /** `generate(as_str)`: resets `args`, validates, and appends the pieces. */
    method Generate(asStr: bool) returns (r: Result<Output, Error>)
      requires Valid()
      modifies this`args
      ensures Generated(args, r) == GenerateSpec(path, data, codecs, filters, asStr)
    {
      args := [];
      Append(path);
      assert args == [path];
      var validated := Validate();
      if validated.Err? {
        return Err(validated.error);
      }
      r := GenerateFromCleaned(validated.value, asStr);
    }

    /** The part of `generate` after `validate()`. */
    method GenerateFromCleaned(c: Cleaned, asStr: bool) returns (r: Result<Output, Error>)
      requires Valid() && args == [path]
      modifies this`args
      ensures Generated(args, r) == GenerateCleaned(path, c, codecs, filters, asStr)
    {
      AddBeforeInputOptions(c);
      if IntTruthy(c.streamLoop) {
        Append("-stream_loop");
        return Err(AttributeError("stream_loop"));
      }
      ghost var before := args;
      AddFromCodecsToOutput(c);
      assert args == CommandArgs(path, c, codecs, filters) by {
        assert before == [path] + BeforeInputArgs(c);
      }
      r := Ok(Render(asStr, args));
    }
  }

  /** `generate()` starts each run from a fresh argument list, so calling it
      twice on an unchanged command gives the same outcome both times and
      leaves the same argument list. */
  method GenerateAgain(cmd: Command, asStr: bool) returns (first: Result<Output, Error>, second: Result<Output, Error>)
    requires cmd.Valid()
    modifies cmd`args
    ensures first == second
    ensures Generated(cmd.args, second) == GenerateSpec(cmd.path, cmd.data, cmd.codecs, cmd.filters, asStr)
  {
    first := cmd.Generate(asStr);
    ghost var firstArgs := cmd.args;
    second := cmd.Generate(asStr);
    assert Generated(firstArgs, first) == Generated(cmd.args, second);
  }
}
