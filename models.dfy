/** The older, model-based command builder (`BaseCommand` of `models.py`): a
    Django model whose `generate()` appends the options of one fixed slot
    order to a `command` list that the instance keeps from one call to the
    next. Nothing is validated, paths are written as they are, and times are
    written with `%H:%M:%S.%f`. */
module Models {
  import opened Wrappers
  import opened Text
  import opened Renderings
  import U = FfmpegUtils
  import F = FfmpegFilters
  import P = CommandProperties
  import G = FfmpegGenerator

  /** A value held by the `input` or `output` field, as `_get_io_path` tells
      them apart: text (a `str`, or a `CharField` or `URLField`, whose `str()`
      is `text`), or a value of any other type, named as `type()` prints it. */
  datatype IoValue = IoText(text: string) | IoOther(typeName: string)

  /** The exceptions `generate()` lets escape. */
  datatype ModelError =
    | ValueError(message: string)        // raised by `_get_io_path`
    | AttributeError(attribute: string)  // a missing time has no `strftime`

  const NotSuitableMessage := "Object type not suitable: "

  /** `_get_io_path`: the text of a text value; any other type raises. */
  function IoPath(obj: IoValue): Result<string, ModelError>
  {
    match obj
    case IoText(s) => Ok(s)
    case IoOther(t) => Err(ValueError(NotSuitableMessage + t))
  }

  /** The field values of a `BaseCommand` row. Nullable fields are `Option`s;
      `addSsPositionBeforeInput` is declared but never read. */
  datatype ModelFields = ModelFields(
    input: IoValue,
    output: IoValue,
    logLevel: Option<string>,
    overwrite: bool,
    streamLoop: Option<int>,
    duration: Option<Time>,
    addDurationBeforeInput: bool,
    toPosition: Option<Time>,
    ssPosition: Option<Time>,
    addSsPositionBeforeInput: bool,
    sseofPosition: Option<Time>,
    fileSizeLimit: Option<int>,
    itsoffset: Option<Time>,
    timestamp: Option<DateTime>,
    timestampNow: bool,
    vn: bool,
    aspect: Option<Decimal>)

  /** A row with only its paths set: every field at its declared default,
      so `overwrite` is on. */
  function DefaultFields(input: IoValue, output: IoValue): ModelFields
  {
    ModelFields(input, output, None, true, None, None, false, None, None, false, None, None, None, None,
                false, false, None)
  }

  // ---------------------------------------------------------------------
  // Renderings of the field values
  // ---------------------------------------------------------------------

  predicate LogLevelTruthy(l: Option<string>)
  {
    l.Some? && l.value != ""
  }

  /** `str()` of a nullable text, a datetime and a decimal: `None` renders as `None`. */
  function OptStr(l: Option<string>): string
  {
    if l.Some? then l.value else "None"
  }

  function OptDateTimeStr(t: Option<DateTime>): string
  {
    if t.Some? then DateTimeStr(t.value) else "None"
  }

  function OptDecimalStr(d: Option<Decimal>): string
  {
    if d.Some? then DecimalStr(d.value) else "None"
  }

  // ---------------------------------------------------------------------
  // The slots, in the order `generate()` visits them
  // ---------------------------------------------------------------------

  /** A time option: the flag, then the time as `%H:%M:%S.%f`. */
  function TimeArgs(flag: string, t: Option<Time>): seq<string>
  {
    if t.Some? then [flag, StrfTime(t.value)] else []
  }

  function LogLevelArgs(m: ModelFields): seq<string>
  {
    if LogLevelTruthy(m.logLevel) then ["-loglevel", m.logLevel.value] else []
  }

  function DurationBeforeInputArgs(m: ModelFields): seq<string>
  {
    if m.addDurationBeforeInput then TimeArgs("-t", m.duration) else []
  }

  function ItsoffsetArgs(m: ModelFields): seq<string>
  {
    TimeArgs("-itsoffset", m.itsoffset)
  }

  function StreamLoopArgs(m: ModelFields): seq<string>
  {
    if F.IntTruthy(m.streamLoop) then ["-stream_loop", IntStr(m.streamLoop.value)] else []
  }

  function BeforeInputArgs(m: ModelFields): seq<string>
  {
    LogLevelArgs(m) + DurationBeforeInputArgs(m) + ItsoffsetArgs(m) + StreamLoopArgs(m)
  }

  function OverwriteArgs(m: ModelFields): seq<string>
  {
    [if m.overwrite then "-y" else "-n"]
  }

  function FileSizeLimitArgs(m: ModelFields): seq<string>
  {
    if F.IntTruthy(m.fileSizeLimit) then ["-fs", IntStr(m.fileSizeLimit.value)] else []
  }

  function LimitArgs(m: ModelFields): seq<string>
  {
    OverwriteArgs(m) + TimeArgs("-t", m.duration) + FileSizeLimitArgs(m) + TimeArgs("-to", m.toPosition)
  }

  /** `-timestamp` when `timestamp_now` or a timestamp is set; `now` wins. */
  function TimestampArgs(m: ModelFields): seq<string>
  {
    if m.timestampNow || m.timestamp.Some? then
      ["-timestamp", if m.timestampNow then "now" else DateTimeStr(m.timestamp.value)]
    else []
  }

  function PositionArgs(m: ModelFields): seq<string>
  {
    TimeArgs("-ss", m.ssPosition) + TimeArgs("-sseof", m.sseofPosition) + TimestampArgs(m)
  }

  function AspectArgs(m: ModelFields): seq<string>
  {
    if m.aspect.Some? && DecimalTruthy(m.aspect.value) then ["-aspect", DecimalStr(m.aspect.value)] else []
  }

  function VideoArgs(m: ModelFields): seq<string>
  {
    (if m.vn then ["-vn"] else []) + AspectArgs(m)
  }

  function AfterInputArgs(m: ModelFields): seq<string>
  {
    LimitArgs(m) + PositionArgs(m) + VideoArgs(m)
  }

  /** `add_duration_before_input` without a duration: `_add_duration` appends
      `-t`, then fails on `None.strftime`. */
  predicate DurationMissing(m: ModelFields)
  {
    m.addDurationBeforeInput && m.duration.None?
  }

  /** What one `generate()` call appends to `command`, and the exception it
      ends with, if any. The tokens appended before an exception stay. */
  datatype Run = Run(tokens: seq<string>, failure: Option<ModelError>)

  function ModelRun(m: ModelFields): Run
  {
    if DurationMissing(m) then Run(LogLevelArgs(m) + ["-t"], Some(AttributeError("strftime")))
    else match IoPath(m.input)
      case Err(e) => Run(BeforeInputArgs(m) + ["-i"], Some(e))
      case Ok(input) =>
        var upToOutput := BeforeInputArgs(m) + ["-i", input] + AfterInputArgs(m);
        match IoPath(m.output)
        case Err(e) => Run(upToOutput, Some(e))
        case Ok(output) => Run(upToOutput + [output], None)
  }

  /** What `generate(as_string)` returns once `command` holds `command`: the
      whole list, joined with spaces when `as_string` is set. */
  function Outcome(run: Run, command: seq<string>, asString: bool): Result<U.Output, ModelError>
  {
    if run.failure.Some? then Err(run.failure.value) else Ok(U.Render(asString, command))
  }

  // ---------------------------------------------------------------------
  // The model instance
  // ---------------------------------------------------------------------

  class BaseCommand {
    var fields: ModelFields
    /** The argument list; seeded with the ffmpeg path and never cleared. */
    var command: seq<string>

    /** `__init__`: `command` starts as the ffmpeg path alone. */
    constructor(ffmpegPath: string, fields: ModelFields)
      ensures this.fields == fields && command == [ffmpegPath]
    {
      this.fields := fields;
      command := [ffmpegPath];
    }

    method Append(token: string)
      modifies this`command
      ensures command == old(command) + [token]
    {
      command := command + [token];
    }

    /** The shape shared by `_add_duration`, `_add_to_position`,
        `_add_ss_position`, `_add_sseof_position` and `_add_itsoffset`. */
    method AddTime(flag: string, t: Option<Time>) returns (failure: Option<ModelError>)
      modifies this`command
      ensures t.Some? ==> command == old(command) + [flag, StrfTime(t.value)] && failure.None?
      ensures t.None? ==> command == old(command) + [flag] && failure == Some(AttributeError("strftime"))
    {
      Append(flag);
      if t.None? {
        return Some(AttributeError("strftime"));
      }
      Append(StrfTime(t.value));
      failure := None;
    }

    method AddLogLevel()
      modifies this`command
      ensures command == old(command) + ["-loglevel", OptStr(fields.logLevel)]
    {
      Append("-loglevel");
      Append(OptStr(fields.logLevel));
    }

    method AddDuration() returns (failure: Option<ModelError>)
      modifies this`command
      ensures fields.duration.Some? ==> command == old(command) + TimeArgs("-t", fields.duration) && failure.None?
      ensures fields.duration.None? ==> command == old(command) + ["-t"] && failure == Some(AttributeError("strftime"))
    {
      failure := AddTime("-t", fields.duration);
    }

    method AddItsoffset()
      requires fields.itsoffset.Some?
      modifies this`command
      ensures command == old(command) + ItsoffsetArgs(fields)
    {
      var _ := AddTime("-itsoffset", fields.itsoffset);
    }

    method AddStreamLoop()
      modifies this`command
      ensures command == old(command) + ["-stream_loop", F.OptIntStr(fields.streamLoop)]
    {
      Append("-stream_loop");
      Append(F.OptIntStr(fields.streamLoop));
    }

    method AddInputFile() returns (failure: Option<ModelError>)
      modifies this`command
      ensures fields.input.IoText? ==> command == old(command) + ["-i", fields.input.text] && failure.None?
      ensures fields.input.IoOther? ==> command == old(command) + ["-i"] && failure == Some(IoPath(fields.input).error)
    {
      Append("-i");
      match IoPath(fields.input)
      case Err(e) =>
        failure := Some(e);
      case Ok(path) =>
        Append(path);
        failure := None;
    }

    method AddOverwriteOrNotExistingFiles()
      modifies this`command
      ensures command == old(command) + OverwriteArgs(fields)
    {
      if fields.overwrite {
        Append("-y");
      } else {
        Append("-n");
      }
    }

    method AddOutputFile() returns (failure: Option<ModelError>)
      modifies this`command
      ensures fields.output.IoText? ==> command == old(command) + [fields.output.text] && failure.None?
      ensures fields.output.IoOther? ==> command == old(command) && failure == Some(IoPath(fields.output).error)
    {
      match IoPath(fields.output)
      case Err(e) =>
        failure := Some(e);
      case Ok(path) =>
        Append(path);
        failure := None;
    }

    method AddFileSizeLimit()
      modifies this`command
      ensures command == old(command) + ["-fs", F.OptIntStr(fields.fileSizeLimit)]
    {
      Append("-fs");
      Append(F.OptIntStr(fields.fileSizeLimit));
    }

    method AddToPosition()
      requires fields.toPosition.Some?
      modifies this`command
      ensures command == old(command) + TimeArgs("-to", fields.toPosition)
    {
      var _ := AddTime("-to", fields.toPosition);
    }

    method AddSsPosition()
      requires fields.ssPosition.Some?
      modifies this`command
      ensures command == old(command) + TimeArgs("-ss", fields.ssPosition)
    {
      var _ := AddTime("-ss", fields.ssPosition);
    }

    method AddSseofPosition()
      requires fields.sseofPosition.Some?
      modifies this`command
      ensures command == old(command) + TimeArgs("-sseof", fields.sseofPosition)
    {
      var _ := AddTime("-sseof", fields.sseofPosition);
    }

    method AddTimestamp()
      modifies this`command
      ensures command == old(command) + ["-timestamp", if fields.timestampNow then "now" else OptDateTimeStr(fields.timestamp)]
    {
      Append("-timestamp");
      if fields.timestampNow {
        Append("now");
      } else {
        Append(OptDateTimeStr(fields.timestamp));
      }
    }

    method AddVn()
      modifies this`command
      ensures command == old(command) + ["-vn"]
    {
      Append("-vn");
    }

    method AddAspect()
      modifies this`command
      ensures command == old(command) + ["-aspect", OptDecimalStr(fields.aspect)]
    {
      Append("-aspect");
      Append(OptDecimalStr(fields.aspect));
    }

    /** The options before `-i`; a duration asked for before the input but
        missing ends the call after `-t`. */
    method AddBeforeInput() returns (failure: Option<ModelError>)
      modifies this`command
      ensures DurationMissing(fields) ==>
        command == old(command) + LogLevelArgs(fields) + ["-t"] && failure == Some(AttributeError("strftime"))
      ensures !DurationMissing(fields) ==> command == old(command) + BeforeInputArgs(fields) && failure.None?
    {
      ghost var a0 := command;
      if LogLevelTruthy(fields.logLevel) {
        AddLogLevel();
      }
      ghost var a1 := command;
      if fields.addDurationBeforeInput {
        failure := AddDuration();
        if failure.Some? {
          return;
        }
      }
      ghost var a2 := command;
      if fields.itsoffset.Some? {
        AddItsoffset();
      }
      ghost var a3 := command;
      if F.IntTruthy(fields.streamLoop) {
        AddStreamLoop();
      }
      G.ConcatFour(a0, a1, a2, a3, command,
                   LogLevelArgs(fields), DurationBeforeInputArgs(fields), ItsoffsetArgs(fields), StreamLoopArgs(fields));
      failure := None;
    }

    method AddLimit()
      modifies this`command
      ensures command == old(command) + LimitArgs(fields)
    {
      ghost var a0 := command;
      AddOverwriteOrNotExistingFiles();
      ghost var a1 := command;
      if fields.duration.Some? {
        var _ := AddDuration();
      }
      ghost var a2 := command;
      if F.IntTruthy(fields.fileSizeLimit) {
        AddFileSizeLimit();
      }
      ghost var a3 := command;
      if fields.toPosition.Some? {
        AddToPosition();
      }
      G.ConcatFour(a0, a1, a2, a3, command,
                   OverwriteArgs(fields), TimeArgs("-t", fields.duration), FileSizeLimitArgs(fields),
                   TimeArgs("-to", fields.toPosition));
    }

    method AddPosition()
      modifies this`command
      ensures command == old(command) + PositionArgs(fields)
    {
      ghost var a0 := command;
      if fields.ssPosition.Some? {
        AddSsPosition();
      }
      ghost var a1 := command;
      if fields.sseofPosition.Some? {
        AddSseofPosition();
      }
      ghost var a2 := command;
      if fields.timestampNow || fields.timestamp.Some? {
        AddTimestamp();
      }
      G.ConcatThree(a0, a1, a2, command,
                    TimeArgs("-ss", fields.ssPosition), TimeArgs("-sseof", fields.sseofPosition), TimestampArgs(fields));
    }

    method AddVideo()
      modifies this`command
      ensures command == old(command) + VideoArgs(fields)
    {
      if fields.vn {
        AddVn();
      }
      if fields.aspect.Some? && DecimalTruthy(fields.aspect.value) {
        AddAspect();
      }
    }

    method AddAfterInput()
      modifies this`command
      ensures command == old(command) + AfterInputArgs(fields)
    {
      ghost var a0 := command;
      AddLimit();
      ghost var a1 := command;
      AddPosition();
      ghost var a2 := command;
      AddVideo();
      G.ConcatThree(a0, a1, a2, command, LimitArgs(fields), PositionArgs(fields), VideoArgs(fields));
    }

    /** `generate(as_string)`: appends this call's tokens to whatever
        `command` already holds and returns the whole list. */
    method Generate(asString: bool) returns (r: Result<U.Output, ModelError>)
      modifies this`command
      ensures command == old(command) + ModelRun(fields).tokens
      ensures r == Outcome(ModelRun(fields), command, asString)
    {
      ghost var a0 := command;
      var failure := AddBeforeInput();
      if failure.Some? {
        return Err(failure.value);
      }
      ghost var a1 := command;
      failure := AddInputFile();
      if failure.Some? {
        return Err(failure.value);
      }
      ghost var a2 := command;
      AddAfterInput();
      ghost var a3 := command;
      failure := AddOutputFile();
      if failure.Some? {
        G.ConcatThree(a0, a1, a2, a3, BeforeInputArgs(fields), ["-i", fields.input.text], AfterInputArgs(fields));
        return Err(failure.value);
      }
      G.ConcatFour(a0, a1, a2, a3, command,
                   BeforeInputArgs(fields), ["-i", fields.input.text], AfterInputArgs(fields), [fields.output.text]);
      r := Ok(U.Render(asString, command));
    }
  }

  /** Two `generate()` calls on a fresh instance: the second returns the
      ffmpeg path followed by the first call's tokens twice, since `command`
      is never cleared. When the first call fails, the second still sees the
      tokens it left behind. */
  method GenerateTwice(ffmpegPath: string, fields: ModelFields) returns (first: Result<U.Output, ModelError>, second: Result<U.Output, ModelError>)
    ensures var run := ModelRun(fields);
            && (first.Ok? <==> run.failure.None?) && (second.Ok? <==> run.failure.None?)
            && (run.failure.None? ==> first == Ok(U.Listed([ffmpegPath] + run.tokens)))
            && (run.failure.None? ==> second == Ok(U.Listed([ffmpegPath] + run.tokens + run.tokens)))
  {
    var c := new BaseCommand(ffmpegPath, fields);
    first := c.Generate(false);
    second := c.Generate(false);
  }

  // ---------------------------------------------------------------------
  // What a run produces
  // ---------------------------------------------------------------------

  /** A call raises exactly when a duration is asked for before the input but
      missing, or a path is not text. `add_duration_before_input` without a
      duration leaves the log level and a dangling `-t`; an input of another
      type leaves everything up to `-i`; an output of another type leaves
      everything but the output. The error names the type. */
  lemma RunFailures(m: ModelFields)
    ensures ModelRun(m).failure.None? <==> !DurationMissing(m) && m.input.IoText? && m.output.IoText?
    ensures DurationMissing(m) ==>
      ModelRun(m) == Run(LogLevelArgs(m) + ["-t"], Some(AttributeError("strftime")))
    ensures !DurationMissing(m) && m.input.IoOther? ==>
      ModelRun(m) == Run(BeforeInputArgs(m) + ["-i"], Some(ValueError(NotSuitableMessage + m.input.typeName)))
    ensures !DurationMissing(m) && m.input.IoText? && m.output.IoOther? ==>
      && ModelRun(m).failure == Some(ValueError(NotSuitableMessage + m.output.typeName))
      && |ModelRun(m).tokens| == |BeforeInputArgs(m)| + 2 + |AfterInputArgs(m)|
  {
  }

  /** Paths are written as they are: `-i` follows the before-input options
      and is followed by the input text, and a run that completes ends with
      the output text. */
  lemma PathsVerbatim(m: ModelFields)
    requires !DurationMissing(m) && m.input.IoText?
    ensures P.PairAt(ModelRun(m).tokens, |BeforeInputArgs(m)|, "-i", m.input.text)
    ensures m.output.IoText? ==>
      |ModelRun(m).tokens| >= 1 && ModelRun(m).tokens[|ModelRun(m).tokens| - 1] == m.output.text
  {
    var ts := ModelRun(m).tokens;
    var k := |BeforeInputArgs(m)|;
    assert ts[k] == "-i" && ts[k + 1] == m.input.text;
  }

  /** Right after the input comes `-y` when `overwrite` is set and `-n`
      otherwise: one of the two is always there. */
  lemma OverwriteAlways(m: ModelFields)
    requires !DurationMissing(m) && m.input.IoText?
    ensures var ts := ModelRun(m).tokens;
            var k := |BeforeInputArgs(m)| + 2;
            k < |ts| && ts[k] == (if m.overwrite then "-y" else "-n")
  {
    var ts := ModelRun(m).tokens;
    var k := |BeforeInputArgs(m)| + 2;
    assert ts[k] == AfterInputArgs(m)[0] == OverwriteArgs(m)[0];
  }

  /** A row with nothing but its two paths generates `-i <input> -y <output>`. */
  lemma DefaultRun(input: string, output: string)
    ensures ModelRun(DefaultFields(IoText(input), IoText(output))) == Run(["-i", input, "-y", output], None)
  {
    var m := DefaultFields(IoText(input), IoText(output));
    assert BeforeInputArgs(m) == [];
    assert AfterInputArgs(m) == ["-y"];
  }

  /** With `add_duration_before_input` the duration is written twice: once
      before the input, after the log level, and again right after `-y`/`-n`. */
  lemma DurationTwice(m: ModelFields)
    requires m.addDurationBeforeInput && m.duration.Some? && m.input.IoText?
    ensures var ts := ModelRun(m).tokens;
            var d := StrfTime(m.duration.value);
            && P.PairAt(ts, |LogLevelArgs(m)|, "-t", d)
            && P.PairAt(ts, |BeforeInputArgs(m)| + 3, "-t", d)
  {
    var ts := ModelRun(m).tokens;
    var pair := ["-t", StrfTime(m.duration.value)];
    var b, i, a := BeforeInputArgs(m), ["-i", m.input.text], AfterInputArgs(m);
    var o := if m.output.IoText? then [m.output.text] else [];
    assert ts == b + i + a + o;
    assert DurationBeforeInputArgs(m) == pair && TimeArgs("-t", m.duration) == pair;
    PairTwice(ts, b, i, a, o, LogLevelArgs(m), ItsoffsetArgs(m), StreamLoopArgs(m),
              LimitArgs(m), PositionArgs(m), VideoArgs(m), OverwriteArgs(m), FileSizeLimitArgs(m),
              TimeArgs("-to", m.toPosition), pair);
  }

  lemma PairTwice(s: seq<string>, b: seq<string>, i: seq<string>, a: seq<string>, o: seq<string>,
                  w: seq<string>, x: seq<string>, y: seq<string>,
                  l: seq<string>, q: seq<string>, z: seq<string>, ov: seq<string>, f: seq<string>, t: seq<string>,
                  pair: seq<string>)
    requires s == b + i + a + o && b == w + pair + x + y && a == l + q + z && l == ov + pair + f + t
    requires |i| == 2 && |ov| == 1 && |pair| == 2
    ensures P.PairAt(s, |w|, pair[0], pair[1])
    ensures P.PairAt(s, |b| + 3, pair[0], pair[1])
  {
    assert s[|w|] == b[|w|] == pair[0] && s[|w| + 1] == b[|w| + 1] == pair[1];
    assert s[|b| + 3] == a[1] == l[1] == pair[0];
    assert s[|b| + 4] == a[2] == l[2] == pair[1];
  }

  // ---------------------------------------------------------------------
  // The order of the options
  // ---------------------------------------------------------------------

  function Flag(b: bool, flag: string): seq<string>
  {
    if b then [flag] else []
  }

  function BeforeInputFlags(m: ModelFields): seq<string>
  {
    Flag(LogLevelTruthy(m.logLevel), "-loglevel") + Flag(m.addDurationBeforeInput, "-t")
    + Flag(m.itsoffset.Some?, "-itsoffset") + Flag(F.IntTruthy(m.streamLoop), "-stream_loop")
  }

  function LimitFlags(m: ModelFields): seq<string>
  {
    OverwriteArgs(m) + Flag(m.duration.Some?, "-t") + Flag(F.IntTruthy(m.fileSizeLimit), "-fs")
    + Flag(m.toPosition.Some?, "-to")
  }

  function PositionFlags(m: ModelFields): seq<string>
  {
    Flag(m.ssPosition.Some?, "-ss") + Flag(m.sseofPosition.Some?, "-sseof")
    + Flag(m.timestampNow || m.timestamp.Some?, "-timestamp")
  }

  function VideoFlags(m: ModelFields): seq<string>
  {
    Flag(m.vn, "-vn") + Flag(m.aspect.Some? && DecimalTruthy(m.aspect.value), "-aspect")
  }

  /** The options of a completed run, in the order `generate()` writes them. */
  function ModelFlags(m: ModelFields): seq<string>
  {
    BeforeInputFlags(m) + ["-i"] + (LimitFlags(m) + PositionFlags(m) + VideoFlags(m))
  }

  /** No path or log level that looks like an option. */
  predicate PlainTexts(m: ModelFields)
  {
    && (m.input.IoText? ==> !P.IsFlag(m.input.text))
    && (m.output.IoText? ==> !P.IsFlag(m.output.text))
    && (LogLevelTruthy(m.logLevel) ==> !P.IsFlag(m.logLevel.value))
  }

  /** Whatever the values, the options of a completed run come in one fixed
      order: log level, `-t`, `-itsoffset`, `-stream_loop`, `-i`, `-y`/`-n`,
      `-t`, `-fs`, `-to`, `-ss`, `-sseof`, `-timestamp`, `-vn`, `-aspect`,
      each present exactly when its field asks for it. */
  lemma FlagOrder(m: ModelFields)
    requires ModelRun(m).failure.None? && PlainTexts(m)
    ensures P.Select(ModelRun(m).tokens, false) == ModelFlags(m)
  {
    RunFailures(m);
    var b, i, a, o := BeforeInputArgs(m), ["-i", m.input.text], AfterInputArgs(m), [m.output.text];
    assert ModelRun(m).tokens == b + i + a + o;
    BeforeInputSelect(m);
    AfterInputSelect(m);
    P.OptionWords();
    P.SelectPair("-i", m.input.text);
    P.SelectValue(m.output.text);
    RunSelectShape(b, i, a, o);
  }

  lemma RunSelectShape(b: seq<string>, i: seq<string>, a: seq<string>, o: seq<string>)
    ensures P.Select(b + i + a + o, false) == P.Select(b, false) + P.Select(i, false) + P.Select(a, false) + P.Select(o, false)
  {
    P.SelectConcat(b + i + a, o, false);
    P.SelectThree(b, i, a, false);
  }

  lemma StrfTimeNotFlag(t: Time)
    ensures !P.IsFlag(StrfTime(t))
  {
    var h := PadNat(t.hour, 2);
    assert StrfTime(t)[0] == h[0];
  }

  lemma TimeSelect(flag: string, t: Option<Time>)
    requires P.Kept(flag, false)
    ensures P.Select(TimeArgs(flag, t), false) == Flag(t.Some?, flag)
  {
    if t.Some? {
      StrfTimeNotFlag(t.value);
      P.SelectPair(flag, StrfTime(t.value));
    }
  }

  lemma IntSelect(flag: string, v: Option<int>)
    requires P.Kept(flag, false)
    ensures P.Select(if F.IntTruthy(v) then [flag, IntStr(v.value)] else [], false) == Flag(F.IntTruthy(v), flag)
  {
    if F.IntTruthy(v) {
      P.IntStrNotFlag(v.value);
      P.SelectPair(flag, IntStr(v.value));
    }
  }

  lemma FourSelect(a: seq<string>, b: seq<string>, c: seq<string>, d: seq<string>)
    ensures P.Select(a + b + c + d, false) == P.Select(a, false) + P.Select(b, false) + P.Select(c, false) + P.Select(d, false)
  {
    P.SelectConcat(a + b + c, d, false);
    P.SelectThree(a, b, c, false);
  }

  lemma BeforeInputSelect(m: ModelFields)
    requires !DurationMissing(m) && PlainTexts(m)
    ensures P.Select(BeforeInputArgs(m), false) == BeforeInputFlags(m)
  {
    P.OptionWords();
    FourSelect(LogLevelArgs(m), DurationBeforeInputArgs(m), ItsoffsetArgs(m), StreamLoopArgs(m));
    if LogLevelTruthy(m.logLevel) {
      P.SelectPair("-loglevel", m.logLevel.value);
    }
    if m.addDurationBeforeInput {
      TimeSelect("-t", m.duration);
    }
    TimeSelect("-itsoffset", m.itsoffset);
    assert P.Kept("-stream_loop", false);
    IntSelect("-stream_loop", m.streamLoop);
  }

  lemma LimitSelect(m: ModelFields)
    ensures P.Select(LimitArgs(m), false) == LimitFlags(m)
  {
    P.OptionWords();
    FourSelect(OverwriteArgs(m), TimeArgs("-t", m.duration), FileSizeLimitArgs(m), TimeArgs("-to", m.toPosition));
    P.SelectOption(OverwriteArgs(m)[0]);
    TimeSelect("-t", m.duration);
    IntSelect("-fs", m.fileSizeLimit);
    TimeSelect("-to", m.toPosition);
  }

  lemma PositionSelect(m: ModelFields)
    ensures P.Select(PositionArgs(m), false) == PositionFlags(m)
  {
    P.OptionWords();
    P.SelectThree(TimeArgs("-ss", m.ssPosition), TimeArgs("-sseof", m.sseofPosition), TimestampArgs(m), false);
    TimeSelect("-ss", m.ssPosition);
    TimeSelect("-sseof", m.sseofPosition);
    if m.timestampNow {
      P.SelectPair("-timestamp", "now");
    } else if m.timestamp.Some? {
      P.DateTimeStrNotFlag(m.timestamp.value);
      P.SelectPair("-timestamp", DateTimeStr(m.timestamp.value));
    }
  }

  lemma VideoSelect(m: ModelFields)
    ensures P.Select(VideoArgs(m), false) == VideoFlags(m)
  {
    P.OptionWords();
    P.SelectConcat(if m.vn then ["-vn"] else [], AspectArgs(m), false);
    if m.vn {
      P.SelectOption("-vn");
    }
    if m.aspect.Some? && DecimalTruthy(m.aspect.value) {
      P.DecimalStrNotFlag(m.aspect.value);
      P.SelectPair("-aspect", DecimalStr(m.aspect.value));
    }
  }

  lemma AfterInputSelect(m: ModelFields)
    ensures P.Select(AfterInputArgs(m), false) == LimitFlags(m) + PositionFlags(m) + VideoFlags(m)
  {
    P.SelectThree(LimitArgs(m), PositionArgs(m), VideoArgs(m), false);
    LimitSelect(m);
    PositionSelect(m);
    VideoSelect(m);
  }

  /** `-timestamp` is written when `timestamp_now` or a timestamp is set, and
      is followed by `now` whenever `timestamp_now` is set, the timestamp
      otherwise. */
  lemma TimestampRule(m: ModelFields)
    requires ModelRun(m).failure.None? && PlainTexts(m)
    ensures ("-timestamp" in P.Select(ModelRun(m).tokens, false)) <==> m.timestampNow || m.timestamp.Some?
    ensures m.timestampNow ==> P.Follows(ModelRun(m).tokens, "-timestamp", "now")
    ensures !m.timestampNow && m.timestamp.Some? ==>
      P.Follows(ModelRun(m).tokens, "-timestamp", DateTimeStr(m.timestamp.value))
  {
    FlagOrder(m);
    RunFailures(m);
    var ts := ModelRun(m).tokens;
    if m.timestampNow || m.timestamp.Some? {
      TimestampSplit(m, if m.timestampNow then "now" else DateTimeStr(m.timestamp.value));
    }
    TimestampInFlags(m);
  }

  lemma TimestampSplit(m: ModelFields, v: string)
    requires ModelRun(m).failure.None? && !DurationMissing(m) && m.input.IoText? && m.output.IoText?
    requires m.timestampNow || m.timestamp.Some?
    requires v == if m.timestampNow then "now" else DateTimeStr(m.timestamp.value)
    ensures P.Follows(ModelRun(m).tokens, "-timestamp", v)
  {
    var b, i, a, o := BeforeInputArgs(m), ["-i", m.input.text], AfterInputArgs(m), [m.output.text];
    assert ModelRun(m).tokens == b + i + a + o;
    assert TimestampArgs(m) == ["-timestamp", v];
    NestedFollows(ModelRun(m).tokens, b, i, a, o, LimitArgs(m), PositionArgs(m), VideoArgs(m),
                  TimeArgs("-ss", m.ssPosition), TimeArgs("-sseof", m.sseofPosition), "-timestamp", v);
  }

  lemma NestedFollows(s: seq<string>, b: seq<string>, i: seq<string>, a: seq<string>, o: seq<string>,
                      l: seq<string>, p: seq<string>, w: seq<string>, x: seq<string>, y: seq<string>,
                      flag: string, v: string)
    requires s == b + i + a + o && a == l + p + w && p == x + y + [flag, v]
    ensures P.Follows(s, flag, v)
  {
    assert s == (b + i + l + x + y) + [flag, v] + (w + o);
    P.FollowsAt(s, b + i + l + x + y, w + o, flag, v);
  }

  lemma TimestampInFlags(m: ModelFields)
    ensures ("-timestamp" in ModelFlags(m)) <==> m.timestampNow || m.timestamp.Some?
  {
    var rest := LimitFlags(m) + PositionFlags(m) + VideoFlags(m);
    assert "-timestamp" !in BeforeInputFlags(m) + ["-i"];
    assert "-timestamp" !in LimitFlags(m) && "-timestamp" !in VideoFlags(m);
    assert ("-timestamp" in PositionFlags(m)) <==> m.timestampNow || m.timestamp.Some?;
  }
}
