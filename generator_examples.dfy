/** Whole commands of the `ffmpeg` package's assembler, worked out from the
    form data to the generated text: a command with only its two paths, and
    one with a duration, an after-input video copy codec and an audio
    bitstream filter, generated before and after each attachment. */
module GeneratorExamples {
  import opened Wrappers
  import opened Text
  import opened Renderings
  import opened FfmpegUtils
  import opened FfmpegCodecs
  import opened FfmpegFilters
  import opened FfmpegGenerator

  /** The program path the examples assume for `FFMPEG_PATH`. */
  const BinaryPath := "/usr/bin/ffmpeg"

  /** `Command(input=..., output=..., duration=...)`: every other option unset. */
  function PathsAndDuration(input: string, output: string, duration: TimeInput): CommandData
  {
    CommandData(input, output, "", None, None, duration, false, NoTime, NoTime, false, NoTime,
                None, NoTime, NoDateTime, false, false, None)
  }

  /** `cleaned_data` of such a command. */
  function CleanedPaths(input: string, output: string, duration: Option<Time>): Cleaned
  {
    Cleaned(input, output, "", None, None, duration, false, None, None, false, None,
            None, None, None, false, false, None)
  }

  /** `Command(input="input.mp4", output="output.mp4")`. */
  const PlainData := PathsAndDuration("input.mp4", "output.mp4", NoTime)

  const TenMinutes := Time(0, 10, 0, 0)

  const CopyVideo := Codec({}, Some(Video), "", true, false)

  const AacToAsc := Bitstream(NewBitstreamChannelFilter(Some(Audio), [AacAdtstoasc]))

  const FullHd := Scale(NewScaleFilter(ScaleKwargs(Some(1920), Some(1080), false, false, None, None, false, Disable)))

  const InputToken := "\"" + "input.mp4" + "\""

  const OutputToken := "\"" + "output.mp4" + "\""

  lemma PathTokens()
    ensures Quote("input.mp4") == InputToken && Quote("output.mp4") == OutputToken
  {
    QuotePlain("input.mp4");
    QuotePlain("output.mp4");
  }

  lemma TenMinutesText()
    ensures TimeStr(TenMinutes) == "00:10:00"
  {
    assert PadNat(0, 2) == "00";
    assert PadNat(10, 2) == "10";
  }

  /** The duration text of the example cleans to ten minutes. */
  lemma TenMinutesCleans()
    ensures CleanTime(TimeText("00:10:00")) == Some(Some(TenMinutes))
  {
    TenMinutesText();
    TimeStrRoundTrip(TenMinutes);
  }

  /** A command with its two paths and a duration is valid and cleans to them. */
  lemma PathsAndDurationClean(duration: TimeInput, t: Option<Time>)
    requires CleanTime(duration) == Some(t)
    ensures var d := PathsAndDuration("input.mp4", "output.mp4", duration);
            CommandValid(d) && Clean(d) == CleanedPaths("input.mp4", "output.mp4", t)
  {
    var d := PathsAndDuration("input.mp4", "output.mp4", duration);
    assert TextViolations(d) == [];
    assert TimeViolations(d) == [];
    assert LimitViolations(d) == [];
  }

  lemma CopyVideoString()
    ensures CodecValid(CopyVideo) && CodecString(CopyVideo) == "-c:v copy"
  {
    CopyVideoExample({});
    CodecGenerates(CopyVideo);
  }

  lemma AacToAscString()
    ensures FilterValid(AacToAsc) && FilterString(AacToAsc) == "-bsf:a aac_adtstoasc"
  {
    BitstreamExample();
    FilterGenerates(AacToAsc);
  }

  lemma FullHdString()
    ensures FilterValid(FullHd) && FilterString(FullHd) == "-filter:v scale=1920:1080"
  {
    ScaleLiteralSizeExample();
    FilterGenerates(FullHd);
  }

  lemma FullHdValid()
    ensures FilterValid(FullHd)
  {
    FullHdString();
  }

  /** The argument list of a cleaned command with two paths, an optional
      duration, after-input codecs and filters. */
  lemma CleanedPathsArgs(input: string, output: string, t: Option<Time>, codecs: seq<Codec>, filters: seq<Filter>)
    requires forall i :: 0 <= i < |codecs| ==> !codecs[i].beforeInput
    ensures var c := CleanedPaths(input, output, t);
            CommandArgs(BinaryPath, c, codecs, filters)
            == [BinaryPath] + InputArgs(c) + DurationArgs(c) + CodecArgs(codecs, false) + FilterArgs(filters) + OutputArgs(c)
  {
    var c := CleanedPaths(input, output, t);
    NoCodecBefore(codecs);
    assert BeforeInputArgs(c) == [];
    assert AfterInputArgs(c) == DurationArgs(c);
    ArgsShape([BinaryPath], BeforeInputArgs(c), CodecArgs(codecs, true), InputArgs(c), AfterInputArgs(c),
              CodecArgs(codecs, false), FilterArgs(filters), OutputArgs(c));
  }

  lemma ArgsShape(p: seq<string>, b: seq<string>, ca: seq<string>, i: seq<string>, a: seq<string>,
                  cb: seq<string>, f: seq<string>, o: seq<string>)
    requires b == [] && ca == []
    ensures p + b + ((ca + i + a) + (cb + f + o)) == p + i + a + cb + f + o
  {
  }

  lemma {:induction false} NoCodecBefore(codecs: seq<Codec>)
    requires forall i :: 0 <= i < |codecs| ==> !codecs[i].beforeInput
    ensures CodecArgs(codecs, true) == []
  {
    if codecs != [] {
      NoCodecBefore(codecs[..|codecs| - 1]);
    }
  }

  /** A valid command whose stream loop is unset generates its argument
      list joined by spaces. */
  lemma GeneratesJoined(path: string, d: CommandData, codecs: seq<Codec>, filters: seq<Filter>, ts: seq<string>)
    requires CommandValid(d) && !IntTruthy(Clean(d).streamLoop)
    requires CommandArgs(path, Clean(d), codecs, filters) == ts
    ensures GenerateSpec(path, d, codecs, filters, true).result == Ok(Joined(Join(" ", ts)))
  {
  }

  /** `/usr/bin/ffmpeg -i "input.mp4" "output.mp4"`. */
  const PlainCommand := InputPrefix + " " + "\"output.mp4\""

  /** `Command(input="input.mp4", output="output.mp4").generate()`. */
  lemma PlainCommandExample()
    ensures GenerateSpec(BinaryPath, PlainData, [], [], true).result
         == Ok(Joined(PlainCommand))
  {
    DurationRest();
    FiltersWith([], [], "\"output.mp4\"");
  }

  /** The argument list of a command with two paths and a duration. */
  lemma DurationArgsOf(input: string, output: string, t: Time, codecs: seq<Codec>, filters: seq<Filter>,
                       qi: string, qo: string, ts: string)
    requires forall i :: 0 <= i < |codecs| ==> !codecs[i].beforeInput
    requires Quote(input) == qi && Quote(output) == qo && TimeStr(t) == ts
    ensures CommandArgs(BinaryPath, CleanedPaths(input, output, Some(t)), codecs, filters)
         == [BinaryPath, "-i", qi, "-t", ts] + (CodecArgs(codecs, false) + FilterArgs(filters)) + [qo]
  {
    var c := CleanedPaths(input, output, Some(t));
    CleanedPathsArgs(input, output, Some(t), codecs, filters);
    assert InputArgs(c) == ["-i", qi];
    assert DurationArgs(c) == ["-t", ts];
    assert OutputArgs(c) == [qo];
    DurationShape([BinaryPath], InputArgs(c), DurationArgs(c), CodecArgs(codecs, false), FilterArgs(filters), OutputArgs(c));
  }

  lemma DurationShape(p: seq<string>, i: seq<string>, d: seq<string>, cb: seq<string>, f: seq<string>, o: seq<string>)
    requires |p| == 1 && |i| == 2 && |d| == 2 && |o| == 1
    ensures p + i + d + cb + f + o == [p[0], i[0], i[1], d[0], d[1]] + (cb + f) + [o[0]]
  {
  }

  /** `Command(input="input.mp4", output="output.mp4", duration="00:10:00")`. */
  const DurationData := PathsAndDuration("input.mp4", "output.mp4", TimeText("00:10:00"))

  lemma DurationDataCleans()
    ensures CommandValid(DurationData) && Clean(DurationData) == CleanedPaths("input.mp4", "output.mp4", Some(TenMinutes))
  {
    TenMinutesCleans();
    PathsAndDurationClean(TimeText("00:10:00"), Some(TenMinutes));
  }

  /** The same duration written with a one-digit hour and a leading space
      cleans to the same ten minutes, so the command cleans as `DurationData` does. */
  lemma ShortDurationCleans()
    ensures CleanTime(TimeText(OneDigitHour)) == Some(Some(TenMinutes))
    ensures var d := PathsAndDuration("input.mp4", "output.mp4", TimeText(OneDigitHour));
            CommandValid(d) && Clean(d) == CleanedPaths("input.mp4", "output.mp4", Some(TenMinutes))
  {
    OneDigitHourRead();
    PathsAndDurationClean(TimeText(OneDigitHour), Some(TenMinutes));
  }

  /** What a command with two paths and a duration generates. */
  lemma DurationGenerates(d: CommandData, input: string, output: string, t: Time, codecs: seq<Codec>, filters: seq<Filter>,
                          qi: string, qo: string, ts: string, middle: seq<string>)
    requires CommandValid(d) && Clean(d) == CleanedPaths(input, output, Some(t))
    requires forall i :: 0 <= i < |codecs| ==> !codecs[i].beforeInput
    requires Quote(input) == qi && Quote(output) == qo && TimeStr(t) == ts
    requires CodecArgs(codecs, false) + FilterArgs(filters) == middle
    ensures GenerateSpec(BinaryPath, d, codecs, filters, true).result
         == Ok(Joined(Join(" ", [BinaryPath, "-i", qi, "-t", ts] + middle + [qo])))
  {
    DurationArgsOf(input, output, t, codecs, filters, qi, qo, ts);
    GeneratesJoined(BinaryPath, d, codecs, filters, [BinaryPath, "-i", qi, "-t", ts] + middle + [qo]);
  }

  /** The three generations of the duration example share these facts. */
  lemma DurationTokens(codecs: seq<Codec>, filters: seq<Filter>, middle: seq<string>)
    requires forall i :: 0 <= i < |codecs| ==> !codecs[i].beforeInput
    requires CodecArgs(codecs, false) + FilterArgs(filters) == middle
    ensures GenerateSpec(BinaryPath, DurationData, codecs, filters, true).result
         == Ok(Joined(Join(" ", [BinaryPath, "-i", InputToken, "-t", "00:10:00"] + middle + [OutputToken])))
  {
    DurationDataCleans();
    PathTokens();
    TenMinutesText();
    DurationGenerates(DurationData, "input.mp4", "output.mp4", TenMinutes, codecs, filters,
                      InputToken, OutputToken, "00:10:00", middle);
  }

  /** `/usr/bin/ffmpeg -i "input.mp4" -t 00:10:00`. */
  const DurationPrefix := InputPrefix + " " + "-t 00:10:00"

  lemma DurationPrefixText()
    ensures Join(" ", [BinaryPath, "-i", InputToken, "-t", "00:10:00"]) == DurationPrefix
  {
    assert [BinaryPath, "-i", InputToken, "-t", "00:10:00"] == [BinaryPath, "-i", InputToken] + ["-t", "00:10:00"];
    JoinAppend(" ", [BinaryPath, "-i", InputToken], ["-t", "00:10:00"]);
    InputPrefixText();
    JoinTwo(" ", "-t", "00:10:00");
  }

  /** The text after the five leading tokens of the duration example. */
  lemma DurationJoin(middle: seq<string>, last: string)
    ensures Join(" ", [BinaryPath, "-i", InputToken, "-t", "00:10:00"] + middle + [last])
         == DurationPrefix + " " + Join(" ", middle + [last])
  {
    var prefix := [BinaryPath, "-i", InputToken, "-t", "00:10:00"];
    assert prefix + middle + [last] == prefix + (middle + [last]);
    JoinAppend(" ", prefix, middle + [last]);
    DurationPrefixText();
  }

  /** The expected texts, split after the duration option (or after the
      input path) so that each piece is compared with its tokens alone. */
  const DurationCommand := DurationPrefix + " " + "\"output.mp4\""

  const CopyCommand := DurationPrefix + " " + "-c:v copy \"output.mp4\""

  const BitstreamCommand := DurationPrefix + " " + "-c:v copy -bsf:a aac_adtstoasc \"output.mp4\""

  /** `/usr/bin/ffmpeg -i "input.mp4"`. */
  const InputPrefix := "/usr/bin/ffmpeg -i \"input.mp4\""

  const ScaledCommand := InputPrefix + " " + "-filter:v scale=1920:1080 \"output.mp4\""

  /** A command with the example's paths and duration, after-input codecs
      and filters generates the duration prefix, then `rest`. */
  lemma DurationWith(codecs: seq<Codec>, filters: seq<Filter>, middle: seq<string>, rest: string)
    requires forall i :: 0 <= i < |codecs| ==> !codecs[i].beforeInput
    requires CodecArgs(codecs, false) + FilterArgs(filters) == middle
    requires Join(" ", middle + [OutputToken]) == rest
    ensures GenerateSpec(BinaryPath, DurationData, codecs, filters, true).result == Ok(Joined(DurationPrefix + " " + rest))
  {
    DurationTokens(codecs, filters, middle);
    DurationJoin(middle, OutputToken);
  }

  lemma OneCodecArgs(c: Codec)
    requires !c.beforeInput
    ensures CodecArgs([c], false) == [CodecString(c)]
  {
    assert [c][..0] == [];
  }

  lemma OneFilterArgs(f: Filter)
    ensures FilterArgs([f]) == [FilterString(f)]
  {
    assert [f][..0] == [];
  }

  lemma CopyRest()
    ensures Join(" ", ["-c:v copy"] + [OutputToken]) == "-c:v copy \"output.mp4\""
  {
    JoinTwo(" ", "-c:v copy", OutputToken);
  }

  lemma BitstreamRest()
    ensures Join(" ", ["-c:v copy", "-bsf:a aac_adtstoasc"] + [OutputToken]) == "-c:v copy -bsf:a aac_adtstoasc \"output.mp4\""
  {
    assert ["-c:v copy", "-bsf:a aac_adtstoasc"] + [OutputToken] == ["-c:v copy", "-bsf:a aac_adtstoasc", OutputToken];
    JoinThree(" ", "-c:v copy", "-bsf:a aac_adtstoasc", OutputToken);
  }

  lemma DurationRest()
    ensures Join(" ", [] + [OutputToken]) == "\"output.mp4\""
  {
    assert [] + [OutputToken] == [OutputToken];
  }

  /** `Command(input=..., output=..., duration="00:10:00").generate()`. */
  lemma DurationExample()
    ensures GenerateSpec(BinaryPath, DurationData, [], [], true).result == Ok(Joined(DurationCommand))
  {
    DurationRest();
    DurationWith([], [], [], "\"output.mp4\"");
  }

  /** The same command after `add_codec` of the video copy codec. */
  lemma CopyExample()
    ensures GenerateSpec(BinaryPath, DurationData, [CopyVideo], [], true).result == Ok(Joined(CopyCommand))
  {
    CopyVideoString();
    OneCodecArgs(CopyVideo);
    CopyRest();
    DurationWith([CopyVideo], [], ["-c:v copy"], "-c:v copy \"output.mp4\"");
  }

  /** The same command after `add_filter` of the audio bitstream filter too. */
  lemma BitstreamCommandExample()
    ensures GenerateSpec(BinaryPath, DurationData, [CopyVideo], [AacToAsc], true).result == Ok(Joined(BitstreamCommand))
  {
    CopyVideoString();
    AacToAscString();
    OneCodecArgs(CopyVideo);
    OneFilterArgs(AacToAsc);
    BitstreamRest();
    DurationWith([CopyVideo], [AacToAsc], ["-c:v copy", "-bsf:a aac_adtstoasc"], "-c:v copy -bsf:a aac_adtstoasc \"output.mp4\"");
  }

  lemma ScaledShape(p: seq<string>, i: seq<string>, d: seq<string>, cb: seq<string>, f: seq<string>, o: seq<string>)
    requires |p| == 1 && |i| == 2 && d == [] && cb == [] && |o| == 1
    ensures p + i + d + cb + f + o == [p[0], i[0], i[1]] + (f + [o[0]])
  {
  }

  lemma InputPrefixText()
    ensures Join(" ", [BinaryPath, "-i", InputToken]) == InputPrefix
  {
    JoinThree(" ", BinaryPath, "-i", InputToken);
  }

  /** A command with the example's two paths and only filters generates the
      input prefix, then `rest`. */
  lemma FiltersWith(filters: seq<Filter>, middle: seq<string>, rest: string)
    requires FilterArgs(filters) == middle
    requires Join(" ", middle + [OutputToken]) == rest
    ensures GenerateSpec(BinaryPath, PlainData, [], filters, true).result
         == Ok(Joined(InputPrefix + " " + rest))
  {
    var d := PlainData;
    var ts := [BinaryPath, "-i", InputToken] + (middle + [OutputToken]);
    FiltersCommandArgs(filters, middle);
    GeneratesJoined(BinaryPath, d, [], filters, ts);
    JoinAppend(" ", [BinaryPath, "-i", InputToken], middle + [OutputToken]);
    InputPrefixText();
  }

  lemma FiltersCommandArgs(filters: seq<Filter>, middle: seq<string>)
    requires FilterArgs(filters) == middle
    ensures var d := PlainData;
            && CommandValid(d) && Clean(d) == CleanedPaths("input.mp4", "output.mp4", None)
            && CommandArgs(BinaryPath, Clean(d), [], filters) == [BinaryPath, "-i", InputToken] + (middle + [OutputToken])
  {
    PathsAndDurationClean(NoTime, None);
    PathTokens();
    ScaledArgs("input.mp4", "output.mp4", InputToken, OutputToken, filters);
  }

  lemma ScaledArgs(input: string, output: string, qi: string, qo: string, filters: seq<Filter>)
    requires Quote(input) == qi && Quote(output) == qo
    ensures CommandArgs(BinaryPath, CleanedPaths(input, output, None), [], filters)
         == [BinaryPath, "-i", qi] + (FilterArgs(filters) + [qo])
  {
    var c := CleanedPaths(input, output, None);
    CleanedPathsArgs(input, output, None, [], filters);
    assert DurationArgs(c) == [];
    assert InputArgs(c) == ["-i", qi];
    assert OutputArgs(c) == [qo];
    ScaledShape([BinaryPath], InputArgs(c), DurationArgs(c), CodecArgs([], false), FilterArgs(filters), OutputArgs(c));
  }

  lemma ScaledRest()
    ensures Join(" ", ["-filter:v scale=1920:1080"] + [OutputToken]) == "-filter:v scale=1920:1080 \"output.mp4\""
  {
    JoinTwo(" ", "-filter:v scale=1920:1080", OutputToken);
  }

  /** The plain command after `add_filter` of the 1920x1080 scale filter. */
  lemma ScaledExample()
    ensures GenerateSpec(BinaryPath, PlainData, [], [FullHd], true).result
         == Ok(Joined(ScaledCommand))
  {
    FullHdString();
    OneFilterArgs(FullHd);
    ScaledRest();
    FiltersWith([FullHd], ["-filter:v scale=1920:1080"], "-filter:v scale=1920:1080 \"output.mp4\"");
  }

  /** `add_codec` of a codec known to be valid. */
  method AttachCodec(cmd: Command, c: Codec) returns (added: Result<Command, Error>)
    requires cmd.Valid() && CodecValid(c)
    modifies cmd`codecs
    ensures cmd.Valid() && cmd.codecs == old(cmd.codecs) + [c] && added == Ok(cmd)
  {
    added := cmd.AddCodec(c);
  }

  /** `add_filter` of a filter known to be valid. */
  method AttachFilter(cmd: Command, f: Filter) returns (added: Result<Command, Error>)
    requires cmd.Valid() && FilterValid(f)
    modifies cmd`filters
    ensures cmd.Valid() && cmd.filters == old(cmd.filters) + [f] && added == Ok(cmd)
  {
    added := cmd.AddFilter(f);
  }

  /** `generate()` of the duration example before any attachment. */
  method DurationStep(cmd: Command) returns (r: Result<Output, Error>)
    requires cmd.Valid() && cmd.path == BinaryPath && cmd.data == DurationData
    requires cmd.codecs == [] && cmd.filters == []
    modifies cmd`args
    ensures r == Ok(Joined(DurationCommand))
  {
    r := cmd.Generate(true);
    DurationExample();
  }

  /** `generate()` after the video copy codec is attached. */
  method CopyStep(cmd: Command) returns (r: Result<Output, Error>)
    requires cmd.Valid() && cmd.path == BinaryPath && cmd.data == DurationData
    requires cmd.codecs == [CopyVideo] && cmd.filters == []
    modifies cmd`args
    ensures r == Ok(Joined(CopyCommand))
  {
    r := cmd.Generate(true);
    CopyExample();
  }

  /** `generate()` after the audio bitstream filter is attached too. */
  method BitstreamStep(cmd: Command) returns (r: Result<Output, Error>)
    requires cmd.Valid() && cmd.path == BinaryPath && cmd.data == DurationData
    requires cmd.codecs == [CopyVideo] && cmd.filters == [AacToAsc]
    modifies cmd`args
    ensures r == Ok(Joined(BitstreamCommand))
  {
    r := cmd.Generate(true);
    BitstreamCommandExample();
  }

  /** The session of the command example: after each attachment the same
      command generates its text anew, each attachment succeeding. */
  method CommandSession() returns (plain: Result<Output, Error>, copied: Result<Output, Error>, filtered: Result<Output, Error>)
    ensures plain == Ok(Joined(DurationCommand))
    ensures copied == Ok(Joined(CopyCommand))
    ensures filtered == Ok(Joined(BitstreamCommand))
  {
    var cmd := new Command(BinaryPath, DurationData);
    plain := DurationStep(cmd);
    CopyVideoString();
    var added := AttachCodec(cmd, CopyVideo);
    copied := CopyStep(cmd);
    AacToAscString();
    added := AttachFilter(cmd, AacToAsc);
    filtered := BitstreamStep(cmd);
  }

  /** `generate()` of the scale-filter example before its filter. */
  method PlainStep(cmd: Command) returns (r: Result<Output, Error>)
    requires cmd.Valid() && cmd.path == BinaryPath && cmd.data == PlainData
    requires cmd.codecs == [] && cmd.filters == []
    modifies cmd`args
    ensures r == Ok(Joined(PlainCommand))
  {
    r := cmd.Generate(true);
    PlainCommandExample();
  }

  /** `generate()` after the 1920x1080 scale filter is attached. */
  method ScaledStep(cmd: Command) returns (r: Result<Output, Error>)
    requires cmd.Valid() && cmd.path == BinaryPath && cmd.data == PlainData
    requires cmd.codecs == [] && cmd.filters == [FullHd]
    modifies cmd`args
    ensures r == Ok(Joined(ScaledCommand))
  {
    r := cmd.Generate(true);
    ScaledExample();
  }

  /** The session of the scale-filter example: the plain command, then the
      same command with the 1920x1080 scale filter attached. */
  method ScaleFilterSession() returns (plain: Result<Output, Error>, scaled: Result<Output, Error>)
    ensures plain == Ok(Joined(PlainCommand))
    ensures scaled == Ok(Joined(ScaledCommand))
  {
    var cmd := new Command(BinaryPath, PlainData);
    plain := PlainStep(cmd);
    FullHdValid();
    var added := AttachFilter(cmd, FullHd);
    scaled := ScaledStep(cmd);
  }
}
