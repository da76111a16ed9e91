/** What the argument list of `Command.generate` looks like: which options it
    holds and in which order, where the input and the output sit, and where
    each attached codec and filter ends up. */
module CommandProperties {
  import opened Wrappers
  import opened Text
  import opened Renderings
  import opened FfmpegUtils
  import opened FfmpegCodecs
  import opened FfmpegFilters
  import opened FfmpegGenerator

  // ---------------------------------------------------------------------
  // Flags, options and directives
  // ---------------------------------------------------------------------

  /** A token ffmpeg reads as an option: a dash and a lower-case letter. */
  predicate IsFlag(t: string)
  {
    |t| >= 2 && t[0] == '-' && 'a' <= t[1] <= 'z'
  }

  /** A flag kept by `Select(_, directives)`: a directive is a codec or filter,
      whose flag and value travel in one token with a space between them;
      any other flag is a plain option. */
  predicate Kept(t: string, directives: bool)
  {
    IsFlag(t) && ((' ' in t) == directives)
  }

  /** The plain options (`directives == false`) or the directives of a list, in order. */
  function Select(s: seq<string>, directives: bool): (r: seq<string>)
    ensures |r| <= |s|
  {
    if s == [] then []
    else (if Kept(s[0], directives) then [s[0]] else []) + Select(s[1..], directives)
  }

  lemma {:induction false} SelectConcat(a: seq<string>, b: seq<string>, directives: bool)
    ensures Select(a + b, directives) == Select(a, directives) + Select(b, directives)
  {
    if a == [] {
      assert a + b == b;
    } else {
      assert (a + b)[1..] == a[1..] + b;
      SelectConcat(a[1..], b, directives);
      var h: seq<string> := if Kept(a[0], directives) then [a[0]] else [];
      assert Select(a + b, directives) == h + Select(a[1..] + b, directives);
      ConcatAssoc(h, Select(a[1..], directives), Select(b, directives));
    }
  }

  lemma SelectThree(a: seq<string>, b: seq<string>, c: seq<string>, directives: bool)
    ensures Select(a + b + c, directives) == Select(a, directives) + Select(b, directives) + Select(c, directives)
  {
    SelectConcat(a + b, c, directives);
    SelectConcat(a, b, directives);
  }

  /** A plain option occurs in a list as often as in its options. */
  lemma {:induction false} CountOption(s: seq<string>, x: string)
    requires Kept(x, false)
    ensures multiset(s)[x] == multiset(Select(s, false))[x]
  {
    if s != [] {
      assert s == [s[0]] + s[1..];
      CountOption(s[1..], x);
    }
  }

  /** A value token that is not a flag is dropped by both selections. */
  lemma SelectValue(v: string)
    requires !IsFlag(v)
    ensures Select([v], false) == [] && Select([v], true) == []
  {
  }

  lemma SelectOption(flag: string)
    requires Kept(flag, false)
    ensures Select([flag], false) == [flag] && Select([flag], true) == []
  {
  }

  lemma SelectPair(flag: string, v: string)
    requires Kept(flag, false) && !IsFlag(v)
    ensures Select([flag, v], false) == [flag] && Select([flag, v], true) == []
  {
    assert [flag, v] == [flag] + [v];
    SelectConcat([flag], [v], false);
    SelectConcat([flag], [v], true);
  }

  // ---------------------------------------------------------------------
  // Value tokens are never flags
  // ---------------------------------------------------------------------

  lemma DigitFirstNotFlag(s: string)
    requires |s| >= 1 && IsDigit(s[0])
    ensures !IsFlag(s)
  {
  }

  lemma TimeStrNotFlag(t: Time)
    ensures !IsFlag(TimeStr(t))
  {
    var h := PadNat(t.hour, 2);
    assert TimeStr(t)[0] == h[0];
  }

  lemma OptTimeStrNotFlag(t: Option<Time>)
    ensures !IsFlag(OptTimeStr(t))
  {
    if t.Some? {
      TimeStrNotFlag(t.value);
    }
  }

  lemma DateTimeStrNotFlag(dt: DateTime)
    ensures !IsFlag(DateTimeStr(dt))
  {
    var y := PadNat(dt.year, 4);
    assert DateTimeStr(dt)[0] == y[0];
  }

  /** A negative number starts with a minus sign and a digit. */
  lemma IntStrNotFlag(i: int)
    ensures !IsFlag(IntStr(i))
  {
  }

  lemma DecimalStrNotFlag(d: Decimal)
    ensures !IsFlag(DecimalStr(d))
  {
    DecimalStrShape(d);
  }

  lemma QuoteNotFlag(s: string)
    ensures !IsFlag(Quote(s))
  {
    assert Quote(s)[0] == '"';
  }

  /** Every log level value starts with a lower-case letter. */
  lemma LogLevelNotFlag(s: string)
    requires s in Values(LogLevelClass)
    ensures !IsFlag(s)
  {
    ChoicesFollowValues(LogLevelClass);
    var i :| 0 <= i < |Values(LogLevelClass)| && Values(LogLevelClass)[i] == s;
    LogLevelInitial(i);
  }

  lemma LogLevelInitial(i: nat)
    requires i < |LogLevelClass|
    ensures |LogLevelClass[i].value| >= 1 && 'a' <= LogLevelClass[i].value[0] <= 'z'
  {
    var initials := "qpfewivdt";
    assert LogLevelClass[i].value[0] == initials[i];
  }

  /** A flag, a space and a value make one directive token. */
  lemma DirectiveToken(flag: string, v: string)
    requires IsFlag(flag)
    ensures Kept(Join(" ", [flag, v]), true)
  {
    JoinTwo(" ", flag, v);
    var t := flag + " " + v;
    assert t[|flag|] == ' ';
    assert t[0] == flag[0] && t[1] == flag[1];
  }

  lemma CodecDirective(c: Codec)
    ensures Kept(CodecString(c), true)
  {
    var flag := CodecTokens(c)[0];
    assert flag[..2] == "-c" by {
      if c.stream.Some? {
        assert flag == "-c:" + c.stream.value.Value();
      }
    }
    assert CodecTokens(c) == [flag, CodecTokens(c)[1]];
    DirectiveToken(flag, CodecTokens(c)[1]);
  }

  lemma FilterDirective(f: Filter)
    ensures Kept(FilterString(f), true)
  {
    var ts := FilterTokens(f);
    match f
    case Bitstream(b) =>
      assert ts[0] == "-bsf:" + CleanedStream(b.stream);
      assert ts[0][..2] == "-b";
    case Scale(s) =>
      assert ts[0] == "-filter:" + CleanedStream(s.stream);
      assert ts[0][..2] == "-f";
    assert ts == [ts[0], ts[1]];
    DirectiveToken(ts[0], ts[1]);
  }

  // ---------------------------------------------------------------------
  // The options each slot emits
  // ---------------------------------------------------------------------

  /** The options before the input, in emission order. */
  function BeforeInputOptions(c: Cleaned): seq<string>
  {
    (if c.loglevel != "" then ["-loglevel"] else [])
    + (if c.addDurationBeforeInput then ["-t"] else [])
    + (if c.itsoffset.Some? then ["-itsoffset"] else [])
  }

  /** `-y`, `-n` or nothing. */
  function OverwriteOptions(c: Cleaned): seq<string>
  {
    match c.overwrite
    case None => []
    case Some(ow) => if ow then ["-y"] else ["-n"]
  }

  /** The duration, the size limit and the end position. */
  function LengthOptions(c: Cleaned): seq<string>
  {
    (if c.duration.Some? then ["-t"] else [])
    + (if IntTruthy(c.fileSizeLimit) then ["-fs"] else [])
    + (if c.toPosition.Some? then ["-to"] else [])
  }

  function LimitOptions(c: Cleaned): seq<string>
  {
    OverwriteOptions(c) + LengthOptions(c)
  }

  /** The start positions and the timestamp (either `now` or the given one). */
  function PositionOptions(c: Cleaned): seq<string>
  {
    (if c.ssPosition.Some? then ["-ss"] else [])
    + (if c.sseofPosition.Some? then ["-sseof"] else [])
    + (if c.timestampNow || c.timestamp.Some? then ["-timestamp"] else [])
  }

  function VideoOptions(c: Cleaned): seq<string>
  {
    (if c.vn then ["-vn"] else [])
    + (if c.aspect.Some? && DecimalTruthy(c.aspect.value) then ["-aspect"] else [])
  }

  /** Every plain option of a generated command, in the order `generate` walks
      its slots, each one only when its field is set. */
  function SlotOptions(c: Cleaned): seq<string>
  {
    BeforeInputOptions(c) + ["-i"] + (LimitOptions(c) + PositionOptions(c) + VideoOptions(c))
  }

  lemma OptionWords()
    ensures Kept("-loglevel", false) && Kept("-t", false) && Kept("-itsoffset", false)
    ensures Kept("-i", false) && Kept("-y", false) && Kept("-n", false)
    ensures Kept("-fs", false) && Kept("-to", false) && Kept("-ss", false)
    ensures Kept("-sseof", false) && Kept("-timestamp", false) && Kept("-vn", false)
    ensures Kept("-aspect", false)
  {
  }

  lemma BeforeInputSelect(c: Cleaned)
    requires LogLevelChoice(c.loglevel)
    ensures Select(BeforeInputArgs(c), false) == BeforeInputOptions(c)
    ensures Select(BeforeInputArgs(c), true) == []
  {
    OptionWords();
    SelectThree(LogLevelArgs(c), DurationBeforeInputArgs(c), ItsoffsetArgs(c), false);
    SelectThree(LogLevelArgs(c), DurationBeforeInputArgs(c), ItsoffsetArgs(c), true);
    if c.loglevel != "" {
      LogLevelNotFlag(c.loglevel);
      SelectPair("-loglevel", c.loglevel);
    }
    if c.addDurationBeforeInput {
      OptTimeStrNotFlag(c.duration);
      SelectPair("-t", OptTimeStr(c.duration));
    }
    if c.itsoffset.Some? {
      TimeStrNotFlag(c.itsoffset.value);
      SelectPair("-itsoffset", TimeStr(c.itsoffset.value));
    }
  }

  lemma OverwriteSelect(c: Cleaned)
    ensures Select(OverwriteArgs(c), false) == OverwriteOptions(c)
    ensures Select(OverwriteArgs(c), true) == []
  {
    OptionWords();
  }

  lemma LengthSelect(c: Cleaned)
    ensures Select(DurationArgs(c) + FileSizeLimitArgs(c) + ToPositionArgs(c), false) == LengthOptions(c)
    ensures Select(DurationArgs(c) + FileSizeLimitArgs(c) + ToPositionArgs(c), true) == []
  {
    OptionWords();
    SelectThree(DurationArgs(c), FileSizeLimitArgs(c), ToPositionArgs(c), false);
    SelectThree(DurationArgs(c), FileSizeLimitArgs(c), ToPositionArgs(c), true);
    if c.duration.Some? {
      TimeStrNotFlag(c.duration.value);
      SelectPair("-t", TimeStr(c.duration.value));
    }
    if IntTruthy(c.fileSizeLimit) {
      IntStrNotFlag(c.fileSizeLimit.value);
      SelectPair("-fs", IntStr(c.fileSizeLimit.value));
    }
    if c.toPosition.Some? {
      TimeStrNotFlag(c.toPosition.value);
      SelectPair("-to", TimeStr(c.toPosition.value));
    }
  }

  lemma LimitSelect(c: Cleaned)
    ensures Select(OverwriteAndLimitArgs(c), false) == LimitOptions(c)
    ensures Select(OverwriteAndLimitArgs(c), true) == []
  {
    var rest := DurationArgs(c) + FileSizeLimitArgs(c) + ToPositionArgs(c);
    assert OverwriteAndLimitArgs(c) == OverwriteArgs(c) + rest;
    OverwriteSelect(c);
    LengthSelect(c);
    SelectConcat(OverwriteArgs(c), rest, false);
    SelectConcat(OverwriteArgs(c), rest, true);
  }

  lemma PositionSelect(c: Cleaned)
    ensures Select(PositionArgs(c), false) == PositionOptions(c)
    ensures Select(PositionArgs(c), true) == []
  {
    OptionWords();
    SelectThree(SsPositionArgs(c), SseofPositionArgs(c), TimestampArgs(c), false);
    SelectThree(SsPositionArgs(c), SseofPositionArgs(c), TimestampArgs(c), true);
    if c.ssPosition.Some? {
      TimeStrNotFlag(c.ssPosition.value);
      SelectPair("-ss", TimeStr(c.ssPosition.value));
    }
    if c.sseofPosition.Some? {
      TimeStrNotFlag(c.sseofPosition.value);
      SelectPair("-sseof", TimeStr(c.sseofPosition.value));
    }
    if c.timestampNow {
      SelectPair("-timestamp", "now");
    } else if c.timestamp.Some? {
      DateTimeStrNotFlag(c.timestamp.value);
      SelectPair("-timestamp", DateTimeStr(c.timestamp.value));
    }
  }

  lemma VideoSelect(c: Cleaned)
    ensures Select(VideoArgs(c), false) == VideoOptions(c)
    ensures Select(VideoArgs(c), true) == []
  {
    OptionWords();
    SelectConcat(VnArgs(c), AspectArgs(c), false);
    SelectConcat(VnArgs(c), AspectArgs(c), true);
    if c.vn {
      SelectOption("-vn");
    }
    if c.aspect.Some? && DecimalTruthy(c.aspect.value) {
      DecimalStrNotFlag(c.aspect.value);
      SelectPair("-aspect", DecimalStr(c.aspect.value));
    }
  }

  lemma AfterInputSelect(c: Cleaned)
    ensures Select(AfterInputArgs(c), false) == LimitOptions(c) + PositionOptions(c) + VideoOptions(c)
    ensures Select(AfterInputArgs(c), true) == []
  {
    LimitSelect(c);
    PositionSelect(c);
    VideoSelect(c);
    SelectThree(OverwriteAndLimitArgs(c), PositionArgs(c), VideoArgs(c), false);
    SelectThree(OverwriteAndLimitArgs(c), PositionArgs(c), VideoArgs(c), true);
  }

  lemma {:induction false} CodecSelect(codecs: seq<Codec>, before: bool)
    ensures Select(CodecArgs(codecs, before), false) == []
    ensures Select(CodecArgs(codecs, before), true) == CodecArgs(codecs, before)
  {
    if codecs != [] {
      var last := codecs[|codecs| - 1];
      var tail: seq<string> := if last.beforeInput == before then [CodecString(last)] else [];
      CodecSelect(codecs[..|codecs| - 1], before);
      SelectConcat(CodecArgs(codecs[..|codecs| - 1], before), tail, false);
      SelectConcat(CodecArgs(codecs[..|codecs| - 1], before), tail, true);
      CodecDirective(last);
    }
  }

  lemma {:induction false} FilterSelect(filters: seq<Filter>)
    ensures Select(FilterArgs(filters), false) == []
    ensures Select(FilterArgs(filters), true) == FilterArgs(filters)
  {
    if filters != [] {
      var last := filters[|filters| - 1];
      FilterSelect(filters[..|filters| - 1]);
      SelectConcat(FilterArgs(filters[..|filters| - 1]), [FilterString(last)], false);
      SelectConcat(FilterArgs(filters[..|filters| - 1]), [FilterString(last)], true);
      FilterDirective(last);
    }
  }

  lemma InputSelect(c: Cleaned)
    ensures Select(InputArgs(c), false) == ["-i"] && Select(InputArgs(c), true) == []
  {
    OptionWords();
    QuoteNotFlag(c.input);
    SelectPair("-i", Quote(c.input));
  }

  lemma OutputSelect(c: Cleaned)
    ensures Select(OutputArgs(c), false) == [] && Select(OutputArgs(c), true) == []
  {
    QuoteNotFlag(c.output);
    SelectValue(Quote(c.output));
  }

  // ---------------------------------------------------------------------
  // The generated command
  // ---------------------------------------------------------------------

  /** `generate` succeeds exactly when the form is valid and the stream loop is
      unset or 0, and then `args` is the full command. On invalid data `args`
      holds only the program path; with a truthy stream loop it stops right
      after writing `-stream_loop`. */
  lemma GenerateOutcome(path: string, d: CommandData, codecs: seq<Codec>, filters: seq<Filter>, asStr: bool)
    ensures var g := GenerateSpec(path, d, codecs, filters, asStr);
      g.result.Ok? <==> CommandValid(d) && !IntTruthy(d.streamLoop)
    ensures var g := GenerateSpec(path, d, codecs, filters, asStr);
      !CommandValid(d) ==> g.args == [path] && g.result == Err(ValueError(CommandViolations(d)))
    ensures var g := GenerateSpec(path, d, codecs, filters, asStr);
      CommandValid(d) && IntTruthy(d.streamLoop) ==>
        g.args[|g.args| - 1] == "-stream_loop" && g.result == Err(AttributeError("stream_loop"))
    ensures var g := GenerateSpec(path, d, codecs, filters, asStr);
      g.result.Ok? ==>
        && LogLevelChoice(Clean(d).loglevel) && !IntTruthy(Clean(d).streamLoop)
        && g.args == CommandArgs(path, Clean(d), codecs, filters)
  {
  }

  /** The full command starts with the program path and ends with the quoted
      output path; `generate` returns it as a list or joined by single spaces. */
  lemma CommandEnds(path: string, c: Cleaned, codecs: seq<Codec>, filters: seq<Filter>, asStr: bool)
    requires !IntTruthy(c.streamLoop)
    ensures var g := GenerateCleaned(path, c, codecs, filters, asStr);
      && |g.args| >= 4
      && g.args[0] == path
      && g.args[|g.args| - 1] == Quote(c.output)
      && g.result == Ok(Render(asStr, g.args))
  {
    var tail := CodecArgs(codecs, false) + FilterArgs(filters);
    assert OutputPartArgs(c, codecs, filters) == tail + [Quote(c.output)];
  }

  /** The selections of a list laid out as `CommandArgs` lays out its pieces. */
  lemma SelectShape(p: seq<string>, b: seq<string>, ca: seq<string>, i: seq<string>, a: seq<string>,
                    cb: seq<string>, f: seq<string>, o: seq<string>, k: bool)
    ensures Select(p + b + ((ca + i + a) + (cb + f + o)), k)
         == Select(p, k) + Select(b, k) + ((Select(ca, k) + Select(i, k) + Select(a, k)) + (Select(cb, k) + Select(f, k) + Select(o, k)))
  {
    SelectThree(ca, i, a, k);
    SelectThree(cb, f, o, k);
    SelectConcat(ca + i + a, cb + f + o, k);
    SelectThree(p, b, (ca + i + a) + (cb + f + o), k);
  }

  /** The plain options of the full command are exactly the set slots, in the
      fixed order: no value token is a flag. */
  lemma CommandOptions(path: string, c: Cleaned, codecs: seq<Codec>, filters: seq<Filter>)
    requires LogLevelChoice(c.loglevel) && !IsFlag(path)
    ensures Select(CommandArgs(path, c, codecs, filters), false) == SlotOptions(c)
  {
    SelectValue(path);
    BeforeInputSelect(c);
    CodecSelect(codecs, true);
    InputSelect(c);
    AfterInputSelect(c);
    CodecSelect(codecs, false);
    FilterSelect(filters);
    OutputSelect(c);
    SelectShape([path], BeforeInputArgs(c), CodecArgs(codecs, true), InputArgs(c), AfterInputArgs(c),
                CodecArgs(codecs, false), FilterArgs(filters), OutputArgs(c), false);
    OptionsShape(BeforeInputOptions(c), LimitOptions(c) + PositionOptions(c) + VideoOptions(c));
  }

  lemma OptionsShape(b: seq<string>, a: seq<string>)
    ensures [] + b + (([] + ["-i"] + a) + ([] + [] + [])) == b + ["-i"] + a
  {
  }

  /** The directives of the full command are the codecs placed before the
      input, then the other codecs, then the filters, each in attachment order. */
  lemma CommandDirectives(path: string, c: Cleaned, codecs: seq<Codec>, filters: seq<Filter>)
    requires LogLevelChoice(c.loglevel) && !IsFlag(path)
    ensures Select(CommandArgs(path, c, codecs, filters), true)
         == CodecArgs(codecs, true) + CodecArgs(codecs, false) + FilterArgs(filters)
  {
    SelectValue(path);
    BeforeInputSelect(c);
    CodecSelect(codecs, true);
    InputSelect(c);
    AfterInputSelect(c);
    CodecSelect(codecs, false);
    FilterSelect(filters);
    OutputSelect(c);
    SelectShape([path], BeforeInputArgs(c), CodecArgs(codecs, true), InputArgs(c), AfterInputArgs(c),
                CodecArgs(codecs, false), FilterArgs(filters), OutputArgs(c), true);
    DirectivesShape(CodecArgs(codecs, true), CodecArgs(codecs, false), FilterArgs(filters));
  }

  lemma DirectivesShape(ca: seq<string>, cb: seq<string>, f: seq<string>)
    ensures [] + [] + ((ca + [] + []) + (cb + f + [])) == ca + cb + f
  {
  }

  /** A plain option occurs in the full command as often as among the set slots. */
  lemma OptionCount(path: string, c: Cleaned, codecs: seq<Codec>, filters: seq<Filter>, x: string)
    requires LogLevelChoice(c.loglevel) && !IsFlag(path) && Kept(x, false)
    ensures multiset(CommandArgs(path, c, codecs, filters))[x] == multiset(SlotOptions(c))[x]
  {
    CommandOptions(path, c, codecs, filters);
    CountOption(CommandArgs(path, c, codecs, filters), x);
  }

  /** `-i` occurs once in the full command. */
  lemma InputOnce(path: string, c: Cleaned, codecs: seq<Codec>, filters: seq<Filter>)
    requires LogLevelChoice(c.loglevel) && !IsFlag(path)
    ensures multiset(CommandArgs(path, c, codecs, filters))["-i"] == 1
  {
    OptionWords();
    OptionCount(path, c, codecs, filters, "-i");
    InputSlot(c);
  }

  /** `s` holds `x` at index `k`, immediately followed by `y`. */
  predicate PairAt(s: seq<string>, k: nat, x: string, y: string)
  {
    k + 1 < |s| && s[k] == x && s[k + 1] == y
  }

  /** `-i` comes right after the before-input options and codecs, and is
      followed by the quoted, escaped input path. */
  lemma InputPosition(path: string, c: Cleaned, codecs: seq<Codec>, filters: seq<Filter>)
    ensures PairAt(CommandArgs(path, c, codecs, filters), 1 + |BeforeInputArgs(c)| + |CodecArgs(codecs, true)|,
                   "-i", Quote(c.input))
  {
    InputShape([path], BeforeInputArgs(c), CodecArgs(codecs, true), InputArgs(c), AfterInputArgs(c),
               OutputPartArgs(c, codecs, filters), "-i", Quote(c.input));
  }

  /** Where a two-token piece sits in a list laid out as `CommandArgs`. */
  lemma InputShape(p: seq<string>, b: seq<string>, ca: seq<string>, i: seq<string>, a: seq<string>,
                   o: seq<string>, x: string, y: string)
    requires i == [x, y]
    ensures PairAt(p + b + ((ca + i + a) + o), |p| + |b| + |ca|, x, y)
  {
    var s := p + b + ((ca + i + a) + o);
    assert s == (p + b + ca) + [x, y] + (a + o);
  }

  lemma InputSlot(c: Cleaned)
    ensures multiset(SlotOptions(c))["-i"] == 1
  {
    SlotCount(c, "-i");
  }

  /** `-t` is written once for each of `add_duration_before_input` and a set
      duration, so both together give two `-t` options. */
  lemma DurationCount(path: string, c: Cleaned, codecs: seq<Codec>, filters: seq<Filter>)
    requires LogLevelChoice(c.loglevel) && !IsFlag(path)
    ensures multiset(CommandArgs(path, c, codecs, filters))["-t"]
         == Once(c.addDurationBeforeInput) + Once(c.duration.Some?)
  {
    OptionWords();
    OptionCount(path, c, codecs, filters, "-t");
    DurationSlots(c);
  }

  lemma DurationSlots(c: Cleaned)
    ensures multiset(SlotOptions(c))["-t"] == Once(c.addDurationBeforeInput) + Once(c.duration.Some?)
  {
    SlotCount(c, "-t");
  }

  /** Overwrite is tri-state: `-y` for true, `-n` for false, neither for unset. */
  lemma OverwriteTriState(path: string, c: Cleaned, codecs: seq<Codec>, filters: seq<Filter>)
    requires LogLevelChoice(c.loglevel) && !IsFlag(path)
    ensures multiset(CommandArgs(path, c, codecs, filters))["-y"] == Once(c.overwrite == Some(true))
    ensures multiset(CommandArgs(path, c, codecs, filters))["-n"] == Once(c.overwrite == Some(false))
  {
    OptionWords();
    OptionCount(path, c, codecs, filters, "-y");
    OptionCount(path, c, codecs, filters, "-n");
    OverwriteSlots(c);
  }

  lemma OverwriteSlots(c: Cleaned)
    ensures multiset(SlotOptions(c))["-y"] == Once(c.overwrite == Some(true))
    ensures multiset(SlotOptions(c))["-n"] == Once(c.overwrite == Some(false))
  {
    SlotCount(c, "-y");
    SlotCount(c, "-n");
  }

  function Once(b: bool): nat
  {
    if b then 1 else 0
  }

  lemma BeforeInputCount(c: Cleaned, x: string)
    ensures multiset(BeforeInputOptions(c))[x]
         == Once(c.loglevel != "" && x == "-loglevel") + Once(c.addDurationBeforeInput && x == "-t")
          + Once(c.itsoffset.Some? && x == "-itsoffset")
  {
  }

  lemma OverwriteCount(c: Cleaned, x: string)
    ensures multiset(OverwriteOptions(c))[x]
         == Once(c.overwrite == Some(true) && x == "-y") + Once(c.overwrite == Some(false) && x == "-n")
  {
  }

  lemma LengthCount(c: Cleaned, x: string)
    ensures multiset(LengthOptions(c))[x]
         == Once(c.duration.Some? && x == "-t") + Once(IntTruthy(c.fileSizeLimit) && x == "-fs")
          + Once(c.toPosition.Some? && x == "-to")
  {
  }

  lemma PositionCount(c: Cleaned, x: string)
    ensures multiset(PositionOptions(c))[x]
         == Once(c.ssPosition.Some? && x == "-ss") + Once(c.sseofPosition.Some? && x == "-sseof")
          + Once((c.timestampNow || c.timestamp.Some?) && x == "-timestamp")
  {
  }

  lemma VideoCount(c: Cleaned, x: string)
    ensures multiset(VideoOptions(c))[x]
         == Once(c.vn && x == "-vn") + Once(c.aspect.Some? && DecimalTruthy(c.aspect.value) && x == "-aspect")
  {
  }

  /** How often an option occurs among the set slots: once for each set slot
      that writes it. */
  lemma SlotCount(c: Cleaned, x: string)
    ensures multiset(SlotOptions(c))[x]
         == Once(c.loglevel != "" && x == "-loglevel") + Once(c.addDurationBeforeInput && x == "-t")
          + Once(c.itsoffset.Some? && x == "-itsoffset") + Once(x == "-i")
          + Once(c.overwrite == Some(true) && x == "-y") + Once(c.overwrite == Some(false) && x == "-n")
          + Once(c.duration.Some? && x == "-t") + Once(IntTruthy(c.fileSizeLimit) && x == "-fs")
          + Once(c.toPosition.Some? && x == "-to")
          + Once(c.ssPosition.Some? && x == "-ss") + Once(c.sseofPosition.Some? && x == "-sseof")
          + Once((c.timestampNow || c.timestamp.Some?) && x == "-timestamp")
          + Once(c.vn && x == "-vn") + Once(c.aspect.Some? && DecimalTruthy(c.aspect.value) && x == "-aspect")
  {
    BeforeInputCount(c, x);
    OverwriteCount(c, x);
    LengthCount(c, x);
    PositionCount(c, x);
    VideoCount(c, x);
    CountShape(BeforeInputOptions(c), OverwriteOptions(c), LengthOptions(c), PositionOptions(c), VideoOptions(c), x);
  }

  lemma CountShape(b: seq<string>, o: seq<string>, l: seq<string>, p: seq<string>, v: seq<string>, x: string)
    ensures multiset(b + ["-i"] + ((o + l) + p + v))[x]
         == multiset(b)[x] + Once(x == "-i") + multiset(o)[x] + multiset(l)[x] + multiset(p)[x] + multiset(v)[x]
  {
  }

  /** `s` holds `flag` immediately followed by `v`. */
  predicate Follows(s: seq<string>, flag: string, v: string)
  {
    exists k :: 0 <= k < |s| - 1 && s[k] == flag && s[k + 1] == v
  }

  lemma FollowsAt(s: seq<string>, a: seq<string>, b: seq<string>, flag: string, v: string)
    requires s == a + [flag, v] + b
    ensures Follows(s, flag, v)
  {
    assert s[|a|] == flag && s[|a| + 1] == v;
  }

  /** `-timestamp` is written once when `timestamp_now` or a timestamp is set;
      its value is `now` whenever `timestamp_now` is set, and otherwise the
      timestamp. */
  lemma TimestampRule(path: string, c: Cleaned, codecs: seq<Codec>, filters: seq<Filter>)
    requires LogLevelChoice(c.loglevel) && !IsFlag(path)
    ensures multiset(CommandArgs(path, c, codecs, filters))["-timestamp"]
         == Once(c.timestampNow || c.timestamp.Some?)
    ensures c.timestampNow ==> Follows(CommandArgs(path, c, codecs, filters), "-timestamp", "now")
    ensures !c.timestampNow && c.timestamp.Some? ==>
      Follows(CommandArgs(path, c, codecs, filters), "-timestamp", DateTimeStr(c.timestamp.value))
  {
    OptionWords();
    OptionCount(path, c, codecs, filters, "-timestamp");
    TimestampSlot(c);
    if c.timestampNow || c.timestamp.Some? {
      var v := if c.timestampNow then "now" else DateTimeStr(c.timestamp.value);
      TimestampSplit(path, c, codecs, filters, v);
    }
  }

  lemma TimestampSlot(c: Cleaned)
    ensures multiset(SlotOptions(c))["-timestamp"] == Once(c.timestampNow || c.timestamp.Some?)
  {
    SlotCount(c, "-timestamp");
  }

  lemma TimestampSplit(path: string, c: Cleaned, codecs: seq<Codec>, filters: seq<Filter>, v: string)
    requires TimestampArgs(c) == ["-timestamp", v]
    ensures Follows(CommandArgs(path, c, codecs, filters), "-timestamp", v)
  {
    TimestampShape([path], BeforeInputArgs(c), CodecArgs(codecs, true), InputArgs(c), OverwriteAndLimitArgs(c),
                   SsPositionArgs(c), SseofPositionArgs(c), TimestampArgs(c), VideoArgs(c),
                   OutputPartArgs(c, codecs, filters), "-timestamp", v);
  }

  /** A two-token piece inside the positions of a list laid out as `CommandArgs`. */
  lemma TimestampShape(p: seq<string>, b: seq<string>, ca: seq<string>, i: seq<string>, l: seq<string>,
                       ss: seq<string>, se: seq<string>, ts: seq<string>, vd: seq<string>, o: seq<string>,
                       x: string, y: string)
    requires ts == [x, y]
    ensures Follows(p + b + ((ca + i + (l + (ss + se + ts) + vd)) + o), x, y)
  {
    var s := p + b + ((ca + i + (l + (ss + se + ts) + vd)) + o);
    var head := p + b + ca + i + l + ss + se;
    assert s == head + [x, y] + (vd + o);
    FollowsAt(s, head, vd + o, x, y);
  }

  /** `add_ss_position_before_input` changes nothing: the same data with the
      flag flipped validates the same way and generates the same command. */
  lemma SsFlagIgnored(path: string, d: CommandData, codecs: seq<Codec>, filters: seq<Filter>, asStr: bool, b: bool)
    ensures GenerateSpec(path, d, codecs, filters, asStr)
         == GenerateSpec(path, d.(addSsPositionBeforeInput := b), codecs, filters, asStr)
  {
    var e := d.(addSsPositionBeforeInput := b);
    SsFlagNotValidated(d, b);
    if CommandValid(d) {
      SsFlagCleaned(d, b);
      SsFlagNotRead(path, Clean(d), codecs, filters, asStr, b);
    }
  }

  lemma SsFlagNotValidated(d: CommandData, b: bool)
    ensures CommandViolations(d.(addSsPositionBeforeInput := b)) == CommandViolations(d)
  {
    var e := d.(addSsPositionBeforeInput := b);
    TextChecksAgree(d, e);
    TimeChecksAgree(d, e);
    LimitChecksAgree(d, e);
  }

  /** Each group of field checks reads only its own fields. */
  lemma TextChecksAgree(d: CommandData, e: CommandData)
    requires e.input == d.input && e.output == d.output && e.loglevel == d.loglevel && e.streamLoop == d.streamLoop
    ensures TextViolations(e) == TextViolations(d)
  {
    var l := d.loglevel;
    assert LogLevelChoice(e.loglevel) == LogLevelChoice(l);
  }

  lemma TimeChecksAgree(d: CommandData, e: CommandData)
    requires e.duration == d.duration && e.toPosition == d.toPosition
    requires e.ssPosition == d.ssPosition && e.sseofPosition == d.sseofPosition
    ensures TimeViolations(e) == TimeViolations(d)
  {
  }

  lemma LimitChecksAgree(d: CommandData, e: CommandData)
    requires e.fileSizeLimit == d.fileSizeLimit && e.itsoffset == d.itsoffset && e.timestamp == d.timestamp
    ensures LimitViolations(e) == LimitViolations(d)
  {
  }

  lemma SsFlagCleaned(d: CommandData, b: bool)
    requires CommandValid(d)
    ensures CommandValid(d.(addSsPositionBeforeInput := b))
    ensures Clean(d.(addSsPositionBeforeInput := b)) == Clean(d).(addSsPositionBeforeInput := b)
  {
    SsFlagNotValidated(d, b);
  }

  lemma SsFlagNotRead(path: string, c: Cleaned, codecs: seq<Codec>, filters: seq<Filter>, asStr: bool, b: bool)
    ensures GenerateCleaned(path, c, codecs, filters, asStr)
         == GenerateCleaned(path, c.(addSsPositionBeforeInput := b), codecs, filters, asStr)
  {
    var e := c.(addSsPositionBeforeInput := b);
    SsFlagBeforeInput(c, b);
    SsFlagAfterInput(c, b);
    assert InputArgs(c) == InputArgs(e) && OutputArgs(c) == OutputArgs(e);
    assert CommandArgs(path, c, codecs, filters) == CommandArgs(path, e, codecs, filters);
  }

  lemma SsFlagBeforeInput(c: Cleaned, b: bool)
    ensures BeforeInputArgs(c) == BeforeInputArgs(c.(addSsPositionBeforeInput := b))
  {
    var e := c.(addSsPositionBeforeInput := b);
    assert LogLevelArgs(c) == LogLevelArgs(e);
    assert DurationBeforeInputArgs(c) == DurationBeforeInputArgs(e);
    assert ItsoffsetArgs(c) == ItsoffsetArgs(e);
  }

  lemma SsFlagAfterInput(c: Cleaned, b: bool)
    ensures AfterInputArgs(c) == AfterInputArgs(c.(addSsPositionBeforeInput := b))
  {
    var e := c.(addSsPositionBeforeInput := b);
    assert OverwriteAndLimitArgs(c) == OverwriteAndLimitArgs(e);
    SsFlagPosition(c, b);
    assert VideoArgs(c) == VideoArgs(e);
  }

  lemma SsFlagPosition(c: Cleaned, b: bool)
    ensures PositionArgs(c) == PositionArgs(c.(addSsPositionBeforeInput := b))
  {
    var e := c.(addSsPositionBeforeInput := b);
    assert SsPositionArgs(c) == SsPositionArgs(e);
    assert TimestampArgs(c) == TimestampArgs(e);
  }

  // ---------------------------------------------------------------------
  // Codecs and filters
  // ---------------------------------------------------------------------

  /** The generated string of every attached codec, in attachment order. */
  function CodecStrings(codecs: seq<Codec>): (r: seq<string>)
    ensures |r| == |codecs|
  {
    if codecs == [] then [] else CodecStrings(codecs[..|codecs| - 1]) + [CodecString(codecs[|codecs| - 1])]
  }

  /** Each attached codec is emitted exactly once: the codecs before the input
      and those after it together are all the codecs. */
  lemma {:induction false} CodecsPartition(codecs: seq<Codec>)
    ensures multiset(CodecArgs(codecs, true)) + multiset(CodecArgs(codecs, false)) == multiset(CodecStrings(codecs))
    ensures |CodecArgs(codecs, true)| + |CodecArgs(codecs, false)| == |codecs|
  {
    if codecs != [] {
      var init, last := codecs[..|codecs| - 1], codecs[|codecs| - 1];
      CodecsPartition(init);
      assert CodecStrings(codecs) == CodecStrings(init) + [CodecString(last)];
      if last.beforeInput {
        assert CodecArgs(codecs, true) == CodecArgs(init, true) + [CodecString(last)];
        assert CodecArgs(codecs, false) == CodecArgs(init, false);
      } else {
        assert CodecArgs(codecs, true) == CodecArgs(init, true);
        assert CodecArgs(codecs, false) == CodecArgs(init, false) + [CodecString(last)];
      }
    }
  }

  /** A codec goes before the input only if its `before_input` is set, and
      after it only if it is not. */
  lemma {:induction false} CodecPlacement(codecs: seq<Codec>, before: bool, t: string)
    requires t in CodecArgs(codecs, before)
    ensures exists i :: 0 <= i < |codecs| && codecs[i].beforeInput == before && CodecString(codecs[i]) == t
  {
    var init := codecs[..|codecs| - 1];
    if t in CodecArgs(init, before) {
      CodecPlacement(init, before, t);
      var i :| 0 <= i < |init| && init[i].beforeInput == before && CodecString(init[i]) == t;
      assert codecs[i] == init[i];
    } else {
      assert codecs[|codecs| - 1].beforeInput == before && CodecString(codecs[|codecs| - 1]) == t;
    }
  }

  /** Filters are emitted in attachment order, one token each. */
  lemma {:induction false} FiltersInOrder(filters: seq<Filter>, i: nat)
    requires i < |filters|
    ensures FilterArgs(filters)[i] == FilterString(filters[i])
  {
    if i < |filters| - 1 {
      FiltersInOrder(filters[..|filters| - 1], i);
    }
  }
}
