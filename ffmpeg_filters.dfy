/** The filter directives of the `ffmpeg` package: the bitstream filter
    `-bsf:<stream> <names>` and the scale filter `-filter:v scale=<w>:<h>[...]`. */
module FfmpegFilters {
  import opened Wrappers
  import opened Text
  import opened FfmpegUtils

  // ---------------------------------------------------------------------
  // Bitstream filters
  // ---------------------------------------------------------------------

  const FFmpegFilterClass: EnumClass :=
    [ EnumMember("text2movsub", "text2movsub"), EnumMember("remove_extra", "remove_extra")
    , EnumMember("noise", "noise"), EnumMember("mov2textsub", "mov2textsub")
    , EnumMember("mpeg4_unpack_bframes", "mpeg4_unpack_bframes"), EnumMember("mp3decomp", "mp3decomp")
    , EnumMember("mjpegadump", "mjpegadump"), EnumMember("mjpeg2jpeg", "mjpeg2jpeg")
    , EnumMember("imxdump", "imxdump"), EnumMember("hevc_mp4toannexb", "hevc_mp4toannexb")
    , EnumMember("h264_mp4toannexb", "h264_mp4toannexb"), EnumMember("dump_extra", "dump_extra")
    , EnumMember("chomp", "chomp"), EnumMember("aac_adtstoasc", "aac_adtstoasc") ]

  datatype FFmpegFilter =
    | Text2movsub | RemoveExtra | Noise | Mov2textsub | Mpeg4UnpackBframes | Mp3decomp | Mjpegadump
    | Mjpeg2jpeg | Imxdump | HevcMp4toannexb | H264Mp4toannexb | DumpExtra | Chomp | AacAdtstoasc
  {
    function Index(): (i: nat)
      ensures i < |FFmpegFilterClass|
    {
      match this
      case Text2movsub => 0
      case RemoveExtra => 1
      case Noise => 2
      case Mov2textsub => 3
      case Mpeg4UnpackBframes => 4
      case Mp3decomp => 5
      case Mjpegadump => 6
      case Mjpeg2jpeg => 7
      case Imxdump => 8
      case HevcMp4toannexb => 9
      case H264Mp4toannexb => 10
      case DumpExtra => 11
      case Chomp => 12
      case AacAdtstoasc => 13
    }

    /** `str(filter)`: the filter's name as ffmpeg spells it. */
    function Value(): string
    {
      match this
      case Text2movsub => "text2movsub"
      case RemoveExtra => "remove_extra"
      case Noise => "noise"
      case Mov2textsub => "mov2textsub"
      case Mpeg4UnpackBframes => "mpeg4_unpack_bframes"
      case Mp3decomp => "mp3decomp"
      case Mjpegadump => "mjpegadump"
      case Mjpeg2jpeg => "mjpeg2jpeg"
      case Imxdump => "imxdump"
      case HevcMp4toannexb => "hevc_mp4toannexb"
      case H264Mp4toannexb => "h264_mp4toannexb"
      case DumpExtra => "dump_extra"
      case Chomp => "chomp"
      case AacAdtstoasc => "aac_adtstoasc"
    }
  }

  /** Each member's string is the value its enum class lists at its position. */
  lemma FilterValueInClass(f: FFmpegFilter)
    ensures FFmpegFilterClass[f.Index()].value == f.Value()
  {
  }

  /** A name usable in a comma-separated list: not empty, no comma. */
  predicate ListName(s: string)
  {
    |s| >= 1 && ',' !in s && !IsSpace(s[0]) && !IsSpace(s[|s| - 1])
  }

  /** No bitstream filter name is empty, contains a comma, or starts or ends
      with white space. */
  lemma FilterValueShape(f: FFmpegFilter)
    ensures ListName(f.Value())
  {
    match f
    case Text2movsub => Text2movsubName();
    case RemoveExtra => RemoveExtraName();
    case Noise => NoiseName();
    case Mov2textsub => Mov2textsubName();
    case Mpeg4UnpackBframes => Mpeg4UnpackBframesName();
    case Mp3decomp => Mp3decompName();
    case Mjpegadump => MjpegadumpName();
    case Mjpeg2jpeg => Mjpeg2jpegName();
    case Imxdump => ImxdumpName();
    case HevcMp4toannexb => HevcMp4toannexbName();
    case H264Mp4toannexb => H264Mp4toannexbName();
    case DumpExtra => DumpExtraName();
    case Chomp => ChompName();
    case AacAdtstoasc => AacAdtstoascName();
  }

  lemma Text2movsubName() ensures ListName(Text2movsub.Value()) {}
  lemma RemoveExtraName() ensures ListName(RemoveExtra.Value()) {}
  lemma NoiseName() ensures ListName(Noise.Value()) {}
  lemma Mov2textsubName() ensures ListName(Mov2textsub.Value()) {}
  lemma Mpeg4UnpackBframesName() ensures ListName(Mpeg4UnpackBframes.Value()) {}
  lemma Mp3decompName() ensures ListName(Mp3decomp.Value()) {}
  lemma MjpegadumpName() ensures ListName(Mjpegadump.Value()) {}
  lemma Mjpeg2jpegName() ensures ListName(Mjpeg2jpeg.Value()) {}
  lemma ImxdumpName() ensures ListName(Imxdump.Value()) {}
  lemma HevcMp4toannexbName() ensures ListName(HevcMp4toannexb.Value()) {}
  lemma H264Mp4toannexbName() ensures ListName(H264Mp4toannexb.Value()) {}
  lemma DumpExtraName() ensures ListName(DumpExtra.Value()) {}
  lemma ChompName() ensures ListName(Chomp.Value()) {}
  lemma AacAdtstoascName() ensures ListName(AacAdtstoasc.Value()) {}

  function FilterValues(names: seq<FFmpegFilter>): (r: seq<string>)
    ensures |r| == |names| && forall i :: 0 <= i < |names| ==> r[i] == names[i].Value()
  {
    seq(|names|, i requires 0 <= i < |names| => names[i].Value())
  }

  /** A bound `BitstreamChannelFilter` form: `filters` holds the comma-joined names. */
  datatype BitstreamChannelFilter = BitstreamChannelFilter(stream: Option<StreamSpecifier>, filters: string)

  /** `BitstreamChannelFilter(stream, filters)`. */
  function NewBitstreamChannelFilter(stream: Option<StreamSpecifier>, names: seq<FFmpegFilter>): BitstreamChannelFilter
  {
    BitstreamChannelFilter(stream, Join(",", FilterValues(names)))
  }

  const FiltersMaxLength := 255

  /** A required `CharField(max_length=255)`: the text is stripped before
      it is checked, and the stripped text is what `cleaned_data` holds. */
  predicate FiltersFieldValid(filters: string)
  {
    var v := Strip(filters);
    v != "" && |v| <= FiltersMaxLength
  }

  /** `filters` is checked as `FiltersFieldValid` says; the stream is optional. */
  function BitstreamFieldViolations(b: BitstreamChannelFilter): seq<Violation>
  {
    if FiltersFieldValid(b.filters) then [] else [FieldViolation("filters")]
  }

  predicate BitstreamValid(b: BitstreamChannelFilter)
  {
    BitstreamFieldViolations(b) == []
  }

  function BitstreamTokens(b: BitstreamChannelFilter): seq<string>
  {
    ["-bsf:" + CleanedStream(b.stream), Strip(b.filters)]
  }

  /** `BitstreamChannelFilter.generate(as_str)`: validate, then the two tokens. */
  function GenerateBitstream(b: BitstreamChannelFilter, asStr: bool): (r: Result<Output, Error>)
    ensures r.Ok? <==> BitstreamValid(b)
  {
    match Validate(b, Checked(BitstreamFieldViolations(b)))
    case Err(e) => Err(e)
    case Ok(_) => Ok(Render(asStr, BitstreamTokens(b)))
  }

  /** The `filters` value is the names comma-joined in the given order: splitting
      it on commas gives the names back, and it is as long as the names plus
      one comma between each pair. Stripping leaves it as it is. A filter built
      from at least one name, with at most 255 characters, is valid; an empty
      list is not. */
  lemma {:induction false} BitstreamFiltersRoundTrip(stream: Option<StreamSpecifier>, names: seq<FFmpegFilter>)
    ensures var b := NewBitstreamChannelFilter(stream, names);
            && b.stream == stream
            && (|names| >= 1 ==> Split(',', b.filters) == FilterValues(names))
            && |b.filters| == TotalLength(FilterValues(names)) + (if names == [] then 0 else |names| - 1)
            && (|names| >= 1 ==> Strip(b.filters) == b.filters)
            && (BitstreamValid(b) <==> |names| >= 1 && |b.filters| <= FiltersMaxLength)
  {
    var values := FilterValues(names);
    JoinLength(",", values);
    if |names| >= 1 {
      forall i | 0 <= i < |values| ensures ListName(values[i]) {
        FilterValueShape(names[i]);
      }
      SplitJoin(',', values);
      JoinEnds(",", values);
      StripPlain(Join(",", values));
      TotalLengthPositive(values);
    }
  }

  lemma TotalLengthPositive(parts: seq<string>)
    requires |parts| >= 1 && |parts[0]| >= 1
    ensures TotalLength(parts) >= 1
  {
  }

  /** A valid bitstream filter yields `-bsf:<letter>` (just `-bsf:` without a
      stream) followed by the stripped filter string, which is not empty, is at
      most 255 characters long and has no white space at either end. */
  lemma BitstreamTokensMeaning(b: BitstreamChannelFilter, asStr: bool)
    requires BitstreamValid(b)
    ensures GenerateBitstream(b, asStr) == Ok(Render(asStr, ["-bsf:" + CleanedStream(b.stream), Strip(b.filters)]))
    ensures var v := BitstreamTokens(b)[1];
            1 <= |v| <= FiltersMaxLength && !IsSpace(v[0]) && !IsSpace(v[|v| - 1])
    ensures b.stream.Some? ==> BitstreamTokens(b)[0] == "-bsf:" + b.stream.value.Value()
    ensures b.stream.None? ==> BitstreamTokens(b)[0] == "-bsf:"
  {
  }

  // ---------------------------------------------------------------------
  // Scale filter
  // ---------------------------------------------------------------------

  const FoarClass: EnumClass :=
    [EnumMember("Disable", "disable"), EnumMember("Decrease", "decrease"), EnumMember("Increase", "increase")]

  /** `force_original_aspect_ratio`. */
  datatype Foar = Disable | Decrease | Increase
  {
    function Index(): (i: nat)
      ensures i < |FoarClass|
    {
      match this
      case Disable => 0
      case Decrease => 1
      case Increase => 2
    }

    function Value(): string
    {
      FoarClass[Index()].value
    }
  }

  /** The options of a scale filter, as both copies of it read them.
      `foar == None` stands for an empty `foar` (the field cleans to `''`). */
  datatype ScaleOptions = ScaleOptions(
    width: Option<int>,
    height: Option<int>,
    uiw: bool,
    uih: bool,
    scaleWidth: Option<int>,
    scaleHeight: Option<int>,
    kar: bool,
    foar: Option<Foar>)

  /** Python's truth value of an optional integer field. */
  predicate IntTruthy(v: Option<int>)
  {
    v.Some? && v.value != 0
  }

  /** `str()` of an optional integer: `None` renders as `None`. */
  function OptIntStr(v: Option<int>): string
  {
    if v.Some? then IntStr(v.value) else "None"
  }

  /** `str(cleaned_data['foar'])`. */
  function FoarStr(foar: Option<Foar>): string
  {
    if foar.Some? then foar.value.Value() else ""
  }

  const ScaleMultiplierMin := 1
  const ScaleMultiplierMax := 10
  const KarFoarMessage := "KAR and FOAR can not be set define at the same time"
  const WidthMessage := "Please define width or uiw"
  const HeightMessage := "Please define height or uiw."

  /** The field checks of both copies: the multipliers lie in [1, 10]. */
  function MultiplierViolations(o: ScaleOptions): seq<Violation>
  {
    (if o.scaleWidth.Some? && !(ScaleMultiplierMin <= o.scaleWidth.value <= ScaleMultiplierMax)
     then [FieldViolation("scale_width")] else [])
    + (if o.scaleHeight.Some? && !(ScaleMultiplierMin <= o.scaleHeight.value <= ScaleMultiplierMax)
       then [FieldViolation("scale_height")] else [])
  }

  /** The width and height checks of `clean()`, shared by both copies;
      the first that fails raises. */
  function SizeCheck(o: ScaleOptions): seq<Violation>
  {
    if !o.uiw && !IntTruthy(o.width) then [FormViolation(WidthMessage)]
    else if !o.uih && !IntTruthy(o.height) then [FormViolation(HeightMessage)]
    else []
  }

  /** `foar != FOAR.Disable`: an empty foar counts as set. */
  predicate FoarActive(foar: Option<Foar>)
  {
    foar != Some(Disable)
  }

  /** `ScaleFilter.clean()` of this copy: `kar` excludes any foar but `Disable`. */
  function ScaleClean(o: ScaleOptions): seq<Violation>
  {
    if o.kar && FoarActive(o.foar) then [FormViolation(KarFoarMessage)] else SizeCheck(o)
  }

  /** A bound `ScaleFilter` form of this copy. */
  datatype ScaleFilter = ScaleFilter(stream: Option<StreamSpecifier>, options: ScaleOptions)

  /** `ScaleFilter(uiw, uih, kar, foar, **kwargs)`: the stream is always set to Video. */
  function NewScaleFilter(options: ScaleOptions): (r: ScaleFilter)
    ensures r.stream == Some(Video) && r.options == options
  {
    ScaleFilter(Some(Video), options)
  }

  function ScaleViolations(f: ScaleFilter): seq<Violation>
  {
    MultiplierViolations(f.options) + ScaleClean(f.options)
  }

  predicate ScaleValid(f: ScaleFilter)
  {
    ScaleViolations(f) == []
  }

  /** A scale filter is valid exactly when its multipliers lie in [1, 10], it
      does not combine `kar` with a foar other than `Disable`, and each of width
      and height is taken from the input or given as a nonzero number. */
  lemma ScaleValidIff(f: ScaleFilter)
    ensures ScaleValid(f) <==>
      var o := f.options;
      && (o.scaleWidth.Some? ==> 1 <= o.scaleWidth.value <= 10)
      && (o.scaleHeight.Some? ==> 1 <= o.scaleHeight.value <= 10)
      && !(o.kar && o.foar != Some(Disable))
      && (o.uiw || IntTruthy(o.width))
      && (o.uih || IntTruthy(o.height))
  {
  }

  /** `kar` together with `Decrease` or `Increase` is always rejected, whatever
      the other options hold. */
  lemma KarWithFoarRejected(f: ScaleFilter, asStr: bool)
    requires f.options.kar && f.options.foar in {Some(Decrease), Some(Increase)}
    ensures GenerateScale(f, asStr).Err? && GenerateScale(f, asStr).error.ValueError?
    ensures FormViolation(KarFoarMessage) in GenerateScale(f, asStr).error.violations
  {
  }

  /** The `scale=` argument, as both copies build it: width, then height, then
      `suffix` says whether the foar part is appended. */
  function ScaleExpr(o: ScaleOptions, suffix: bool): string
  {
    var scale := "scale=" + DimensionText(o.uiw, "iw", o.width, o.scaleWidth) + ":" + HeightText(o);
    if suffix then scale + ":" + FoarKey + FoarStr(o.foar) else scale
  }

  /** One side of the size: `iw`/`ih` when the use-input flag is set, otherwise
      `str()` of the given size; then `*<multiplier>` when a multiplier is truthy. */
  function DimensionText(useInput: bool, inputName: string, size: Option<int>, multiplier: Option<int>): string
  {
    var base := if useInput then inputName else OptIntStr(size);
    if IntTruthy(multiplier) then base + "*" + IntStr(multiplier.value) else base
  }

  /** `kar` overwrites the height, multiplier included, with `-1`. */
  function HeightText(o: ScaleOptions): string
  {
    if o.kar then "-1" else DimensionText(o.uih, "ih", o.height, o.scaleHeight)
  }

  function ScaleTokens(f: ScaleFilter): seq<string>
  {
    ["-filter:" + CleanedStream(f.stream), ScaleExpr(f.options, FoarActive(f.options.foar))]
  }

  /** `ScaleFilter.generate(as_str)`: validate, then the two tokens. */
  function GenerateScale(f: ScaleFilter, asStr: bool): (r: Result<Output, Error>)
    ensures r.Ok? <==> ScaleValid(f)
  {
    match Validate(f, Checked(ScaleViolations(f)))
    case Err(e) => Err(e)
    case Ok(_) => Ok(Render(asStr, ScaleTokens(f)))
  }

  // --- what a scale argument says, and reading it back ---

  datatype Base = InputSize | Literal(n: int)
  datatype Dimension = Dimension(base: Base, multiplier: Option<int>)
  datatype ScaleMeaning = ScaleMeaning(width: Dimension, height: Dimension, foar: Option<string>)

  /** The input size when the use-input flag is set (whatever size is also
      given), else the given size; a multiplier when one is set. */
  function DimensionOf(useInput: bool, size: Option<int>, multiplier: Option<int>): Dimension
    requires useInput || size.Some?
  {
    Dimension(if useInput then InputSize else Literal(size.value),
              if IntTruthy(multiplier) then multiplier else None)
  }

  /** What the options ask for: `kar` replaces the whole height, multiplier
      included, by `-1`. */
  function MeaningOf(o: ScaleOptions, suffix: bool): ScaleMeaning
    requires o.uiw || o.width.Some?
    requires o.uih || o.kar || o.height.Some?
  {
    ScaleMeaning(
      DimensionOf(o.uiw, o.width, o.scaleWidth),
      HeightMeaning(o),
      if suffix then Some(FoarStr(o.foar)) else None)
  }

  const FoarKey := "force_original_aspect_ratio="

  function ParseDimension(s: string, inputName: string): Option<Dimension>
  {
    var parts := Split('*', s);
    if |parts| > 2 then None
    else
      var base: Option<Base> :=
        if parts[0] == inputName then Some(InputSize)
        else match ParseInt(parts[0]) case Some(n) => Some(Literal(n)) case None => None;
      var multiplier: Option<Option<int>> :=
        if |parts| == 1 then Some(None)
        else match ParseInt(parts[1]) case Some(k) => Some(Some(k)) case None => None;
      if base.Some? && multiplier.Some? then Some(Dimension(base.value, multiplier.value)) else None
  }

  /** Reads a `scale=<w>:<h>[:force_original_aspect_ratio=<x>]` argument. */
  function ParseScale(s: string): Option<ScaleMeaning>
  {
    if |s| < 6 || s[..6] != "scale=" then None
    else
      var parts := Split(':', s[6..]);
      if |parts| < 2 || |parts| > 3 then None
      else if |parts| == 3 && (|parts[2]| < |FoarKey| || parts[2][..|FoarKey|] != FoarKey) then None
      else
        var foar := if |parts| == 3 then Some(parts[2][|FoarKey|..]) else None;
        match (ParseDimension(parts[0], "iw"), ParseDimension(parts[1], "ih"))
        case (Some(w), Some(h)) => Some(ScaleMeaning(w, h, foar))
        case _ => None
  }

  lemma IntStrHasNoSeparator(i: int)
    ensures ':' !in IntStr(i) && '*' !in IntStr(i) && IntStr(i) != "iw" && IntStr(i) != "ih"
  {
    var s := IntStr(i);
    assert s[0] == '-' || IsDigit(s[0]);
  }

  lemma {:induction false} DimensionRoundTrip(useInput: bool, inputName: string, size: Option<int>, multiplier: Option<int>)
    requires inputName == "iw" || inputName == "ih"
    requires useInput || size.Some?
    ensures ':' !in DimensionText(useInput, inputName, size, multiplier)
    ensures ParseDimension(DimensionText(useInput, inputName, size, multiplier), inputName)
            == Some(DimensionOf(useInput, size, multiplier))
  {
    var base := if useInput then inputName else OptIntStr(size);
    if !useInput {
      IntStrHasNoSeparator(size.value);
      IntStrRoundTrip(size.value);
    }
    assert '*' !in base && ':' !in base;
    var text := DimensionText(useInput, inputName, size, multiplier);
    if IntTruthy(multiplier) {
      var k := IntStr(multiplier.value);
      IntStrHasNoSeparator(multiplier.value);
      IntStrRoundTrip(multiplier.value);
      assert text == Join("*", [base, k]);
      SplitJoin('*', [base, k]);
    } else {
      SplitNoSeparator('*', base);
    }
  }

  lemma FoarStrShape(foar: Option<Foar>)
    ensures ':' !in FoarStr(foar)
  {
  }

  lemma FoarPartShape(foar: Option<Foar>)
    ensures ':' !in FoarKey + FoarStr(foar)
  {
    FoarStrShape(foar);
    assert ':' !in FoarKey;
  }

  /** The colon-separated parts of a scale argument. */
  function ScaleParts(o: ScaleOptions, suffix: bool): seq<string>
  {
    var w := DimensionText(o.uiw, "iw", o.width, o.scaleWidth);
    if suffix then [w, HeightText(o), FoarKey + FoarStr(o.foar)] else [w, HeightText(o)]
  }

  lemma ScaleExprParts(o: ScaleOptions, suffix: bool)
    ensures ScaleExpr(o, suffix) == "scale=" + Join(":", ScaleParts(o, suffix))
  {
    if suffix {
      ScaleExprWithSuffix(o);
    } else {
      ScaleExprWithoutSuffix(o);
    }
  }

  lemma ScaleExprWithSuffix(o: ScaleOptions)
    ensures ScaleExpr(o, true) == "scale=" + Join(":", ScaleParts(o, true))
  {
    var w := DimensionText(o.uiw, "iw", o.width, o.scaleWidth);
    var h := HeightText(o);
    JoinThreeAfter("scale=", ":", w, h, FoarKey, FoarStr(o.foar));
  }

  lemma JoinThreeAfter(pre: string, sep: string, a: string, b: string, k: string, v: string)
    ensures pre + a + sep + b + sep + k + v == pre + Join(sep, [a, b, k + v])
  {
    JoinThree(sep, a, b, k + v);
    assert pre + a + sep + b + sep + k + v == pre + (a + sep + b + sep + (k + v));
  }

  lemma ScaleExprWithoutSuffix(o: ScaleOptions)
    ensures ScaleExpr(o, false) == "scale=" + Join(":", ScaleParts(o, false))
  {
    var w := DimensionText(o.uiw, "iw", o.width, o.scaleWidth);
    var h := HeightText(o);
    JoinTwo(":", w, h);
  }

  lemma HeightRoundTrip(o: ScaleOptions)
    requires o.uih || o.kar || o.height.Some?
    ensures ':' !in HeightText(o)
    ensures ParseDimension(HeightText(o), "ih") == Some(HeightMeaning(o))
  {
    if o.kar {
      var h := HeightText(o);
      assert h == IntStr(-1);
      IntStrHasNoSeparator(-1);
      SplitNoSeparator('*', h);
      IntStrRoundTrip(-1);
    } else {
      DimensionRoundTrip(o.uih, "ih", o.height, o.scaleHeight);
    }
  }

  function HeightMeaning(o: ScaleOptions): Dimension
    requires o.uih || o.kar || o.height.Some?
  {
    if o.kar then Dimension(Literal(-1), None) else DimensionOf(o.uih, o.height, o.scaleHeight)
  }

  lemma ParseScaleParts(parts: seq<string>, w: Dimension, h: Dimension, foar: Option<string>)
    requires 2 <= |parts| <= 3
    requires forall i :: 0 <= i < |parts| ==> ':' !in parts[i]
    requires ParseDimension(parts[0], "iw") == Some(w) && ParseDimension(parts[1], "ih") == Some(h)
    requires |parts| == 3 <==> foar.Some?
    requires |parts| == 3 ==> parts[2] == FoarKey + foar.value
    ensures ParseScale("scale=" + Join(":", parts)) == Some(ScaleMeaning(w, h, foar))
  {
    var s := "scale=" + Join(":", parts);
    assert s[..6] == "scale=";
    assert s[6..] == Join(":", parts);
    SplitJoin(':', parts);
    if |parts| == 3 {
      assert parts[2][..|FoarKey|] == FoarKey;
      assert parts[2][|FoarKey|..] == foar.value;
    }
  }

  /** The scale argument is unambiguous: reading it back yields the width and
      height it was built from (`iw`/`ih` taking precedence over a given size,
      an optional multiplier, `-1` for the height under `kar`) and the foar part
      exactly when it was appended. */
  lemma {:induction false} ScaleExprRoundTrip(o: ScaleOptions, suffix: bool)
    requires o.uiw || o.width.Some?
    requires o.uih || o.kar || o.height.Some?
    ensures ParseScale(ScaleExpr(o, suffix)) == Some(MeaningOf(o, suffix))
  {
    if suffix {
      ScaleExprRoundTripWithSuffix(o);
    } else {
      ScaleExprRoundTripWithoutSuffix(o);
    }
  }

  lemma ScaleExprRoundTripWithSuffix(o: ScaleOptions)
    requires o.uiw || o.width.Some?
    requires o.uih || o.kar || o.height.Some?
    ensures ParseScale(ScaleExpr(o, true)) == Some(ScaleMeaning(DimensionOf(o.uiw, o.width, o.scaleWidth), HeightMeaning(o), Some(FoarStr(o.foar))))
  {
    var w := DimensionText(o.uiw, "iw", o.width, o.scaleWidth);
    var h := HeightText(o);
    var k := FoarKey + FoarStr(o.foar);
    DimensionRoundTrip(o.uiw, "iw", o.width, o.scaleWidth);
    HeightRoundTrip(o);
    ScaleExprWithSuffix(o);
    FoarPartShape(o.foar);
    ParseScaleParts([w, h, k], DimensionOf(o.uiw, o.width, o.scaleWidth), HeightMeaning(o), Some(FoarStr(o.foar)));
  }

  lemma ScaleExprRoundTripWithoutSuffix(o: ScaleOptions)
    requires o.uiw || o.width.Some?
    requires o.uih || o.kar || o.height.Some?
    ensures ParseScale(ScaleExpr(o, false)) == Some(ScaleMeaning(DimensionOf(o.uiw, o.width, o.scaleWidth), HeightMeaning(o), None))
  {
    var w := DimensionText(o.uiw, "iw", o.width, o.scaleWidth);
    var h := HeightText(o);
    DimensionRoundTrip(o.uiw, "iw", o.width, o.scaleWidth);
    HeightRoundTrip(o);
    ScaleExprWithoutSuffix(o);
    ParseScaleParts([w, h], DimensionOf(o.uiw, o.width, o.scaleWidth), HeightMeaning(o), None);
  }

  /** A valid scale filter of this copy always starts with `-filter:v`; under
      `kar` its height reads `-1`; the foar part is there exactly when foar
      is not `Disable`. */
  lemma ScaleTokensMeaning(options: ScaleOptions, asStr: bool)
    requires ScaleValid(NewScaleFilter(options))
    ensures var ts := ScaleTokens(NewScaleFilter(options));
            && GenerateScale(NewScaleFilter(options), asStr) == Ok(Render(asStr, ts))
            && ts[0] == "-filter:v"
            && ParseScale(ts[1]) == Some(MeaningOf(options, FoarActive(options.foar)))
            && (options.kar ==> ParseScale(ts[1]).value.height == Dimension(Literal(-1), None))
            && (ParseScale(ts[1]).value.foar.Some? <==> options.foar != Some(Disable))
  {
    StreamSpecifierValues(Video);
    assert "-filter:" + "v" == "-filter:v";
    ScaleExprRoundTrip(options, FoarActive(options.foar));
  }

  // --- the documented examples ---

  /** `ScaleFilter(**kwargs)` with the constructor's defaults: no flags, `FOAR.Disable`. */
  function ScaleKwargs(width: Option<int>, height: Option<int>, uiw: bool, uih: bool,
                       scaleWidth: Option<int>, scaleHeight: Option<int>, kar: bool, foar: Foar): ScaleOptions
  {
    ScaleOptions(width, height, uiw, uih, scaleWidth, scaleHeight, kar, Some(foar))
  }

  /** A valid scale filter generates its flag and its expression joined by a space. */
  lemma ScaleGenerates(f: ScaleFilter)
    requires ScaleValid(f)
    ensures GenerateScale(f, true)
         == Ok(Joined("-filter:" + CleanedStream(f.stream) + " " + ScaleExpr(f.options, FoarActive(f.options.foar))))
  {
    JoinTwo(" ", "-filter:" + CleanedStream(f.stream), ScaleExpr(f.options, FoarActive(f.options.foar)));
  }

  lemma SizeNumbers()
    ensures IntStr(1920) == "1920" && IntStr(1080) == "1080"
  {
    Number1920();
    Number1080();
  }

  lemma SmallNumbers()
    ensures IntStr(2) == "2" && IntStr(3) == "3"
  {
    assert Digit(2) == '2' && Digit(3) == '3';
  }

  lemma Number1920()
    ensures NatStr(1920) == "1920"
  {
    assert Digit(0) == '0' && Digit(1) == '1' && Digit(2) == '2' && Digit(9) == '9';
    assert NatStr(19) == "19";
    assert NatStr(192) == "192";
  }

  lemma Number1080()
    ensures NatStr(1080) == "1080"
  {
    assert Digit(0) == '0' && Digit(1) == '1' && Digit(8) == '8';
    assert NatStr(10) == "10";
    assert NatStr(108) == "108";
  }

  /** `ScaleFilter(width=1920, height=1080)` renders as `-filter:v scale=1920:1080`. */
  lemma ScaleLiteralSizeExample()
    ensures GenerateScale(NewScaleFilter(ScaleKwargs(Some(1920), Some(1080), false, false, None, None, false, Disable)), true)
            == Ok(Joined("-filter:v scale=1920:1080"))
  {
    var o := ScaleKwargs(Some(1920), Some(1080), false, false, None, None, false, Disable);
    ScaleLiteralSizeExpr();
    ScaleValidIff(NewScaleFilter(o));
    StreamSpecifierValues(Video);
    ScaleGenerates(NewScaleFilter(o));
    ScaleLiteralSizeText();
  }

  lemma ScaleLiteralSizeExpr()
    ensures ScaleExpr(ScaleKwargs(Some(1920), Some(1080), false, false, None, None, false, Disable), false) == "scale=1920:1080"
  {
    var o := ScaleKwargs(Some(1920), Some(1080), false, false, None, None, false, Disable);
    SizeNumbers();
    assert DimensionText(o.uiw, "iw", o.width, o.scaleWidth) == "1920";
    assert HeightText(o) == "1080";
    assert "scale=" + "1920" + ":" + "1080" == "scale=1920:1080";
  }

  lemma ScaleLiteralSizeText()
    ensures "-filter:" + "v" + " " + "scale=1920:1080" == "-filter:v scale=1920:1080"
  {
  }

  /** `ScaleFilter(uiw=True, uih=True)` renders as `-filter:v scale=iw:ih`. */
  lemma ScaleInputSizeExample()
    ensures GenerateScale(NewScaleFilter(ScaleKwargs(None, None, true, true, None, None, false, Disable)), true)
            == Ok(Joined("-filter:v scale=iw:ih"))
  {
    var o := ScaleKwargs(None, None, true, true, None, None, false, Disable);
    ScaleInputSizeExpr();
    ScaleValidIff(NewScaleFilter(o));
    StreamSpecifierValues(Video);
    ScaleGenerates(NewScaleFilter(o));
    ScaleInputSizeText();
  }

  lemma ScaleInputSizeExpr()
    ensures ScaleExpr(ScaleKwargs(None, None, true, true, None, None, false, Disable), false) == "scale=iw:ih"
  {
    var o := ScaleKwargs(None, None, true, true, None, None, false, Disable);
    assert "scale=" + "iw" + ":" + "ih" == "scale=iw:ih";
  }

  lemma ScaleInputSizeText()
    ensures "-filter:" + "v" + " " + "scale=iw:ih" == "-filter:v scale=iw:ih"
  {
  }

  /** A width given, the height taken from the input: `scale=1920:ih`. */
  lemma ScaleWidthOnlyExample()
    ensures GenerateScale(NewScaleFilter(ScaleKwargs(Some(1920), None, false, true, None, None, false, Disable)), true)
            == Ok(Joined("-filter:v scale=1920:ih"))
  {
    var o := ScaleKwargs(Some(1920), None, false, true, None, None, false, Disable);
    ScaleWidthOnlyExpr();
    ScaleValidIff(NewScaleFilter(o));
    StreamSpecifierValues(Video);
    ScaleGenerates(NewScaleFilter(o));
    ScaleWidthOnlyText();
  }

  lemma ScaleWidthOnlyExpr()
    ensures ScaleExpr(ScaleKwargs(Some(1920), None, false, true, None, None, false, Disable), false) == "scale=1920:ih"
  {
    var o := ScaleKwargs(Some(1920), None, false, true, None, None, false, Disable);
    Number1920();
    assert DimensionText(o.uiw, "iw", o.width, o.scaleWidth) == "1920";
    assert "scale=" + "1920" + ":" + "ih" == "scale=1920:ih";
  }

  lemma ScaleWidthOnlyText()
    ensures "-filter:" + "v" + " " + "scale=1920:ih" == "-filter:v scale=1920:ih"
  {
  }

  /** The width taken from the input, a height given: `scale=iw:1080`. */
  lemma ScaleHeightOnlyExample()
    ensures GenerateScale(NewScaleFilter(ScaleKwargs(None, Some(1080), true, false, None, None, false, Disable)), true)
            == Ok(Joined("-filter:v scale=iw:1080"))
  {
    var o := ScaleKwargs(None, Some(1080), true, false, None, None, false, Disable);
    ScaleHeightOnlyExpr();
    ScaleValidIff(NewScaleFilter(o));
    StreamSpecifierValues(Video);
    ScaleGenerates(NewScaleFilter(o));
    ScaleHeightOnlyText();
  }

  lemma ScaleHeightOnlyExpr()
    ensures ScaleExpr(ScaleKwargs(None, Some(1080), true, false, None, None, false, Disable), false) == "scale=iw:1080"
  {
    var o := ScaleKwargs(None, Some(1080), true, false, None, None, false, Disable);
    Number1080();
    assert HeightText(o) == "1080";
    assert "scale=" + "iw" + ":" + "1080" == "scale=iw:1080";
  }

  lemma ScaleHeightOnlyText()
    ensures "-filter:" + "v" + " " + "scale=iw:1080" == "-filter:v scale=iw:1080"
  {
  }

  /** `ScaleFilter(uih=True, uiw=True, scale_width=2, scale_height=2)` renders as
      `-filter:v scale=iw*2:ih*2`. */
  lemma ScaleMultiplierExample()
    ensures GenerateScale(NewScaleFilter(ScaleKwargs(None, None, true, true, Some(2), Some(2), false, Disable)), true)
            == Ok(Joined("-filter:v scale=iw*2:ih*2"))
  {
    var o := ScaleKwargs(None, None, true, true, Some(2), Some(2), false, Disable);
    ScaleMultiplierExpr();
    ScaleValidIff(NewScaleFilter(o));
    StreamSpecifierValues(Video);
    ScaleGenerates(NewScaleFilter(o));
    ScaleMultiplierText();
  }

  lemma ScaleMultiplierExpr()
    ensures ScaleExpr(ScaleKwargs(None, None, true, true, Some(2), Some(2), false, Disable), false) == "scale=iw*2:ih*2"
  {
    var o := ScaleKwargs(None, None, true, true, Some(2), Some(2), false, Disable);
    SmallNumbers();
    assert DimensionText(o.uiw, "iw", o.width, o.scaleWidth) == "iw*2";
    assert HeightText(o) == "ih*2";
    assert "scale=" + "iw*2" + ":" + "ih*2" == "scale=iw*2:ih*2";
  }

  lemma ScaleMultiplierText()
    ensures "-filter:" + "v" + " " + "scale=iw*2:ih*2" == "-filter:v scale=iw*2:ih*2"
  {
  }

  /** `ScaleFilter(uiw=True, uih=True, kar=True, scale_width=3)` renders as
      `-filter:v scale=iw*3:-1`. */
  lemma ScaleKeepAspectExample()
    ensures GenerateScale(NewScaleFilter(ScaleKwargs(None, None, true, true, Some(3), None, true, Disable)), true)
            == Ok(Joined("-filter:v scale=iw*3:-1"))
  {
    var o := ScaleKwargs(None, None, true, true, Some(3), None, true, Disable);
    ScaleKeepAspectExpr();
    ScaleValidIff(NewScaleFilter(o));
    StreamSpecifierValues(Video);
    ScaleGenerates(NewScaleFilter(o));
    ScaleKeepAspectText();
  }

  lemma ScaleKeepAspectExpr()
    ensures ScaleExpr(ScaleKwargs(None, None, true, true, Some(3), None, true, Disable), false) == "scale=iw*3:-1"
  {
    var o := ScaleKwargs(None, None, true, true, Some(3), None, true, Disable);
    SmallNumbers();
    assert DimensionText(o.uiw, "iw", o.width, o.scaleWidth) == "iw*3";
    assert HeightText(o) == "-1";
    assert "scale=" + "iw*3" + ":" + "-1" == "scale=iw*3:-1";
  }

  lemma ScaleKeepAspectText()
    ensures "-filter:" + "v" + " " + "scale=iw*3:-1" == "-filter:v scale=iw*3:-1"
  {
  }

  /** `ScaleFilter(uih=True, uiw=True, foar=FOAR.Decrease, scale_width=3)` renders as
      `-filter:v scale=iw*3:ih:force_original_aspect_ratio=decrease`. */
  lemma ScaleForceAspectExample()
    ensures GenerateScale(NewScaleFilter(ScaleKwargs(None, None, true, true, Some(3), None, false, Decrease)), true)
            == Ok(Joined("-filter:v scale=iw*3:ih:force_original_aspect_ratio=decrease"))
  {
    var o := ScaleKwargs(None, None, true, true, Some(3), None, false, Decrease);
    ForceAspectExpr();
    ScaleValidIff(NewScaleFilter(o));
    StreamSpecifierValues(Video);
    ScaleGenerates(NewScaleFilter(o));
    ForceAspectText();
  }

  lemma ForceAspectExpr()
    ensures ScaleExpr(ScaleKwargs(None, None, true, true, Some(3), None, false, Decrease), true)
            == "scale=iw*3:ih:" + FoarKey + "decrease"
  {
    var o := ScaleKwargs(None, None, true, true, Some(3), None, false, Decrease);
    SmallNumbers();
    assert DimensionText(o.uiw, "iw", o.width, o.scaleWidth) == "iw*3";
    assert HeightText(o) == "ih";
    assert FoarStr(o.foar) == "decrease";
    assert "scale=" + "iw*3" + ":" + "ih" + ":" == "scale=iw*3:ih:";
  }

  /** The full text, put together a few characters at a time. */
  lemma ForceAspectText()
    ensures "-filter:" + "v" + " " + ("scale=iw*3:ih:" + FoarKey + "decrease")
            == "-filter:v scale=iw*3:ih:force_original_aspect_ratio=decrease"
  {
    var p := "-filter:" + "v" + " ";
    ConcatAssoc(p, "scale=iw*3:ih:" + FoarKey, "decrease");
    ConcatAssoc(p, "scale=iw*3:ih:", FoarKey);
    ForceAspectFlag();
    ForceAspectKey();
    ForceAspectValue();
  }

  lemma ForceAspectFlag()
    ensures "-filter:" + "v" + " " + "scale=iw*3:ih:" == "-filter:v scale=iw*3:ih:"
  {
  }

  lemma ForceAspectKey()
    ensures "-filter:v scale=iw*3:ih:" + FoarKey == "-filter:v scale=iw*3:ih:force_original_aspect_ratio="
  {
    FoarKeyParts();
    ConcatAssoc("-filter:v scale=iw*3:ih:", "force_original", "_aspect_ratio=");
    ForceAspectKeyHead();
    ForceAspectKeyTail();
  }

  lemma FoarKeyParts()
    ensures FoarKey == "force_original" + "_aspect_ratio="
  {
  }

  lemma ForceAspectKeyHead()
    ensures "-filter:v scale=iw*3:ih:" + "force_original" == "-filter:v scale=iw*3:ih:force_original"
  {
  }

  lemma ForceAspectKeyTail()
    ensures "-filter:v scale=iw*3:ih:force_original" + "_aspect_ratio=" == "-filter:v scale=iw*3:ih:force_original_aspect_ratio="
  {
  }

  lemma ForceAspectValue()
    ensures "-filter:v scale=iw*3:ih:force_original_aspect_ratio=" + "decrease"
            == "-filter:v scale=iw*3:ih:force_original_aspect_ratio=decrease"
  {
  }

  /** `BitstreamChannelFilter(stream=Audio, filters=[aac_adtstoasc])` renders as
      `-bsf:a aac_adtstoasc`. */
  lemma BitstreamExample()
    ensures GenerateBitstream(NewBitstreamChannelFilter(Some(Audio), [AacAdtstoasc]), true)
            == Ok(Joined("-bsf:a aac_adtstoasc"))
  {
    var b := NewBitstreamChannelFilter(Some(Audio), [AacAdtstoasc]);
    AacFilterText();
    BitstreamFiltersRoundTrip(Some(Audio), [AacAdtstoasc]);
    StreamSpecifierValues(Audio);
    BitstreamGenerates(b);
    AacText();
  }

  lemma AacText()
    ensures "-bsf:" + "a" + " " + "aac_adtstoasc" == "-bsf:a aac_adtstoasc"
  {
  }

  lemma AacFilterText()
    ensures NewBitstreamChannelFilter(Some(Audio), [AacAdtstoasc]).filters == "aac_adtstoasc"
  {
    assert FilterValues([AacAdtstoasc]) == ["aac_adtstoasc"];
  }

  /** A valid bitstream filter generates its flag and its stripped names
      joined by a space. */
  lemma BitstreamGenerates(b: BitstreamChannelFilter)
    requires BitstreamValid(b)
    ensures GenerateBitstream(b, true) == Ok(Joined("-bsf:" + CleanedStream(b.stream) + " " + Strip(b.filters)))
  {
    JoinTwo(" ", "-bsf:" + CleanedStream(b.stream), Strip(b.filters));
  }

  // ---------------------------------------------------------------------
  // Filters as the command sees them
  // ---------------------------------------------------------------------

  /** A filter attached to a command. */
  datatype Filter = Bitstream(bsf: BitstreamChannelFilter) | Scale(scale: ScaleFilter)

  predicate FilterValid(f: Filter)
  {
    match f
    case Bitstream(b) => BitstreamValid(b)
    case Scale(s) => ScaleValid(s)
  }

  /** The checks `add_filter` runs: a bitstream filter needs a non-blank
      filter text of at most 255 characters once stripped; a scale filter needs
      the conditions `ScaleValidIff` lists. */
  function FilterViolations(f: Filter): (r: seq<Violation>)
    ensures r == [] <==> FilterValid(f)
    ensures f.Bitstream? ==>
      (r == [] <==> Strip(f.bsf.filters) != "" && |Strip(f.bsf.filters)| <= FiltersMaxLength)
    ensures f.Bitstream? && r != [] ==> r == [FieldViolation("filters")]
    ensures f.Scale? ==>
      var o := f.scale.options;
      (r == [] <==>
        && (o.scaleWidth.Some? ==> 1 <= o.scaleWidth.value <= 10)
        && (o.scaleHeight.Some? ==> 1 <= o.scaleHeight.value <= 10)
        && !(o.kar && o.foar != Some(Disable))
        && (o.uiw || IntTruthy(o.width))
        && (o.uih || IntTruthy(o.height)))
  {
    match f
    case Bitstream(b) => BitstreamFieldViolations(b)
    case Scale(s) => ScaleValidIff(s); ScaleViolations(s)
  }

  function FilterTokens(f: Filter): (r: seq<string>)
    ensures |r| == 2
  {
    match f
    case Bitstream(b) => BitstreamTokens(b)
    case Scale(s) => ScaleTokens(s)
  }

  /** `filter.generate(as_str)` for either kind. */
  function GenerateFilter(f: Filter, asStr: bool): (r: Result<Output, Error>)
    ensures r.Ok? <==> FilterValid(f)
    ensures r.Ok? ==> r.value == Render(asStr, FilterTokens(f))
    ensures r.Err? ==> r.error == ValueError(FilterViolations(f))
  {
    match f
    case Bitstream(b) => GenerateBitstream(b, asStr)
    case Scale(s) => GenerateScale(s, asStr)
  }
}
