/** The filter directives of the stand-alone `utils` package: the bitstream
    filter, whose `generate()` does not validate, and the scale filter, whose
    foar rule is looser than the `ffmpeg` package's. Both keep their tokens in
    the form's `args` field. The expression building is shared with
    `FfmpegFilters`. */
module UtilsFilters {
  import opened Wrappers
  import opened Text
  import opened FfmpegUtils
  import opened UtilsBase
  import F = FfmpegFilters

  // ---------------------------------------------------------------------
  // Bitstream filter
  // ---------------------------------------------------------------------

  /** The data a `BitstreamChannelFilter` form is bound to: the raw stream and
      the comma-joined filter names. */
  datatype BitstreamData = BitstreamData(stream: string, filters: string)

  /** The field checks in declaration order: the stream, then `filters`, a
      required `CharField(max_length=255)` that strips its text first. */
  function BitstreamFieldViolations(d: BitstreamData): seq<Violation>
  {
    StreamViolations(d.stream) + (if F.FiltersFieldValid(d.filters) then [] else [FieldViolation("filters")])
  }

  predicate BitstreamValid(d: BitstreamData)
  {
    BitstreamFieldViolations(d) == []
  }

  function BitstreamTokens(d: BitstreamData): seq<string>
  {
    ["-bsf:" + d.stream, Strip(d.filters)]
  }

  /** What `generate(as_str)` returns. It does not validate: it reads
      `cleaned_data`, which exists only once the form has been cleaned
      (`cleaned`), and which holds only the fields that passed. */
  function GenerateBitstream(cleaned: bool, d: BitstreamData, asStr: bool): (r: Result<Output, Error>)
    ensures r.Ok? <==> cleaned && BitstreamValid(d)
  {
    if !cleaned then Err(AttributeError("cleaned_data"))
    else if StreamViolations(d.stream) != [] then Err(KeyError("stream"))
    else if !F.FiltersFieldValid(d.filters) then Err(KeyError("filters"))
    else Ok(Render(asStr, BitstreamTokens(d)))
  }

  /** A bound `BitstreamChannelFilter` form of the `utils` package. */
  class BitstreamChannelFilter {
    const data: BitstreamData
    /** Whether the form has been cleaned, so that `cleaned_data` exists. */
    var cleaned: bool
    var args: seq<string>

    constructor(data: BitstreamData)
      ensures this.data == data && !cleaned && args == []
    {
      this.data := data;
      cleaned := false;
      args := [];
    }

    /** `validate()`: cleans the form (keeping `cleaned_data` either way) and
        returns it, or raises `ValueError`. */
    method Validate() returns (r: Result<BitstreamChannelFilter, Error>)
      modifies this`cleaned
      ensures cleaned
      ensures r == FfmpegUtils.Validate(this, Checked(BitstreamFieldViolations(data)))
    {
      cleaned := true;
      r := FfmpegUtils.Validate(this, Checked(BitstreamFieldViolations(data)));
    }

    /** `generate(as_str)`: stores `-bsf:<stream>` and the stripped filters in `args`. */
    method Generate(asStr: bool) returns (r: Result<Output, Error>)
      modifies this`args
      ensures r == GenerateBitstream(cleaned, data, asStr)
      ensures r.Ok? ==> args == BitstreamTokens(data) && r.value == Render(asStr, args)
      ensures r.Err? ==> args == old(args)
    {
      if !cleaned {
        return Err(AttributeError("cleaned_data"));
      }
      if StreamViolations(data.stream) != [] {
        return Err(KeyError("stream"));
      }
      if !F.FiltersFieldValid(data.filters) {
        return Err(KeyError("filters"));
      }
      args := ["-bsf:" + data.stream, Strip(data.filters)];
      r := Ok(Render(asStr, args));
    }
  }

  /** Generating before the form was cleaned raises `AttributeError`; after
      cleaning, generation succeeds exactly when validation did, yields
      `-bsf:v`, `-bsf:a` or `-bsf:s` followed by the stripped filters, which
      are not blank and have no white space at either end, and otherwise
      raises `KeyError` for the first field that failed. */
  lemma BitstreamNeedsCleaning(d: BitstreamData, asStr: bool)
    ensures GenerateBitstream(false, d, asStr) == Err(AttributeError("cleaned_data"))
    ensures GenerateBitstream(true, d, asStr).Ok? <==> FfmpegUtils.Validate(d, Checked(BitstreamFieldViolations(d))).Ok?
    ensures BitstreamValid(d) ==>
      && GenerateBitstream(true, d, asStr) == Ok(Render(asStr, BitstreamTokens(d)))
      && BitstreamTokens(d)[0] in {"-bsf:v", "-bsf:a", "-bsf:s"}
      && BitstreamTokens(d)[1] == Strip(d.filters)
      && var v := BitstreamTokens(d)[1]; 1 <= |v| <= F.FiltersMaxLength && !IsSpace(v[0]) && !IsSpace(v[|v| - 1])
    ensures !BitstreamValid(d) ==>
      GenerateBitstream(true, d, asStr) == Err(KeyError(if StreamViolations(d.stream) != [] then "stream" else "filters"))
  {
    StreamRequired(d.stream);
    assert "-bsf:" + "v" == "-bsf:v" && "-bsf:" + "a" == "-bsf:a" && "-bsf:" + "s" == "-bsf:s";
  }

  /** With a member's letter as stream, a cleaned filter of this package
      checks and generates like the `ffmpeg` package's filter of that stream. */
  lemma AgreesWithPackageBitstream(m: StreamSpecifier, filters: string, asStr: bool)
    ensures var d := BitstreamData(m.Value(), filters);
            var b := F.BitstreamChannelFilter(Some(m), filters);
            && (BitstreamValid(d) <==> F.BitstreamValid(b))
            && BitstreamTokens(d) == F.BitstreamTokens(b)
            && GenerateBitstream(true, d, asStr).Ok? == F.GenerateBitstream(b, asStr).Ok?
  {
    MemberStreamAccepted(m);
  }

  const BlankFilters := "   "
  const PaddedChomp := " chomp "

  /** Filters given as blank text fail the required check once stripped, so
      `generate()` after cleaning raises `KeyError`. */
  lemma BlankFiltersRefused(asStr: bool)
    ensures !BitstreamValid(BitstreamData("v", BlankFilters))
    ensures GenerateBitstream(true, BitstreamData("v", BlankFilters), asStr) == Err(KeyError("filters"))
  {
    StripBlank(BlankFilters);
    StreamRequired("v");
  }

  /** Blanks around the filter names are dropped from the emitted token. */
  lemma PaddedFiltersStripped(asStr: bool)
    ensures BitstreamValid(BitstreamData("v", PaddedChomp))
    ensures BitstreamTokens(BitstreamData("v", PaddedChomp)) == ["-bsf:v", "chomp"]
  {
    assert PaddedChomp == " " + "chomp" + " ";
    StripPadded(" ", "chomp", " ");
    StreamRequired("v");
    assert "-bsf:" + "v" == "-bsf:v";
  }

  // ---------------------------------------------------------------------
  // Scale filter
  // ---------------------------------------------------------------------

  /** The data a `ScaleFilter` form is bound to: the raw stream and the
      scale options (as `FfmpegFilters` reads them). */
  datatype ScaleData = ScaleData(stream: string, options: F.ScaleOptions)

  const NoScaleOptions := F.ScaleOptions(None, None, false, false, None, None, false, None)

  /** `ScaleFilter.__init__(data=...)`: a data dict that is given and not
      empty (`Some`) has its stream set to `v`, whatever it held; anything else
      is replaced by an empty dict. */
  function ScaleInitData(data: Option<ScaleData>): (r: ScaleData)
  {
    if data.Some? then data.value.(stream := Video.Value()) else ScaleData("", NoScaleOptions)
  }

  const UtilsKarFoarMessage := "KAR and FOAR can not be set True at the same time"

  /** `clean()` of this copy: `kar` excludes any foar at all, `disable`
      included, since a non-empty choice value is truthy. */
  function ScaleClean(o: F.ScaleOptions): seq<Violation>
  {
    if o.kar && o.foar.Some? then [FormViolation(UtilsKarFoarMessage)] else F.SizeCheck(o)
  }

  function ScaleViolations(d: ScaleData): seq<Violation>
  {
    StreamViolations(d.stream) + F.MultiplierViolations(d.options) + ScaleClean(d.options)
  }

  predicate ScaleValid(d: ScaleData)
  {
    ScaleViolations(d) == []
  }

  /** The two tokens: `-filter:<stream>` and the scale expression, with the
      foar part whenever foar is not empty. */
  function ScaleTokens(d: ScaleData): seq<string>
  {
    ["-filter:" + d.stream, F.ScaleExpr(d.options, d.options.foar.Some?)]
  }

  function GenerateScale(d: ScaleData, asStr: bool): (r: Result<Output, Error>)
    ensures r.Ok? <==> ScaleValid(d)
  {
    match Validate(d, Checked(ScaleViolations(d)))
    case Err(e) => Err(e)
    case Ok(_) => Ok(Render(asStr, ScaleTokens(d)))
  }

  /** A bound `ScaleFilter` form of the `utils` package. */
  class ScaleFilter {
    const data: ScaleData
    var args: seq<string>

    constructor(data: Option<ScaleData>)
      ensures this.data == ScaleInitData(data) && args == []
    {
      this.data := ScaleInitData(data);
      args := [];
    }

    /** `generate(as_str)`: validates, then stores the two tokens in `args`. */
    method Generate(asStr: bool) returns (r: Result<Output, Error>)
      modifies this`args
      ensures r == GenerateScale(data, asStr)
      ensures r.Ok? ==> args == ScaleTokens(data) && r.value == Render(asStr, args)
      ensures r.Err? ==> args == old(args)
    {
      var checked := Validate(this, Checked(ScaleViolations(data)));
      if checked.Err? {
        return Err(checked.error);
      }
      var scale := F.ScaleExpr(data.options, data.options.foar.Some?);
      args := ["-filter:" + data.stream, scale];
      r := Ok(Render(asStr, args));
    }
  }

  /** Given data, the constructor keeps the options and forces the video
      stream; without data the form has no stream and no width, so it can
      never validate. */
  lemma ScaleInitForcesVideo(data: Option<ScaleData>)
    ensures data.Some? ==> ScaleInitData(data) == ScaleData("v", data.value.options)
    ensures data.None? ==> ScaleViolations(ScaleInitData(data)) == [FieldViolation("stream"), FormViolation(F.WidthMessage)]
  {
    StreamSpecifierValues(Video);
    StreamRequired("");
  }

  /** A scale filter of this copy is valid exactly when its stream is a
      letter, its multipliers lie in [1, 10], it does not combine `kar` with
      any foar, and each of width and height comes from the input or is a
      nonzero number. */
  lemma ScaleValidIff(d: ScaleData)
    ensures ScaleValid(d) <==>
      var o := d.options;
      && d.stream in {"v", "a", "s"}
      && (o.scaleWidth.Some? ==> 1 <= o.scaleWidth.value <= 10)
      && (o.scaleHeight.Some? ==> 1 <= o.scaleHeight.value <= 10)
      && !(o.kar && o.foar.Some?)
      && (o.uiw || F.IntTruthy(o.width))
      && (o.uih || F.IntTruthy(o.height))
  {
    StreamRequired(d.stream);
  }

  /** `kar` with any foar, `disable` included, is rejected. */
  lemma KarRejectsAnyFoar(d: ScaleData, asStr: bool)
    requires d.options.kar && d.options.foar.Some?
    ensures GenerateScale(d, asStr).Err? && GenerateScale(d, asStr).error.ValueError?
    ensures FormViolation(UtilsKarFoarMessage) in GenerateScale(d, asStr).error.violations
  {
  }

  /** A valid scale filter built from data starts with `-filter:v`; its
      expression reads back to the requested sizes, and carries the foar part,
      naming the foar's value, exactly when a foar is given. */
  lemma ScaleTokensMeaning(data: ScaleData, asStr: bool)
    requires ScaleValid(ScaleInitData(Some(data)))
    ensures var d := ScaleInitData(Some(data));
            var ts := ScaleTokens(d);
            && GenerateScale(d, asStr) == Ok(Render(asStr, ts))
            && ts[0] == "-filter:v"
            && ParseScaleOf(d).Some?
            && ParseScaleOf(d).value == F.MeaningOf(data.options, data.options.foar.Some?)
            && (ParseScaleOf(d).value.foar.Some? <==> data.options.foar.Some?)
            && (data.options.foar.Some? ==> ParseScaleOf(d).value.foar == Some(data.options.foar.value.Value()))
  {
    StreamSpecifierValues(Video);
    assert "-filter:" + "v" == "-filter:v";
    F.ScaleExprRoundTrip(data.options, data.options.foar.Some?);
  }

  function ParseScaleOf(d: ScaleData): Option<F.ScaleMeaning>
  {
    F.ParseScale(ScaleTokens(d)[1])
  }

  // --- the two copies side by side ---

  /** The foar part a scale expression was read back with, if it was read. */
  function FoarPart(m: Option<F.ScaleMeaning>): Option<Option<string>>
  {
    if m.Some? then Some(m.value.foar) else None
  }

  /** The foar part of the `ffmpeg` package's expression for the same options. */
  function PackageFoarPart(o: F.ScaleOptions): Option<Option<string>>
  {
    FoarPart(F.ParseScale(F.ScaleTokens(F.NewScaleFilter(o))[1]))
  }

  /** With `decrease` or `increase` the copies agree: the same options pass
      or fail the same checks and produce the same tokens. */
  lemma CopiesAgreeOnActiveFoar(o: F.ScaleOptions)
    requires o.foar == Some(F.Decrease) || o.foar == Some(F.Increase)
    ensures var d := ScaleInitData(Some(ScaleData("", o)));
            var f := F.NewScaleFilter(o);
            && (ScaleValid(d) <==> F.ScaleValid(f))
            && ScaleTokens(d) == F.ScaleTokens(f)
  {
    StreamSpecifierValues(Video);
    MemberStreamAccepted(Video);
  }

  /** With `disable` the copies part. This copy rejects `kar` with it, which
      the other accepts, and it appends `:force_original_aspect_ratio=disable`,
      which the other leaves out. */
  lemma CopiesDisagreeOnDisable(o: F.ScaleOptions)
    requires o.foar == Some(F.Disable)
    requires F.ScaleValid(F.NewScaleFilter(o))
    ensures var d := ScaleInitData(Some(ScaleData("", o)));
            && (o.kar ==> !ScaleValid(d))
            && (!o.kar ==> ScaleValid(d))
            && PackageFoarPart(o) == Some(None)
            && (!o.kar ==> FoarPart(ParseScaleOf(d)) == Some(Some("disable")))
  {
    F.ScaleValidIff(F.NewScaleFilter(o));
    StreamSpecifierValues(Video);
    MemberStreamAccepted(Video);
    F.ScaleExprRoundTrip(o, false);
    F.ScaleExprRoundTrip(o, true);
    assert F.FoarStr(o.foar) == "disable";
  }

  /** With no foar at all the copies part the other way: this copy accepts
      `kar` and appends nothing, while the other rejects `kar` and, without
      it, appends a foar part with an empty value. */
  lemma CopiesDisagreeOnNoFoar(o: F.ScaleOptions)
    requires o.foar == None
    requires ScaleValid(ScaleInitData(Some(ScaleData("", o))))
    ensures o.kar ==> !F.ScaleValid(F.NewScaleFilter(o))
    ensures FoarPart(ParseScaleOf(ScaleInitData(Some(ScaleData("", o))))) == Some(None)
    ensures !o.kar ==> F.ScaleValid(F.NewScaleFilter(o))
    ensures !o.kar ==> PackageFoarPart(o) == Some(Some(""))
  {
    ScaleValidIff(ScaleInitData(Some(ScaleData("", o))));
    F.ScaleValidIff(F.NewScaleFilter(o));
    F.ScaleExprRoundTrip(o, false);
    F.ScaleExprRoundTrip(o, true);
  }
}
