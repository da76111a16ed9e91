/** The codec directive of the stand-alone `utils` package:
    `-c:<stream> copy|<codec>`, kept in the form's `args` field. It differs
    from the `ffmpeg` package's codec only in that the stream is required. */
module UtilsCodecs {
  import opened Wrappers
  import opened Text
  import opened FfmpegUtils
  import opened UtilsBase
  import FfmpegCodecs

  /** The data a `Codec` form is bound to. `catalog` is the set of codec names
      the `codec` choice field offers; `stream` and `codec` are the raw texts,
      with `""` for a value that was not given. */
  datatype CodecData = CodecData(
    catalog: set<string>,
    stream: string,
    codec: string,
    copy: bool,
    beforeInput: bool)

  predicate UnknownName(d: CodecData)
  {
    d.codec != "" && d.codec !in d.catalog
  }

  /** The field checks in declaration order: the inherited stream field first,
      then the codec name, which must be one of the catalog's when given. */
  function CodecFieldViolations(d: CodecData): seq<Violation>
  {
    StreamViolations(d.stream) + (if UnknownName(d) then [FieldViolation("codec")] else [])
  }

  /** `is_valid()`: the field checks, then `clean()`, which reads
      `cleaned_data['codec']` only when `copy` is off; a name that failed its
      field check is missing from `cleaned_data` then, so the read raises. */
  function CodecFullClean(d: CodecData): FullClean
  {
    var fieldViolations := CodecFieldViolations(d);
    if d.copy then Checked(fieldViolations)
    else if UnknownName(d) then Crashed(KeyError("codec"))
    else if d.codec == "" then Checked(fieldViolations + [FormViolation(FfmpegCodecs.UndefinedCodecMessage)])
    else Checked(fieldViolations)
  }

  predicate CodecValid(d: CodecData)
  {
    CodecFullClean(d) == Checked([])
  }

  /** The two tokens `generate()` stores: the stream-qualified flag (plain `-c`
      for an empty stream), then `copy` or the codec name. */
  function CodecTokens(d: CodecData): seq<string>
  {
    [if d.stream != "" then "-c:" + d.stream else "-c", if d.copy then "copy" else d.codec]
  }

  /** What `generate(as_str)` returns: it validates first. */
  function GenerateCodec(d: CodecData, asStr: bool): (r: Result<Output, Error>)
    ensures r.Ok? <==> CodecValid(d)
  {
    match Validate(d, CodecFullClean(d))
    case Err(e) => Err(e)
    case Ok(_) => Ok(Render(asStr, CodecTokens(d)))
  }

  /** A bound `Codec` form of the `utils` package. */
  class Codec {
    const data: CodecData
    /** The tokens of the last successful `generate()` (the empty class default before). */
    var args: seq<string>

    constructor(data: CodecData)
      ensures this.data == data && args == []
    {
      this.data := data;
      args := [];
    }

    /** `generate(as_str)`: validates, stores the two tokens in `args` and
        returns them, joined when `as_str` is set. A failed validation raises
        before `args` is touched. */
    method Generate(asStr: bool) returns (r: Result<Output, Error>)
      modifies this`args
      ensures r == GenerateCodec(data, asStr)
      ensures r.Ok? ==> args == CodecTokens(data) && r.value == Render(asStr, args)
      ensures r.Err? ==> args == old(args)
    {
      var checked := Validate(this, CodecFullClean(data));
      if checked.Err? {
        return Err(checked.error);
      }
      var stream := data.stream;
      args := [if stream != "" then "-c:" + stream else "-c"];
      if data.copy {
        args := args + ["copy"];
      } else {
        args := args + [data.codec];
      }
      assert args == CodecTokens(data);
      r := Ok(Render(asStr, args));
    }
  }

  /** A codec is valid exactly when its stream is one of `v`, `a`, `s`, it
      copies or names a codec, and any name it gives is in the catalog. */
  lemma CodecValidIff(d: CodecData)
    ensures CodecValid(d) <==>
      && d.stream in {"v", "a", "s"}
      && (d.copy || d.codec != "")
      && (d.codec == "" || d.codec in d.catalog)
  {
    StreamRequired(d.stream);
  }

  /** Neither copy nor a codec name: generation fails with the `clean()`
      message, after the stream field's own violation if there is one. */
  lemma CodecRejectsUndefined(d: CodecData, asStr: bool)
    requires !d.copy && d.codec == ""
    ensures GenerateCodec(d, asStr)
         == Err(ValueError(StreamViolations(d.stream) + [FormViolation(FfmpegCodecs.UndefinedCodecMessage)]))
  {
    assert CodecFieldViolations(d) == StreamViolations(d.stream);
  }

  /** A name outside the catalog without copy: `clean()` raises `KeyError`. */
  lemma CodecUnknownNameRaisesKeyError(d: CodecData, asStr: bool)
    requires !d.copy && UnknownName(d)
    ensures GenerateCodec(d, asStr) == Err(KeyError("codec"))
  {
  }

  /** Because the stream is required, a codec that generates always starts
      with `-c:v`, `-c:a` or `-c:s`, never with a bare `-c`; its second token
      is `copy` whenever copy is set, and else its catalog name. */
  lemma ValidCodecTokens(d: CodecData)
    requires CodecValid(d)
    ensures CodecTokens(d)[0] in {"-c:v", "-c:a", "-c:s"}
    ensures d.copy ==> CodecTokens(d)[1] == "copy"
    ensures !d.copy ==> CodecTokens(d)[1] in d.catalog
  {
    CodecValidIff(d);
    assert "-c:" + "v" == "-c:v" && "-c:" + "a" == "-c:a" && "-c:" + "s" == "-c:s";
  }

  /** The `ffmpeg` package's codec with the same stream member, name and
      flags goes through the same checks to the same end and produces the same
      tokens: the two copies differ only where the stream is missing. */
  lemma AgreesWithPackageCodec(catalog: set<string>, m: StreamSpecifier, codec: string, copy: bool, beforeInput: bool)
    ensures var d := CodecData(catalog, m.Value(), codec, copy, beforeInput);
            var c := FfmpegCodecs.Codec(catalog, Some(m), codec, copy, beforeInput);
            && CodecFullClean(d) == FfmpegCodecs.CodecFullClean(c)
            && CodecTokens(d) == FfmpegCodecs.CodecTokens(c)
  {
    MemberStreamAccepted(m);
    StreamSpecifierValues(m);
  }

  /** A missing stream is where the copies part: the same codec without a
      stream is valid in the `ffmpeg` package and rejected here. */
  lemma StreamlessCodecRejected(catalog: set<string>, codec: string, copy: bool, beforeInput: bool)
    requires copy || codec != ""
    requires codec == "" || codec in catalog
    ensures FfmpegCodecs.CodecValid(FfmpegCodecs.Codec(catalog, None, codec, copy, beforeInput))
    ensures !CodecValid(CodecData(catalog, "", codec, copy, beforeInput))
  {
    StreamRequired("");
  }
}
