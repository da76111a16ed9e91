/** The codec directive of the `ffmpeg` package: `-c[:<stream>] copy|<codec>`. */
module FfmpegCodecs {
  import opened Wrappers
  import opened Text
  import opened FfmpegUtils

  /** A bound `Codec` form. `catalog` is the set of codec names the `codec`
      choice field offers (read from the ffmpeg binary at start-up);
      `codec == ""` means no codec name was given. */
  datatype Codec = Codec(
    catalog: set<string>,
    stream: Option<StreamSpecifier>,
    codec: string,
    copy: bool,
    beforeInput: bool)

  const UndefinedCodecMessage := "Codec is not defined."

  /** The field checks: a given codec name must be one of the catalog's. */
  function CodecFieldViolations(c: Codec): seq<Violation>
  {
    if c.codec != "" && c.codec !in c.catalog then [FieldViolation("codec")] else []
  }

  /** `is_valid()`: the field checks, then `clean()`. `clean()` reads
      `cleaned_data['codec']` only when `copy` is off; a codec name that failed
      its field check is missing from `cleaned_data` then, so the read raises. */
  function CodecFullClean(c: Codec): FullClean
  {
    var fieldViolations := CodecFieldViolations(c);
    if c.copy then Checked(fieldViolations)
    else if fieldViolations != [] then Crashed(KeyError("codec"))
    else if c.codec == "" then Checked([FormViolation(UndefinedCodecMessage)])
    else Checked([])
  }

  predicate CodecValid(c: Codec)
  {
    CodecFullClean(c) == Checked([])
  }

  /** A codec is valid exactly when it copies or names a codec, and any name
      it gives is in the catalog. */
  lemma CodecValidIff(c: Codec)
    ensures CodecValid(c) <==> (c.copy || c.codec != "") && (c.codec == "" || c.codec in c.catalog)
  {
  }

  /** The tokens of a valid codec. */
  function CodecTokens(c: Codec): seq<string>
  {
    var flag := if c.stream.Some? then "-c:" + c.stream.value.Value() else "-c";
    [flag, if c.copy then "copy" else c.codec]
  }

  /** `Codec.generate(as_str)`: validate, then the two tokens. */
  function GenerateCodec(c: Codec, asStr: bool): (r: Result<Output, Error>)
    ensures r.Ok? <==> CodecValid(c)
  {
    match Validate(c, CodecFullClean(c))
    case Err(e) => Err(e)
    case Ok(_) => Ok(Render(asStr, CodecTokens(c)))
  }

  /** The text the command assembler inserts for a codec: `generate()` with its
      default `as_str=True`. */
  function CodecString(c: Codec): string
  {
    Join(" ", CodecTokens(c))
  }

  /** Neither copy nor a codec name: generation fails with the clean() message. */
  lemma CodecRejectsUndefined(c: Codec, asStr: bool)
    requires !c.copy && c.codec == ""
    ensures GenerateCodec(c, asStr) == Err(ValueError([FormViolation(UndefinedCodecMessage)]))
  {
  }

  /** A name outside the catalog without copy: `clean()` raises `KeyError`
      instead of the validation error. */
  lemma CodecUnknownNameRaisesKeyError(c: Codec, asStr: bool)
    requires !c.copy && c.codec != "" && c.codec !in c.catalog
    ensures GenerateCodec(c, asStr) == Err(KeyError("codec"))
  {
  }

  /** What a codec directive asks ffmpeg for. */
  datatype CodecMeaning = CopyStream(stream: Option<StreamSpecifier>) | Encode(stream: Option<StreamSpecifier>, name: string)

  function Meaning(c: Codec): CodecMeaning
  {
    if c.copy then CopyStream(c.stream) else Encode(c.stream, c.codec)
  }

  /** Reads two codec tokens back: `-c` or `-c:<letter>`, then `copy` or a name. */
  function ParseCodecTokens(ts: seq<string>): Option<CodecMeaning>
  {
    if |ts| != 2 then None
    else
      var stream: Option<Option<StreamSpecifier>> :=
        if ts[0] == "-c" then Some(None)
        else if ts[0] == "-c:v" then Some(Some(Video))
        else if ts[0] == "-c:a" then Some(Some(Audio))
        else if ts[0] == "-c:s" then Some(Some(Subtitle))
        else None;
      match stream
      case None => None
      case Some(s) => if ts[1] == "copy" then Some(CopyStream(s)) else Some(Encode(s, ts[1]))
  }

  /** Generation and reading back agree: a valid codec yields exactly two
      tokens, `-c` when it has no stream and `-c:<letter>` otherwise, then
      `copy` when copy is set (whatever name is also given) and else its
      catalog name. Requires that the catalog has no codec called `copy`. */
  lemma {:induction false} CodecTokensRoundTrip(c: Codec)
    requires CodecValid(c) && "copy" !in c.catalog
    ensures |CodecTokens(c)| == 2
    ensures CodecTokens(c)[0] == "-c" <==> c.stream.None?
    ensures c.copy ==> CodecTokens(c)[1] == "copy"
    ensures !c.copy ==> CodecTokens(c)[1] in c.catalog
    ensures ParseCodecTokens(CodecTokens(c)) == Some(Meaning(c))
  {
    CodecValidIff(c);
    var ts := CodecTokens(c);
    match c.stream
    case None =>
    case Some(m) =>
      StreamSpecifierValues(m);
      match m
      case Video => assert ts[0] == "-c:" + "v" == "-c:v";
      case Audio => assert ts[0] == "-c:" + "a" == "-c:a";
      case Subtitle => assert ts[0] == "-c:" + "s" == "-c:s";
    if !c.copy {
      assert ts[1] == c.codec != "copy";
    }
  }

  /** A copy of the video stream renders as `-c:v copy`. */
  lemma CopyVideoExample(catalog: set<string>)
    ensures GenerateCodec(Codec(catalog, Some(Video), "", true, false), true) == Ok(Joined("-c:v copy"))
  {
    var c := Codec(catalog, Some(Video), "", true, false);
    StreamSpecifierValues(Video);
    assert "-c:" + "v" == "-c:v";
    assert CodecTokens(c) == ["-c:v", "copy"];
    assert Join(" ", ["-c:v", "copy"]) == "-c:v" + " " + Join(" ", ["copy"]);
    assert "-c:v" + " " + "copy" == "-c:v copy";
    assert CodecValid(c);
  }
}
