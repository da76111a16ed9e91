/** The shared base of the stand-alone `utils` package: the plain stream
    specifier enum and the stream field that every codec and filter form of
    that package declares as required. Its `validate()` is the same
    return-or-raise protocol as the `ffmpeg` package's (`FfmpegUtils.Validate`). */
module UtilsBase {
  import opened Wrappers
  import opened FfmpegUtils

  /** `[(s.value, s.name) for s in StreamSpecifier]`: the choices of the stream
      field are the three letters, each paired with its member's name. */
  function StreamChoices(): (r: seq<(string, string)>)
    ensures r == [("v", "Video"), ("a", "Audio"), ("s", "Subtitle")]
  {
    Choices(StreamSpecifierClass)
  }

  /** Whether `raw` is the value of one of the choices. */
  predicate IsChoice(choices: seq<(string, string)>, raw: string)
  {
    exists i :: 0 <= i < |choices| && choices[i].0 == raw
  }

  /** `cleaned_data['stream']` of a `BaseFilter` form: the field is required,
      so an empty or missing value fails, and any other value must be one of
      the choices. */
  function CleanStream(raw: string): (r: Option<string>)
    ensures r.Some? ==> r.value == raw
  {
    if raw != "" && IsChoice(StreamChoices(), raw) then Some(raw) else None
  }

  function StreamViolations(raw: string): seq<Violation>
  {
    if CleanStream(raw).None? then [FieldViolation("stream")] else []
  }

  /** The stream field accepts exactly the letters of the three members:
      `v`, `a` and `s`, each of which is `str()` of a `StreamSpecifier`;
      an empty stream is rejected. */
  lemma StreamRequired(raw: string)
    ensures StreamViolations(raw) == [] <==> raw in {"v", "a", "s"}
    ensures StreamViolations(raw) == [] <==> exists m: StreamSpecifier :: raw == m.Value()
    ensures StreamViolations("") == [FieldViolation("stream")]
  {
    var choices := StreamChoices();
    assert choices[0].0 == "v" && choices[1].0 == "a" && choices[2].0 == "s";
    StreamSpecifierValues(Video);
    if raw in {"v", "a", "s"} {
      assert raw == Video.Value() || raw == Audio.Value() || raw == Subtitle.Value();
    }
  }

  /** A stream given as a member's letter passes the stream field. */
  lemma MemberStreamAccepted(m: StreamSpecifier)
    ensures StreamViolations(m.Value()) == []
    ensures CleanStream(m.Value()) == Some(m.Value())
  {
    StreamRequired(m.Value());
  }
}
