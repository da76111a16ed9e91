/** The shared base of the `ffmpeg` package: enums with a value and a name
    (`ChoiceEnum`), the stream specifier and log level enums, the choice field
    that accepts an enum class, the validate-or-raise protocol of every form,
    and `unrap_kwargs`. */
module FfmpegUtils {
  import opened Wrappers
  import opened Text

  // ---------------------------------------------------------------------
  // ChoiceEnum
  // ---------------------------------------------------------------------

  datatype EnumMember = EnumMember(name: string, value: string)

  /** An enum class, as the list of its members in declaration order. */
  type EnumClass = seq<EnumMember>

  /** `cls.values()`: the member values in declaration order. */
  function Values(cls: EnumClass): seq<string>
  {
    if cls == [] then [] else [cls[0].value] + Values(cls[1..])
  }

  /** `cls.choices()`: the `(value, name)` pairs in declaration order
      (the translation of the name is not modelled). */
  function Choices(cls: EnumClass): seq<(string, string)>
  {
    if cls == [] then [] else [(cls[0].value, cls[0].name)] + Choices(cls[1..])
  }

  /** `choices()` and `values()` walk the members in the same order:
      the i-th choice is the i-th value paired with the i-th member's name. */
  lemma {:induction false} ChoicesFollowValues(cls: EnumClass)
    ensures |Values(cls)| == |cls| && |Choices(cls)| == |cls|
    ensures forall i :: 0 <= i < |cls| ==> Values(cls)[i] == cls[i].value
    ensures forall i :: 0 <= i < |cls| ==> Choices(cls)[i] == (Values(cls)[i], cls[i].name)
  {
    if cls != [] {
      ChoicesFollowValues(cls[1..]);
    }
  }

  /** `str(member)`. */
  function Str(m: EnumMember): string
  {
    m.value
  }

  /** `member == other`, for a raw string `other`. */
  predicate Equals(m: EnumMember, other: string)
  {
    m.value == other
  }

  predicate DistinctValues(cls: EnumClass)
  {
    forall i, j :: 0 <= i < j < |cls| ==> cls[i].value != cls[j].value
  }

  /** The position of the member whose value is `value`, if any: the lookup
      by which `__eq__` against a raw value is characterised. */
  function IndexOf(cls: EnumClass, value: string): (r: Option<nat>)
    ensures r.Some? ==> r.value < |cls| && cls[r.value].value == value
    ensures r.None? ==> forall i :: 0 <= i < |cls| ==> cls[i].value != value
  {
    if cls == [] then None
    else if cls[0].value == value then Some(0)
    else match IndexOf(cls[1..], value)
      case Some(i) => Some(i + 1)
      case None => None
  }

  /** In an enum whose values are distinct, a member equals a raw value exactly
      when looking that value up in the enum yields the member. */
  lemma EqualsIffIndexOf(cls: EnumClass, i: nat, raw: string)
    requires DistinctValues(cls) && i < |cls|
    ensures Equals(cls[i], raw) <==> IndexOf(cls, raw) == Some(i)
  {
  }

  // ---------------------------------------------------------------------
  // StreamSpecifier and LogLevel
  // ---------------------------------------------------------------------

  const StreamSpecifierClass: EnumClass :=
    [EnumMember("Video", "v"), EnumMember("Audio", "a"), EnumMember("Subtitle", "s")]

  datatype StreamSpecifier = Video | Audio | Subtitle
  {
    function Index(): (i: nat)
      ensures i < |StreamSpecifierClass|
    {
      match this
      case Video => 0
      case Audio => 1
      case Subtitle => 2
    }

    /** `str(stream)`, the letter that follows `:` in a stream-qualified flag. */
    function Value(): string
    {
      StreamSpecifierClass[Index()].value
    }
  }

  /** Video, Audio and Subtitle map to `v`, `a` and `s`, in that order, and
      `str()` of a member reads back to the same member. */
  lemma StreamSpecifierValues(m: StreamSpecifier)
    ensures Values(StreamSpecifierClass) == ["v", "a", "s"]
    ensures Video.Value() == "v" && Audio.Value() == "a" && Subtitle.Value() == "s"
    ensures Str(StreamSpecifierClass[m.Index()]) == m.Value()
    ensures IndexOf(StreamSpecifierClass, m.Value()) == Some(m.Index())
  {
  }

  const LogLevelClass: EnumClass :=
    [ EnumMember("Quite", "quite"), EnumMember("Panic", "panic"), EnumMember("Fatal", "fatal")
    , EnumMember("Error", "error"), EnumMember("Warning", "warning"), EnumMember("Info", "info")
    , EnumMember("Verbose", "verbose"), EnumMember("Debug", "debug"), EnumMember("Trace", "trace") ]

  datatype LogLevel = Quite | Panic | Fatal | Error | Warning | Info | Verbose | Debug | Trace
  {
    function Index(): (i: nat)
      ensures i < |LogLevelClass|
    {
      match this
      case Quite => 0
      case Panic => 1
      case Fatal => 2
      case Error => 3
      case Warning => 4
      case Info => 5
      case Verbose => 6
      case Debug => 7
      case Trace => 8
    }

    /** `str(level)`. */
    function Value(): string
    {
      LogLevelClass[Index()].value
    }
  }

  /** Looking a log level's value up in the class finds that same level. */
  lemma LogLevelValues(l: LogLevel)
    ensures IndexOf(LogLevelClass, l.Value()) == Some(l.Index())
  {
    LogLevelDistinct();
    EqualsIffIndexOf(LogLevelClass, l.Index(), l.Value());
  }

  /** The log level values start with nine different letters. */
  lemma LogLevelDistinct()
    ensures DistinctValues(LogLevelClass)
  {
    LogLevelInitials();
    forall i, j | 0 <= i < j < |LogLevelClass|
      ensures LogLevelClass[i].value != LogLevelClass[j].value
    {
      assert LogLevelClass[i].value[0] != LogLevelClass[j].value[0];
    }
  }

  lemma LogLevelInitials()
    ensures forall i, j :: 0 <= i < j < |LogLevelClass| ==> LogLevelClass[i].value[0] != LogLevelClass[j].value[0]
  {
    var initials := "qpfewivdt";
    assert forall i :: 0 <= i < |LogLevelClass| ==> |LogLevelClass[i].value| > 0 && LogLevelClass[i].value[0] == initials[i];
  }

  // ---------------------------------------------------------------------
  // Python values, as far as the keyword-argument helpers look at them
  // ---------------------------------------------------------------------

  datatype PyValue =
    | PyNone
    | PyBool(b: bool)
    | PyInt(i: int)
    | PyStr(s: string)
    | PyMember(cls: EnumClass, index: nat)  // an enum member
    | PyEnumClass(cls: EnumClass)           // an Enum class object
    | PyDict(entries: map<string, PyValue>)
    | PyObject                              // any other object

  // ---------------------------------------------------------------------
  // EnumChoiceField
  // ---------------------------------------------------------------------

  /** The `choices` keyword of a choice field: missing, a `ChoiceEnum`
      subclass, an `Enum` class that is not one, or a list of
      `(value, label)` pairs. */
  datatype ChoicesArg =
    | NoChoices
    | EnumChoices(cls: EnumClass)       // a subclass of ChoiceEnum
    | PlainEnumChoices(cls: EnumClass)  // an Enum class outside ChoiceEnum
    | PairChoices(pairs: seq<(string, string)>)

  datatype FieldKwargs = FieldKwargs(choices: ChoicesArg, others: map<string, PyValue>)

  /** The keyword arguments `EnumChoiceField.__init__` hands on to `ChoiceField`. */
  function EnumChoiceFieldKwargs(k: FieldKwargs): (r: FieldKwargs)
    ensures r.others == k.others
    ensures !r.choices.EnumChoices?
  {
    match k.choices
    case EnumChoices(cls) => k.(choices := PairChoices(Choices(cls)))
    case _ => k
  }

  /** A `ChoiceEnum` class given as choices becomes its `choices()` list,
      whose values are the enum's values in order; any other choices, a plain
      `Enum` class among them, pass unchanged. */
  lemma EnumChoiceFieldOffersValues(k: FieldKwargs)
    ensures k.choices.EnumChoices? ==>
      var pairs := EnumChoiceFieldKwargs(k).choices.pairs;
      && |pairs| == |k.choices.cls|
      && forall i :: 0 <= i < |pairs| ==> pairs[i] == (k.choices.cls[i].value, k.choices.cls[i].name)
    ensures !k.choices.EnumChoices? ==> EnumChoiceFieldKwargs(k) == k
  {
    if k.choices.EnumChoices? {
      ChoicesFollowValues(k.choices.cls);
    }
  }

  // ---------------------------------------------------------------------
  // Forms: violations, errors, validate()
  // ---------------------------------------------------------------------

  /** A failed check: one field's constraint, or a cross-field rule of `clean()`
      carrying its message. */
  datatype Violation = FieldViolation(field: string) | FormViolation(message: string)

  /** The exceptions the builders let escape. */
  datatype Error =
    | ValueError(violations: seq<Violation>)  // raised by validate()
    | KeyError(key: string)                    // a clean() reading a field that failed
    | AttributeError(attribute: string)        // an attribute lookup that fails

  /** What `is_valid()` ends with: the collected violations, or an exception
      that escaped from `clean()`. */
  datatype FullClean = Checked(violations: seq<Violation>) | Crashed(error: Error)

  /** `BaseCommand.validate()`: the form itself when it is valid, otherwise the
      `ValueError` listing the violations (an exception from `clean()` escapes as is). */
  function Validate<T>(self: T, outcome: FullClean): (r: Result<T, Error>)
    ensures r.Ok? <==> outcome == Checked([])
    ensures r.Ok? ==> r.value == self
    ensures outcome.Crashed? ==> r == Err(outcome.error)
    ensures outcome.Checked? && outcome.violations != [] ==> r == Err(ValueError(outcome.violations))
  {
    match outcome
    case Crashed(e) => Err(e)
    case Checked(vs) => if vs == [] then Ok(self) else Err(ValueError(vs))
  }

  /** What `generate(as_str)` returns: the tokens joined with single spaces, or the list. */
  datatype Output = Joined(text: string) | Listed(tokens: seq<string>)

  function Render(asStr: bool, tokens: seq<string>): (r: Output)
    ensures asStr <==> r.Joined?
    ensures r.Joined? ==> r.text == Join(" ", tokens)
    ensures r.Listed? ==> r.tokens == tokens
  {
    if asStr then Joined(Join(" ", tokens)) else Listed(tokens)
  }

  // ---------------------------------------------------------------------
  // BaseFilter
  // ---------------------------------------------------------------------

  /** `cleaned_data['stream']` of a `BaseFilter`: the field is optional here,
      so a missing stream cleans to the empty string. */
  function CleanedStream(stream: Option<StreamSpecifier>): (r: string)
    ensures r == "" <==> stream.None?
    ensures stream.Some? ==> r in Values(StreamSpecifierClass)
  {
    match stream
    case None => ""
    case Some(s) => s.Value()
  }

  // ---------------------------------------------------------------------
  // unrap_kwargs
  // ---------------------------------------------------------------------

  predicate HasDataDict(kwargs: map<string, PyValue>)
  {
    "data" in kwargs && kwargs["data"].PyDict? && |kwargs["data"].entries| > 0
  }

  /** One step of the loop: `v.value` when `v` is an Enum class, `v` otherwise.
      An Enum class has no attribute `value` (no enum here has a member of
      that name), so the lookup fails. */
  function UnrapValue(v: PyValue): (r: Result<PyValue, Error>)
    ensures r.Err? <==> v.PyEnumClass?
    ensures r.Ok? ==> r.value == v
  {
    if v.PyEnumClass? then Err(AttributeError("value")) else Ok(v)
  }

  /** `unrap_kwargs(**kwargs)`: copies the `data` dict entry by entry. As written
      it fails on an Enum class and copies every other value unchanged, so when
      it succeeds it returns its argument. */
  method UnrapKwargs(kwargs: map<string, PyValue>) returns (r: Result<map<string, PyValue>, Error>)
    ensures r.Err? <==> HasDataDict(kwargs) && exists k :: k in kwargs["data"].entries && kwargs["data"].entries[k].PyEnumClass?
    ensures r.Err? ==> r.error == AttributeError("value")
    ensures r.Ok? ==> r.value == kwargs
  {
    if !HasDataDict(kwargs) {
      return Ok(kwargs);
    }
    var data := kwargs["data"].entries;
    var newData: map<string, PyValue> := map[];
    var todo := data.Keys;
    while todo != {}
      invariant todo <= data.Keys
      invariant newData.Keys == data.Keys - todo
      invariant forall k :: k in newData ==> newData[k] == data[k] && !data[k].PyEnumClass?
      decreases todo
    {
      var k :| k in todo;
      var v := UnrapValue(data[k]);
      if v.Err? {
        return Err(v.error);
      }
      newData := newData[k := v.value];
      todo := todo - {k};
    }
    assert newData == data;
    return Ok(kwargs["data" := PyDict(newData)]);
  }

  /** What the comment on `unrap_kwargs` asks for: an enum member is replaced
      by its value. */
  function UnwrapValueIntended(v: PyValue): (r: PyValue)
  {
    match v
    case PyMember(cls, i) => if i < |cls| then PyStr(cls[i].value) else v
    case _ => v
  }

  function UnrapKwargsIntended(kwargs: map<string, PyValue>): (r: map<string, PyValue>)
    ensures r.Keys == kwargs.Keys
    ensures HasDataDict(kwargs) ==> r["data"].PyDict? && r["data"].entries.Keys == kwargs["data"].entries.Keys
  {
    if HasDataDict(kwargs) then
      var data := kwargs["data"].entries;
      kwargs["data" := PyDict(map k | k in data :: UnwrapValueIntended(data[k]))]
    else kwargs
  }

  /** As written, an enum member in `data` comes back unchanged instead of as
      its value: `unrap_kwargs(data={'stream': StreamSpecifier.Video})` keeps the member. */
  lemma UnrapKeepsEnumMember()
    ensures UnrapValue(PyMember(StreamSpecifierClass, 0)) == Ok(PyMember(StreamSpecifierClass, 0))
    ensures UnwrapValueIntended(PyMember(StreamSpecifierClass, 0)) == PyStr("v")
  {
  }

  /** The intended version leaves no enum member of a known class in `data`:
      each becomes its value string, and every other value is copied. */
  lemma {:induction false} UnrapIntendedUnwrapsMembers(kwargs: map<string, PyValue>, k: string)
    requires HasDataDict(kwargs) && k in kwargs["data"].entries
    ensures var v := kwargs["data"].entries[k];
            var w := UnrapKwargsIntended(kwargs)["data"].entries[k];
            && (v.PyMember? && v.index < |v.cls| ==> w == PyStr(v.cls[v.index].value))
            && (!v.PyMember? ==> w == v)
  {
  }
}
