# ffmpeg command assembly, modelled in Dafny

This project models how the Django ffmpeg command generator turns form data
into an `ffmpeg` command line, and it proves properties of that model. There
are three builders:

- the form-based `Command` of the `ffmpeg` package, with its codec and
  filter forms (`Codec`, `BitstreamChannelFilter`, `ScaleFilter`);
- the stand-alone `utils` package copies of those forms;
- the older model-based `BaseCommand` of `models.py`.

Each source file is one module:

| module | source file | form |
|---|---|---|
| `FfmpegUtils` | `ffmpeg/utils.py` | enum choices, `validate()`, stream field, `unrap_kwargs` |
| `FfmpegCodecs` | `ffmpeg/codecs.py` | codec form of the `ffmpeg` package |
| `FfmpegFilters` | `ffmpeg/utils/filters.py` | bitstream and scale filter forms |
| `FfmpegGenerator` | `ffmpeg/generator.py` | the `Command` class, whose `generate()` fills `args` step by step |
| `CommandProperties` | `ffmpeg/generator.py` | what a generated command contains: option counts, order, placement |
| `GeneratorExamples` | `tests.py` | the worked commands of the test file, as lemmas and as sessions with a `Command` object |
| `Models` | `models.py` | the `BaseCommand` class, whose `command` list is never cleared |
| `UtilsBase` | `utils/base.py` | the required stream field |
| `UtilsCodecs` | `utils/codecs.py` | the codec form of the `utils` package, as a class with `args` |
| `UtilsFilters` | `utils/filters.py` | the bitstream and scale forms of the `utils` package, as classes with `args` |

Three helper modules (`Wrappers`, `Text`, `Renderings`) hold `Option`/`Result`,
Python's `str.join`, `str.split`, `str.replace` and `str()` of integers, and the
`str()`/`strftime` renderings of times, datetimes and decimals, each with a
parser that proves the rendering can be read back.

Django's form machinery is modelled by its outcome. Each form has a typed
record of its data. A violations function lists the field and `clean()`
failures in declaration order, or names the exception `clean()` raises.
`validate()` returns the form when there are no violations, raises
`ValueError` when there are some, and lets a crash through. `generate()`
methods that update state (`Command.args`, the `utils` forms' `args`,
`BaseCommand.command`) are class methods. Each is proved against a
specification function of the inputs and the old state.

Where the code and its description differ, the model follows the code:

- `ffmpeg/generator.py` looks up `self.stream_loop` rather than the cleaned
  value when it emits `-stream_loop`. Django removes declared fields from the
  class, so a non-zero stream loop makes `generate()` raise `AttributeError`
  after `-stream_loop` is appended. No `-stream_loop <n>` pair is ever emitted.
- `add_duration_before_input` emits `-t` before the input. A set duration is
  emitted again after the input, so `-t` appears twice. With no duration, the
  generator writes `-t None` and `models.py` raises `AttributeError`.
- `add_ss_position_before_input` is declared but never read: `-ss` always
  comes after the input.
- A failed `generate()` leaves `[path]` in `args`. The stream-loop failure
  leaves everything up to `-stream_loop`.
- Input and output are quoted and escaped in list mode too. `models.py` does
  not quote them.
- A codec may have both `copy` and a codec name; `copy` wins. A scale filter
  needs a width or `uiw`, and a height or `uih`. When both are given, `uiw`
  and `uih` win.
- A codec name outside the catalog, without `copy`, makes `clean()` raise
  `KeyError`. The field has already failed, so `cleaned_data` lacks the key.
- The `ffmpeg` package's stream field is optional: a bitstream filter without
  a stream emits `-bsf:` and a codec without one emits `-c`. The `utils`
  package requires the stream.
- The two scale filters treat `kar` with `foar` differently, and both are
  modelled as written. The `ffmpeg` package rejects `kar` unless `foar` is
  `disable`, and it omits `force_original_aspect_ratio=disable`. The `utils`
  package rejects `kar` with any `foar`, and it writes `disable` out.

## Model

| member | source | states |
|---|---|---|
| `FfmpegUtils.ChoicesFollowValues` | ffmpeg/utils.py:12-30 | `choices()` and `values()` list the members in declaration order; each choice pairs a value with its member's name |
| `FfmpegUtils.IndexOf` | ffmpeg/utils.py:22-23 | a found index holds the value; not found means no member has it |
| `FfmpegUtils.EqualsIffIndexOf` | ffmpeg/utils.py:22-23 | for distinct values, `member == raw` exactly when `raw` is found at that member's index |
| `FfmpegUtils.StreamSpecifierValues` | ffmpeg/utils.py:33-36 | the stream values are `v`, `a`, `s`; `str()` of a member is its value, found at its own index |
| `FfmpegUtils.LogLevelValues` | ffmpeg/utils.py:78-87 | looking up a log level's value in the class finds that same level |
| `FfmpegUtils.LogLevelDistinct` | ffmpeg/utils.py:78-87 | the nine log level values are pairwise distinct |
| `FfmpegUtils.LogLevelInitials` | ffmpeg/utils.py:78-87 | no two log levels share an initial letter |
| `FfmpegUtils.EnumChoiceFieldKwargs` | ffmpeg/utils.py:39-45 | only `choices` is rewritten, and it is never left as a `ChoiceEnum` class |
| `FfmpegUtils.EnumChoiceFieldOffersValues` | ffmpeg/utils.py:39-45 | a `ChoiceEnum` class becomes its `(value, name)` pairs in order; a plain `Enum` class and all other choices pass unchanged |
| `FfmpegUtils.Validate` | ffmpeg/utils.py:49-53 | returns the form itself exactly when there are no violations; violations raise `ValueError` with them; a crash passes through |
| `FfmpegUtils.Render` | ffmpeg/codecs.py:28 | `as_str` gives the tokens joined by spaces, otherwise the token list itself |
| `FfmpegUtils.CleanedStream` | ffmpeg/utils.py:60-61 | the cleaned stream is empty exactly when none is given, and is otherwise one of the stream values |
| `FfmpegUtils.UnrapValue` | ffmpeg/utils.py:69-73 | an enum class raises `AttributeError`; any other value, an enum member included, is copied unchanged |
| `FfmpegUtils.UnrapKwargs` | ffmpeg/utils.py:64-75 | fails exactly when `data` is a dict holding an enum class; otherwise the kwargs come back equal |
| `FfmpegUtils.UnrapKwargsIntended` | ffmpeg/utils.py:64-75 | the corrected version keeps the same keys in the kwargs and in `data` |
| `FfmpegUtils.UnrapKeepsEnumMember` | ffmpeg/utils.py:70-73 | as written, `StreamSpecifier.Video` stays a member; the corrected version gives `"v"` |
| `FfmpegUtils.UnrapIntendedUnwrapsMembers` | ffmpeg/utils.py:64-75 | the corrected version replaces each member by its value and copies everything else |
| `FfmpegCodecs.CodecValidIff` | ffmpeg/codecs.py:11-18 | a codec is valid exactly when it copies or names a codec, and any name it gives is in the catalog |
| `FfmpegCodecs.GenerateCodec` | ffmpeg/codecs.py:20-28 | `generate()` succeeds exactly when the codec is valid |
| `FfmpegCodecs.CodecRejectsUndefined` | ffmpeg/codecs.py:15-17 | neither copy nor a name raises `ValueError` with "Codec is not defined." |
| `FfmpegCodecs.CodecUnknownNameRaisesKeyError` | ffmpeg/codecs.py:16 | an unknown name without copy makes `clean()` raise `KeyError('codec')` |
| `FfmpegCodecs.CodecTokensRoundTrip` | ffmpeg/codecs.py:20-28 | two tokens; a bare `-c` exactly when no stream; `copy` when copying, else the catalog name; the tokens parse back to the codec's meaning |
| `FfmpegCodecs.CopyVideoExample` | tests.py:11-12 | a video copy codec generates `-c:v copy` |
| `FfmpegFilters.FilterValueInClass` | ffmpeg/utils/filters.py:6-20 | each filter's value is the one at its index in the enum |
| `FfmpegFilters.FilterValueShape` | ffmpeg/utils/filters.py:6-20 | every filter value is a non-empty name without a comma and without white space at either end |
| `FfmpegFilters.FilterValues` | ffmpeg/utils/filters.py:25 | `[f.value for f in filters]`, element by element |
| `FfmpegFilters.BitstreamFiltersRoundTrip` | ffmpeg/utils/filters.py:24-26 | the constructor keeps the stream; splitting its `filters` text at commas gives back the filter values; stripping leaves the text unchanged; it is valid exactly when there is a name and the text is at most 255 characters |
| `FfmpegFilters.GenerateBitstream` | ffmpeg/utils/filters.py:30-33 | succeeds exactly when the filter is valid |
| `FfmpegFilters.BitstreamTokensMeaning` | ffmpeg/utils/filters.py:30-33 | a valid filter yields `-bsf:<stream>` and its stripped filter text, which is 1 to 255 characters long with no white space at either end; `-bsf:` alone when there is no stream |
| `FfmpegFilters.BitstreamGenerates` | ffmpeg/utils/filters.py:30-33 | the joined text is `-bsf:<stream> <stripped filters>` |
| `FfmpegFilters.NewScaleFilter` | ffmpeg/utils/filters.py:51-57 | the constructor forces the video stream and keeps the options |
| `FfmpegFilters.ScaleValidIff` | ffmpeg/utils/filters.py:59-88 | valid exactly when both multipliers are within 1..10, `kar` only with `foar` disable, a width or `uiw`, and a height or `uih` |
| `FfmpegFilters.KarWithFoarRejected` | ffmpeg/utils/filters.py:79-80 | `kar` with `decrease` or `increase` is rejected with the KAR/FOAR message |
| `FfmpegFilters.GenerateScale` | ffmpeg/utils/filters.py:90-109 | succeeds exactly when the filter is valid |
| `FfmpegFilters.DimensionRoundTrip` | ffmpeg/utils/filters.py:92-99 | a width or height text has no `:` and parses back to input-size-or-number and multiplier |
| `FfmpegFilters.HeightRoundTrip` | ffmpeg/utils/filters.py:93-101 | the height text (with `-1` for `kar`) has no `:` and parses back to its meaning |
| `FfmpegFilters.ScaleExprRoundTrip` | ffmpeg/utils/filters.py:90-106 | the `scale=` expression parses back to width, height and the force-aspect suffix |
| `FfmpegFilters.ScaleExprRoundTripWithSuffix` | ffmpeg/utils/filters.py:103-106 | with the suffix, the expression parses back with the `foar` value |
| `FfmpegFilters.ScaleExprRoundTripWithoutSuffix` | ffmpeg/utils/filters.py:103 | without the suffix, it parses back with none |
| `FfmpegFilters.ScaleTokensMeaning` | ffmpeg/utils/filters.py:90-109 | a valid filter yields `-filter:v` and an expression that parses back to its options; the suffix appears exactly when `foar` is not disable |
| `FfmpegFilters.ScaleGenerates` | ffmpeg/utils/filters.py:108-109 | the joined text is `-filter:<stream> <scale expression>` |
| `FfmpegFilters.ScaleLiteralSizeExample` | tests.py:27-28 | width 1920, height 1080 gives `-filter:v scale=1920:1080` |
| `FfmpegFilters.ScaleInputSizeExample` | tests.py:30-31 | `uiw`, `uih` give `-filter:v scale=iw:ih` |
| `FfmpegFilters.ScaleWidthOnlyExample` | tests.py:33-34 | width 1920 with `uih` gives `-filter:v scale=1920:ih` |
| `FfmpegFilters.ScaleHeightOnlyExample` | tests.py:36-37 | height 1080 with `uiw` gives `-filter:v scale=iw:1080` |
| `FfmpegFilters.ScaleMultiplierExample` | tests.py:39-40 | multipliers 2 give `-filter:v scale=iw*2:ih*2` |
| `FfmpegFilters.ScaleKeepAspectExample` | tests.py:42-43 | `kar` with multiplier 3 gives `-filter:v scale=iw*3:-1` |
| `FfmpegFilters.ScaleForceAspectExample` | tests.py:45-46 | `foar` decrease gives the `force_original_aspect_ratio=decrease` suffix |
| `FfmpegFilters.BitstreamExample` | tests.py:15-16 | the audio `aac_adtstoasc` filter gives `-bsf:a aac_adtstoasc` |
| `FfmpegFilters.FilterViolations` | ffmpeg/generator.py:159-163 | a bitstream filter has no violations exactly when its stripped filter text is 1 to 255 characters long, and otherwise only the `filters` violation; a scale filter has none exactly when its multipliers lie in 1 to 10, `kar` comes only with foar `disable`, and each side is taken from the input or given as a nonzero number |
| `FfmpegFilters.FilterTokens` | ffmpeg/generator.py:87-89 | every filter yields two tokens |
| `FfmpegFilters.GenerateFilter` | ffmpeg/generator.py:87-89 | succeeds exactly when valid, with its rendered tokens; otherwise raises `ValueError` with its violations |
| `FfmpegGenerator.CleanTime` | ffmpeg/generator.py:33 | an empty text is no time; any other text is stripped and read with `%H:%M:%S.%f`, then `%H:%M:%S`; a cleaned time is a valid time of day |
| `FfmpegGenerator.CommandValidIff` | ffmpeg/generator.py:19-79 | a command is valid exactly when both paths are given, the log level is a choice, stream loop is at least -1, the size limit is non-negative, every time field cleans (empty, a text read by the two time formats, or a valid `time`), and the timestamp cleans (empty, a text `ParseDateTime` reads, or a valid `datetime`) |
| `FfmpegGenerator.CleanDateTime` | ffmpeg/generator.py:68 | an empty value is no timestamp; a text is read by `ParseDateTime`; a cleaned timestamp is a valid datetime |
| `FfmpegGenerator.CleanDateTimeReadsBack` | ffmpeg/generator.py:68 | a timestamp given as its `str()` text or as a `datetime` cleans to itself; a text `ParseDateTime` refuses is a violation |
| `FfmpegGenerator.CleanTimeReadsBack` | ffmpeg/generator.py:33 | a rendered time and a time value both clean to that time; text that does not parse fails |
| `FfmpegGenerator.NormalizeEscapesEach` | ffmpeg/generator.py:101-104 | the two replacements equal escaping each quote character separately |
| `FfmpegGenerator.UnescapeEscapeAll` | ffmpeg/generator.py:101-104 | removing the backslashes from the escaped text gives back the original |
| `FfmpegGenerator.QuoteRoundTrip` | ffmpeg/generator.py:101-108 | a quoted, escaped path reads back to the path |
| `FfmpegGenerator.EveryQuoteEscaped` | ffmpeg/generator.py:101-104 | after normalisation every quote character is preceded by a backslash |
| `FfmpegGenerator.QuotePlain` | ffmpeg/generator.py:106-108 | a path without quote characters is only wrapped in double quotes |
| `FfmpegGenerator.CodecArgs` | ffmpeg/generator.py:91-94 | at most one token per codec |
| `FfmpegGenerator.FilterArgs` | ffmpeg/generator.py:87-89 | exactly one token per filter |
| `FfmpegGenerator.CodecGenerates` | ffmpeg/generator.py:94 | a valid codec generates its directive text |
| `FfmpegGenerator.FilterGenerates` | ffmpeg/generator.py:89 | a valid filter generates its directive text |
| `FfmpegGenerator.Command.constructor` | ffmpeg/generator.py:11-15 | empty `args`, `codecs` and `filters`, with the given data |
| `FfmpegGenerator.Command.Validate` | ffmpeg/utils.py:49-53 | succeeds exactly when the data is valid, with the cleaned data; otherwise raises `ValueError` with the violations |
| `FfmpegGenerator.Command.AddCodec` | ffmpeg/generator.py:165-169 | appends the codec and returns the command exactly when it is valid; otherwise raises its error and keeps `codecs` |
| `FfmpegGenerator.Command.AddFilter` | ffmpeg/generator.py:159-163 | appends the filter and returns the command exactly when it is valid; otherwise raises and keeps `filters` |
| `FfmpegGenerator.Command.AddLogLevel` | ffmpeg/generator.py:110-112 | appends `-loglevel` and the level |
| `FfmpegGenerator.Command.AddDuration` | ffmpeg/generator.py:124-126 | appends `-t` and the duration, or `None` |
| `FfmpegGenerator.Command.AddItsoffset` | ffmpeg/generator.py:148-150 | appends `-itsoffset` and the offset |
| `FfmpegGenerator.Command.AddInputFile` | ffmpeg/generator.py:106-108 | appends `-i` and the quoted input |
| `FfmpegGenerator.Command.AddOverwriteOrNotExistingFiles` | ffmpeg/generator.py:114-119 | appends `-y` for true, `-n` for false, nothing for unset |
| `FfmpegGenerator.Command.AddFileSizeLimit` | ffmpeg/generator.py:128-130 | appends `-fs` and the limit |
| `FfmpegGenerator.Command.AddToPosition` | ffmpeg/generator.py:136-138 | appends `-to` and the position |
| `FfmpegGenerator.Command.AddSsPosition` | ffmpeg/generator.py:132-134 | appends `-ss` and the position |
| `FfmpegGenerator.Command.AddSseofPosition` | ffmpeg/generator.py:140-142 | appends `-sseof` and the position |
| `FfmpegGenerator.Command.AddTimestamp` | ffmpeg/generator.py:152-154 | appends `-timestamp` and the stamp |
| `FfmpegGenerator.Command.AddVn` | ffmpeg/generator.py:156-157 | appends `-vn` |
| `FfmpegGenerator.Command.AddAspect` | ffmpeg/generator.py:96-98 | appends `-aspect` and the decimal |
| `FfmpegGenerator.Command.AddOutputFile` | ffmpeg/generator.py:121-122 | appends the quoted output |
| `FfmpegGenerator.Command.AppendCodec` | ffmpeg/generator.py:94 | appends a valid codec's generated text |
| `FfmpegGenerator.Command.AppendFilter` | ffmpeg/generator.py:89 | appends a valid filter's generated text |
| `FfmpegGenerator.Command.AddCodecs` | ffmpeg/generator.py:91-94 | appends, in order, the codecs whose `before_input` matches |
| `FfmpegGenerator.Command.AddFilters` | ffmpeg/generator.py:87-89 | appends every filter, in order |
| `FfmpegGenerator.Command.AddBeforeInputOptions` | ffmpeg/generator.py:182-192 | appends log level, the early `-t`, and `-itsoffset`, each when set |
| `FfmpegGenerator.Command.AddAfterInputOptions` | ffmpeg/generator.py:199-226 | appends the after-input options in their fixed order |
| `FfmpegGenerator.Command.AddOverwriteAndLimits` | ffmpeg/generator.py:199-209 | appends overwrite, `-t`, `-fs` and `-to`, each when set |
| `FfmpegGenerator.Command.AddPositions` | ffmpeg/generator.py:211-220 | appends `-ss`, `-sseof` and `-timestamp` (`now` winning), each when set |
| `FfmpegGenerator.Command.AddVideoOptions` | ffmpeg/generator.py:222-226 | appends `-vn` and `-aspect`, each when set |
| `FfmpegGenerator.Command.AddFromCodecsToOutput` | ffmpeg/generator.py:194-235 | appends everything from the before-input codecs through the output |
| `FfmpegGenerator.Command.AddInputPart` | ffmpeg/generator.py:194-226 | appends before-input codecs, the input and the after-input options |
| `FfmpegGenerator.Command.AddOutputPart` | ffmpeg/generator.py:228-235 | appends the after-input codecs, the filters and the output |
| `FfmpegGenerator.Command.Generate` | ffmpeg/generator.py:171-238 | the new `args` and the outcome are those of the generation specification |
| `FfmpegGenerator.Command.GenerateFromCleaned` | ffmpeg/generator.py:181-238 | from `[path]` and cleaned data, `args` and the outcome follow the specification |
| `FfmpegGenerator.GenerateAgain` | ffmpeg/generator.py:177-178 | two calls on an unchanged command give the same outcome, because `args` is reset each time |
| `CommandProperties.Select` | ffmpeg/generator.py:181-235 | selecting the options or the directives of a token list never gives more tokens than the list has |
| `CommandProperties.SelectConcat` | ffmpeg/generator.py:181-235 | selection distributes over concatenation |
| `CommandProperties.CountOption` | ffmpeg/generator.py:181-235 | an option word occurs as often in a list as among its selected options |
| `CommandProperties.TimeStrNotFlag` | ffmpeg/generator.py:126 | a rendered time never looks like an option |
| `CommandProperties.OptTimeStrNotFlag` | ffmpeg/generator.py:126 | a rendered optional time, `None` included, never looks like an option |
| `CommandProperties.DateTimeStrNotFlag` | ffmpeg/generator.py:154 | a rendered timestamp never looks like an option |
| `CommandProperties.IntStrNotFlag` | ffmpeg/generator.py:130 | a rendered integer never looks like an option |
| `CommandProperties.DecimalStrNotFlag` | ffmpeg/generator.py:98 | a rendered decimal never looks like an option |
| `CommandProperties.QuoteNotFlag` | ffmpeg/generator.py:108 | a quoted path never looks like an option |
| `CommandProperties.LogLevelNotFlag` | ffmpeg/utils.py:78-87 | a log level value never looks like an option |
| `CommandProperties.DirectiveToken` | ffmpeg/codecs.py:28 | a flag joined with its value by a space is a directive token |
| `CommandProperties.CodecDirective` | ffmpeg/codecs.py:20-28 | a codec's generated text is a directive token |
| `CommandProperties.FilterDirective` | ffmpeg/utils/filters.py:30-33 | a filter's generated text is a directive token |
| `CommandProperties.BeforeInputSelect` | ffmpeg/generator.py:182-189 | the before-input part holds exactly its own options, and no directives |
| `CommandProperties.OverwriteSelect` | ffmpeg/generator.py:114-119 | the overwrite slot holds `-y`, `-n` or nothing |
| `CommandProperties.LengthSelect` | ffmpeg/generator.py:202-209 | `-t`, `-fs` and `-to` each appear when set |
| `CommandProperties.LimitSelect` | ffmpeg/generator.py:199-209 | overwrite and the length options, in that order |
| `CommandProperties.PositionSelect` | ffmpeg/generator.py:211-220 | `-ss`, `-sseof` and `-timestamp`, in that order |
| `CommandProperties.VideoSelect` | ffmpeg/generator.py:222-226 | `-vn` then `-aspect` |
| `CommandProperties.AfterInputSelect` | ffmpeg/generator.py:199-226 | the after-input options are the limit, position and video groups in order |
| `CommandProperties.CodecSelect` | ffmpeg/generator.py:91-94 | codec tokens are directives only |
| `CommandProperties.FilterSelect` | ffmpeg/generator.py:87-89 | filter tokens are directives only |
| `CommandProperties.InputSelect` | ffmpeg/generator.py:106-108 | the input slot contributes the single option `-i` |
| `CommandProperties.OutputSelect` | ffmpeg/generator.py:121-122 | the output slot contributes no option |
| `CommandProperties.GenerateOutcome` | ffmpeg/generator.py:171-238 | generation succeeds exactly when the data is valid and the stream loop is zero or unset; otherwise it leaves `[path]` with the violations, or the partial list with `AttributeError` |
| `CommandProperties.CommandEnds` | ffmpeg/generator.py:177-238 | a successful command starts with the path, ends with the quoted output, and has at least four tokens |
| `CommandProperties.CommandOptions` | ffmpeg/generator.py:181-235 | the options of a command, in order, are exactly its slot options |
| `CommandProperties.CommandDirectives` | ffmpeg/generator.py:194-232 | the directives are the before-input codecs, the after-input codecs, then the filters |
| `CommandProperties.OptionCount` | ffmpeg/generator.py:181-235 | every option word occurs as often as the slots say |
| `CommandProperties.InputOnce` | ffmpeg/generator.py:196-197 | `-i` occurs exactly once |
| `CommandProperties.InputPosition` | ffmpeg/generator.py:194-197 | `-i` and the quoted input sit right after the before-input options and codecs |
| `CommandProperties.InputSlot` | ffmpeg/generator.py:196-197 | the slots name `-i` once |
| `CommandProperties.DurationCount` | ffmpeg/generator.py:185-203 | `-t` occurs once for the early flag plus once for a set duration |
| `CommandProperties.DurationSlots` | ffmpeg/generator.py:185-203 | the same count, among the slots |
| `CommandProperties.OverwriteTriState` | ffmpeg/generator.py:114-119 | `-y` occurs once exactly when overwrite is true, `-n` once exactly when false |
| `CommandProperties.OverwriteSlots` | ffmpeg/generator.py:114-119 | the same counts, among the slots |
| `CommandProperties.BeforeInputCount` | ffmpeg/generator.py:182-189 | each before-input option occurs once when set and not otherwise |
| `CommandProperties.OverwriteCount` | ffmpeg/generator.py:114-119 | `-y` and `-n` counts in the overwrite slot |
| `CommandProperties.LengthCount` | ffmpeg/generator.py:202-209 | `-t`, `-fs` and `-to` counts |
| `CommandProperties.PositionCount` | ffmpeg/generator.py:211-220 | `-ss`, `-sseof` and `-timestamp` counts |
| `CommandProperties.VideoCount` | ffmpeg/generator.py:222-226 | `-vn` and `-aspect` counts |
| `CommandProperties.SlotCount` | ffmpeg/generator.py:181-226 | the count of any word among all slots, one term per option |
| `CommandProperties.TimestampRule` | ffmpeg/generator.py:217-220 | one `-timestamp` exactly when `now` or a stamp is set; it is followed by `now` when `timestamp_now`, else by the stamp |
| `CommandProperties.TimestampSlot` | ffmpeg/generator.py:217-220 | the slots name `-timestamp` once exactly when it is set |
| `CommandProperties.TimestampSplit` | ffmpeg/generator.py:217-220 | a timestamp pair in its slot is followed by its value in the command |
| `CommandProperties.SsFlagIgnored` | ffmpeg/generator.py:46-47 | changing `add_ss_position_before_input` changes nothing that `generate()` returns or leaves |
| `CommandProperties.SsFlagNotValidated` | ffmpeg/generator.py:46-47 | the flag does not affect validation |
| `CommandProperties.TextChecksAgree` | ffmpeg/generator.py:19-30 | text checks depend only on paths, log level and stream loop |
| `CommandProperties.TimeChecksAgree` | ffmpeg/generator.py:33-53 | time checks depend only on the four time fields |
| `CommandProperties.LimitChecksAgree` | ffmpeg/generator.py:58-68 | the remaining checks depend only on size limit, offset and timestamp |
| `CommandProperties.SsFlagCleaned` | ffmpeg/generator.py:46-47 | the flag passes through cleaning unchanged |
| `CommandProperties.SsFlagNotRead` | ffmpeg/generator.py:181-235 | the assembly after validation never reads the flag |
| `CommandProperties.SsFlagBeforeInput` | ffmpeg/generator.py:182-192 | the before-input part ignores the flag |
| `CommandProperties.SsFlagAfterInput` | ffmpeg/generator.py:199-226 | the after-input part ignores the flag |
| `CommandProperties.SsFlagPosition` | ffmpeg/generator.py:211-214 | `-ss` is placed the same whatever the flag |
| `CommandProperties.CodecStrings` | ffmpeg/generator.py:91-94 | one generated text per codec |
| `CommandProperties.CodecsPartition` | ffmpeg/generator.py:91-94 | the before-input and after-input codec texts together are a permutation of all codec texts |
| `CommandProperties.CodecPlacement` | ffmpeg/generator.py:91-94 | every codec text in a part comes from a codec whose `before_input` matches that part |
| `CommandProperties.FiltersInOrder` | ffmpeg/generator.py:87-89 | the i-th filter token is the i-th filter's text |
| `GeneratorExamples.TenMinutesCleans` | tests.py:51-53 | `"00:10:00"` cleans to ten minutes |
| `GeneratorExamples.ShortDurationCleans` | ffmpeg/generator.py:33 | `" 0:10:00"` also cleans to ten minutes, and the command with it cleans to the same data as with `"00:10:00"` |
| `GeneratorExamples.DurationDataCleans` | tests.py:51-53 | the command with paths and a ten-minute duration is valid and cleans to those values |
| `GeneratorExamples.PathsAndDurationClean` | tests.py:19-21 | a command with the two test paths and any duration that cleans is valid |
| `GeneratorExamples.CleanedPathsArgs` | ffmpeg/generator.py:181-235 | a command with only paths, a duration, after-input codecs and filters has arguments path, input, duration, codecs, filters, output |
| `GeneratorExamples.GeneratesJoined` | ffmpeg/generator.py:238 | a valid command with no stream loop generates its arguments joined by spaces |
| `GeneratorExamples.CopyVideoString` | tests.py:56 | the video copy codec is valid and its text is `-c:v copy` |
| `GeneratorExamples.AacToAscString` | tests.py:59 | the audio bitstream filter is valid and its text is `-bsf:a aac_adtstoasc` |
| `GeneratorExamples.FullHdString` | tests.py:23 | the 1920x1080 scale filter is valid and its text is `-filter:v scale=1920:1080` |
| `GeneratorExamples.PlainCommandExample` | tests.py:21-22 | the plain command generates `/usr/bin/ffmpeg -i "input.mp4" "output.mp4"` |
| `GeneratorExamples.ScaledExample` | tests.py:23-24 | with the scale filter it generates `... -filter:v scale=1920:1080 "output.mp4"` |
| `GeneratorExamples.DurationExample` | tests.py:53-54 | with a duration it generates `/usr/bin/ffmpeg -i "input.mp4" -t 00:10:00 "output.mp4"` |
| `GeneratorExamples.CopyExample` | tests.py:56-57 | after the copy codec it generates `... -t 00:10:00 -c:v copy "output.mp4"` |
| `GeneratorExamples.BitstreamCommandExample` | tests.py:59-61 | after the bitstream filter too it generates `... -c:v copy -bsf:a aac_adtstoasc "output.mp4"` |
| `GeneratorExamples.CommandSession` | tests.py:48-61 | one `Command` object, generating after each attachment, returns the three texts of the test |
| `GeneratorExamples.ScaleFilterSession` | tests.py:18-24 | one `Command` object returns the plain and the scaled texts of the test |
| `Renderings.ParseField` | ffmpeg/generator.py:33 | a `%H`, `%M` or `%S` field reads exactly when it has one or two digits and is below its bound |
| `Renderings.ParseFraction` | ffmpeg/generator.py:33 | a `%f` field reads exactly when it has one to six digits, and gives less than a second |
| `Renderings.ParseClock` | ffmpeg/generator.py:33 | a text read with `%H:%M:%S` is a valid time with no microseconds |
| `Renderings.ParseClockFraction` | ffmpeg/generator.py:33 | a text read with `%H:%M:%S.%f` is a valid time |
| `Renderings.ParseTime` | ffmpeg/generator.py:33 | a time read from the stripped text with either input format is a valid time |
| `Renderings.ParseClockFields` | ffmpeg/generator.py:33 | three one- or two-digit fields between colons read as a clock exactly when all are in range |
| `Renderings.ParseClockFractionParts` | ffmpeg/generator.py:33 | a clock, a dot and one to six digits read as the clock with the digits as leading microsecond digits |
| `Renderings.ParseTimeStrips` | ffmpeg/generator.py:33 | white space around the text does not change what is read |
| `Renderings.ParseTimeFields` | ffmpeg/generator.py:33 | a clock of one- or two-digit fields, with white space around it, reads exactly when in range |
| `Renderings.ParseTimeShortFraction` | ffmpeg/generator.py:33 | a clock followed by a short fraction reads with the fraction's digits padded on the right |
| `Renderings.OneDigitHourRead` | ffmpeg/generator.py:33 | `" 0:10:00"` reads as ten minutes |
| `Renderings.HalfSecondRead` | ffmpeg/generator.py:33 | `"00:10:00.5"` reads as ten minutes and 500000 microseconds |
| `Renderings.LateHourRefused` | ffmpeg/generator.py:33 | `"24:00:00"` is refused |
| `Renderings.ClockRoundTrip` | ffmpeg/generator.py:33 | `%H:%M:%S` is eight characters without a dot and reads back to the time without its microseconds |
| `Renderings.TimeStrRoundTrip` | ffmpeg/generator.py:126 | `str()` of a time parses back to that time |
| `Renderings.StrfTimeRoundTrip` | models.py:111 | `%H:%M:%S.%f` is fifteen characters with six fraction digits and parses back to the time |
| `Renderings.ParseDateTime` | ffmpeg/generator.py:68 | a datetime read from the stripped text is valid |
| `Renderings.DateTimeStrRoundTrip` | ffmpeg/generator.py:154 | `str()` of a datetime parses back to it |
| `Renderings.DecimalStrShape` | ffmpeg/generator.py:98 | `str()` of a decimal starts with a digit, or with `-` and a digit |
| `Text.Strip` | ffmpeg/generator.py:33 | `strip()` never lengthens a text and leaves no white space at either end |
| `Text.StripBlank` | ffmpeg/generator.py:33 | a text of white space only strips to nothing |
| `Text.JoinEnds` | ffmpeg/utils/filters.py:25 | a join of non-empty parts starts with the first part's first character and ends with the last part's last character |
| `Text.StripPadded` | ffmpeg/generator.py:33 | `strip()` removes exactly the white space around a text that has none at its ends |
| `Text.JoinCons` | ffmpeg/generator.py:238 | joining a head and a non-empty rest puts the separator between them |
| `Text.JoinAppend` | ffmpeg/generator.py:238 | joining two non-empty lists joins their joins |
| `Text.Split` | ffmpeg/utils/filters.py:25 | a split gives at least one part |
| `Text.SplitJoin` | ffmpeg/utils/filters.py:25 | splitting a comma join of comma-free parts gives the parts back |
| `Text.JoinLength` | ffmpeg/utils/filters.py:25 | the length of a join is the parts' lengths plus one separator between each pair |
| `Text.NatStrRoundTrip` | ffmpeg/generator.py:130 | `str()` of a natural number reads back |
| `Text.IntStr` | ffmpeg/generator.py:130 | `str()` of an integer is digits, possibly after a minus sign |
| `Text.IntStrRoundTrip` | ffmpeg/generator.py:130 | `str()` of any integer reads back to it |
| `Text.PadNatRoundTrip` | ffmpeg/generator.py:126 | a zero-padded field reads back to its number |
| `UtilsBase.StreamChoices` | utils/base.py:27 | the stream choices are `v`, `a`, `s` with their member names |
| `UtilsBase.CleanStream` | utils/base.py:26-28 | a stream that cleans keeps its text |
| `UtilsBase.StreamRequired` | utils/base.py:26-28 | the stream passes exactly when it is `v`, `a` or `s`, the value of some member; an empty stream fails |
| `UtilsBase.MemberStreamAccepted` | utils/base.py:6-9 | a member's value passes the stream field |
| `UtilsCodecs.GenerateCodec` | utils/codecs.py:18-26 | succeeds exactly when the codec is valid |
| `UtilsCodecs.Codec.constructor` | utils/base.py:13 | `args` starts empty |
| `UtilsCodecs.Codec.Generate` | utils/codecs.py:18-26 | on success `args` holds the two tokens and is returned rendered; on failure `args` is kept |
| `UtilsCodecs.CodecValidIff` | utils/codecs.py:8-16 | valid exactly when the stream is `v`, `a` or `s`, it copies or names a codec, and the name is in the catalog |
| `UtilsCodecs.CodecRejectsUndefined` | utils/codecs.py:12-14 | neither copy nor name raises with the stream violation, if any, then "Codec is not defined." |
| `UtilsCodecs.CodecUnknownNameRaisesKeyError` | utils/codecs.py:13 | an unknown name without copy raises `KeyError('codec')` |
| `UtilsCodecs.ValidCodecTokens` | utils/codecs.py:20-25 | a generated codec starts with `-c:v`, `-c:a` or `-c:s`, then `copy` or its catalog name |
| `UtilsCodecs.AgreesWithPackageCodec` | utils/codecs.py:7-26 | with a stream given, it checks and generates exactly as the `ffmpeg` package's codec |
| `UtilsCodecs.StreamlessCodecRejected` | utils/base.py:27-28 | without a stream it is rejected where the `ffmpeg` package's codec is accepted |
| `UtilsFilters.GenerateBitstream` | utils/filters.py:26-28 | succeeds exactly when the filter was validated first and is valid, with the stream and the stripped filters text checked |
| `UtilsFilters.BitstreamChannelFilter.constructor` | utils/filters.py:23-24 | not yet cleaned, `args` empty |
| `UtilsFilters.BitstreamChannelFilter.Validate` | utils/base.py:15-19 | sets `cleaned_data` and returns or raises as `validate()` does, checking the stripped filters text |
| `UtilsFilters.BitstreamChannelFilter.Generate` | utils/filters.py:26-28 | on success `args` holds `-bsf:<stream>` and the stripped filters text and is returned rendered; on failure `args` is kept |
| `UtilsFilters.BitstreamNeedsCleaning` | utils/filters.py:26-28 | without a prior `validate()` it raises `AttributeError('cleaned_data')`; after one it succeeds exactly when valid, emitting `-bsf:v`, `-bsf:a` or `-bsf:s` and the stripped filters, 1 to 255 characters with no white space at either end; otherwise it raises `KeyError` for the first failing field |
| `UtilsFilters.BlankFiltersRefused` | utils/filters.py:24-28 | a filters text of blanks only fails the required check, and generating raises `KeyError('filters')` |
| `UtilsFilters.PaddedFiltersStripped` | utils/filters.py:24-28 | `" chomp "` is valid and is emitted as `chomp` |
| `UtilsFilters.AgreesWithPackageBitstream` | utils/filters.py:23-28 | with a stream member it is valid, and generates, exactly as the `ffmpeg` package's filter |
| `UtilsFilters.GenerateScale` | utils/filters.py:86-105 | succeeds exactly when the filter is valid |
| `UtilsFilters.ScaleFilter.constructor` | utils/filters.py:46-53 | a data dict gets the video stream; no dict gives empty data |
| `UtilsFilters.ScaleFilter.Generate` | utils/filters.py:86-105 | on success `args` holds the two tokens and is returned rendered; on failure `args` is kept |
| `UtilsFilters.ScaleInitForcesVideo` | utils/filters.py:46-53 | given data becomes video-stream data; no data fails on the stream and the width |
| `UtilsFilters.ScaleValidIff` | utils/filters.py:55-84 | valid exactly when the stream is given, multipliers are within 1..10, `kar` has no `foar`, and width and height are each given or taken from the input |
| `UtilsFilters.KarRejectsAnyFoar` | utils/filters.py:75-76 | `kar` with any `foar` is rejected with this copy's message |
| `UtilsFilters.ScaleTokensMeaning` | utils/filters.py:86-105 | a valid filter yields `-filter:v` and an expression that parses back to its options, with the suffix exactly when `foar` is set |
| `UtilsFilters.CopiesAgreeOnActiveFoar` | utils/filters.py:101-102 | with `decrease` or `increase` both copies accept the same filters and emit the same tokens |
| `UtilsFilters.CopiesDisagreeOnDisable` | utils/filters.py:101-102 | with `disable`, this copy rejects `kar` and writes the `disable` suffix, which the `ffmpeg` package omits |
| `UtilsFilters.CopiesDisagreeOnNoFoar` | utils/filters.py:75-76 | with no `foar`, this copy accepts `kar` where the `ffmpeg` package rejects it |
| `Models.BaseCommand.constructor` | models.py:10-13 | `command` starts as the ffmpeg path alone |
| `Models.BaseCommand.AddTime` | models.py:109-111 | a set time appends the flag and `%H:%M:%S.%f`; a missing one appends the flag and raises `AttributeError` |
| `Models.BaseCommand.AddLogLevel` | models.py:99-101 | appends `-loglevel` and `str()` of the level |
| `Models.BaseCommand.AddDuration` | models.py:109-111 | appends `-t` and the duration, or raises after `-t` when there is none |
| `Models.BaseCommand.AddItsoffset` | models.py:138-140 | appends `-itsoffset` and the offset |
| `Models.BaseCommand.AddStreamLoop` | models.py:134-136 | appends `-stream_loop` and the count |
| `Models.BaseCommand.AddInputFile` | models.py:95-97 | appends `-i` and the path text, or raises `ValueError` after `-i` for another type |
| `Models.BaseCommand.AddOverwriteOrNotExistingFiles` | models.py:103-104 | appends `-y` or `-n` |
| `Models.BaseCommand.AddOutputFile` | models.py:106-107 | appends the output text, or raises `ValueError` for another type |
| `Models.BaseCommand.AddFileSizeLimit` | models.py:118-120 | appends `-fs` and the limit |
| `Models.BaseCommand.AddToPosition` | models.py:126-128 | appends `-to` and the position |
| `Models.BaseCommand.AddSsPosition` | models.py:122-124 | appends `-ss` and the position |
| `Models.BaseCommand.AddSseofPosition` | models.py:130-132 | appends `-sseof` and the position |
| `Models.BaseCommand.AddTimestamp` | models.py:142-144 | appends `-timestamp` and `now` or the stamp |
| `Models.BaseCommand.AddVn` | models.py:146-147 | appends `-vn` |
| `Models.BaseCommand.AddAspect` | models.py:91-93 | appends `-aspect` and the decimal |
| `Models.BaseCommand.AddBeforeInput` | models.py:157-168 | appends the before-input options, or stops with `AttributeError` after a dangling `-t` |
| `Models.BaseCommand.AddLimit` | models.py:174-183 | appends overwrite, `-t`, `-fs` and `-to` |
| `Models.BaseCommand.AddPosition` | models.py:185-192 | appends `-ss`, `-sseof` and `-timestamp` |
| `Models.BaseCommand.AddVideo` | models.py:194-198 | appends `-vn` and `-aspect` |
| `Models.BaseCommand.AddAfterInput` | models.py:173-198 | appends the after-input options in order |
| `Models.BaseCommand.Generate` | models.py:149-208 | `command` grows by one run's tokens; the result is the whole `command` or the run's exception |
| `Models.GenerateTwice` | models.py:11-12 | a second call returns the path and the first call's tokens twice, because `command` is never cleared |
| `Models.RunFailures` | models.py:82-89 | a run fails exactly when an early duration is missing or a path is not text, with the tokens left and the exception for each case |
| `Models.PathsVerbatim` | models.py:95-107 | `-i` and the unquoted input follow the before-input options; a completed run ends with the unquoted output |
| `Models.OverwriteAlways` | models.py:103-104 | right after the input comes `-y` or `-n`, always |
| `Models.DefaultRun` | models.py:24 | a row with only its paths runs `-i <input> -y <output>` |
| `Models.DurationTwice` | models.py:161-177 | with the early flag and a duration, `-t d` appears before the input and again after overwrite |
| `Models.FlagOrder` | models.py:157-205 | the options of a completed run are exactly the set fields' flags, in the fixed slot order |
| `Models.StrfTimeNotFlag` | models.py:111 | `%H:%M:%S.%f` never looks like an option |
| `Models.TimeSelect` | models.py:122-132 | a time option contributes its flag when set |
| `Models.IntSelect` | models.py:118-120 | an integer option contributes its flag when non-zero |
| `Models.BeforeInputSelect` | models.py:157-168 | before-input flags in order |
| `Models.LimitSelect` | models.py:174-183 | overwrite and length flags in order |
| `Models.PositionSelect` | models.py:185-192 | position flags in order |
| `Models.VideoSelect` | models.py:194-198 | video flags in order |
| `Models.AfterInputSelect` | models.py:173-198 | after-input flags in order |
| `Models.TimestampRule` | models.py:142-144 | `-timestamp` appears exactly when `now` or a stamp is set, followed by `now` when `timestamp_now`, else by the stamp |
| `Models.TimestampSplit` | models.py:191-192 | the timestamp pair is followed by its value in the command |
| `Models.TimestampInFlags` | models.py:191-192 | `-timestamp` is among the flags exactly when it is set |

## Left out

- Translation (`ugettext_lazy`), labels, and Django form rendering are not part of this model. They do not change any generated token.
- Django's parsing of typed values is left out beyond what the fields check. Number, boolean and decimal fields take values that are already typed. Time fields take text or a `time`, and the timestamp takes text or a `datetime`. A `date` given to the timestamp field, and time zones, are not modelled.
- Renderings.ParseTime: `strip()` is modelled for ASCII white space only, and a field digit is an ASCII digit. Python also strips Unicode white space, and strptime's `\d` also matches other Unicode decimal digits. Both are refused here.
- Renderings.ParseDateTime: reads only `YYYY-MM-DD`, white space and a time, the form `str()` writes. The timestamp field takes its input formats from the Django settings and locale (`%Y-%m-%d %H:%M`, `%Y-%m-%d`, `%m/%d/%Y ...`, one-digit months and days). Those forms come from configuration this model does not have, so they are refused here.
- `FFMPEG_PATH` is a parameter: the constructor's path in the `ffmpeg` package and in `models.py`. The catalog of `get_codecs()`, read from the `ffmpeg` executable, is a `catalog` set carried by each codec.
- Running the command is not part of this model. This covers `utils/ffmpeg.py`, `utils/main.py`, `utils/log.py`, both `ffprobe.py` files and `ffmpeg/utils/video.py`.
- The presets of `ffmpeg/utils.py` (lines 90-127 and after) are left out, because no generated command reads them.
- `_add_additional_kwargs` of `models.py` and the `**kwargs` of its `generate()` are left out. The loop iterates over the dict's keys and unpacks each key into two values. A two-character key such as `"ss"` appends its two characters (`s`, then `s`) and drops the value. A key of any other length raises `ValueError`. The model's `generate()` takes no extra arguments.
- The `FileField`/`ImageField` branch of `_get_io_path` is left out. A path value is text or another type, and another type raises.
- Python versions before 3.5 treat midnight as false. The model treats every set time as true.
- `CharField` strips surrounding white space from the two paths. The model takes path text as given.
- `utils/filters.py` imports `EnumChoiceField` and `ChoiceEnum` from `utils/base.py`, which does not define them. The model uses the `ffmpeg/utils.py` definitions.
- Aliasing is not modelled. `ScaleFilter.__init__` of `utils/filters.py` writes the stream into the caller's dict, and `generate(as_str=False)` returns the `args` list object itself: both are modelled as values.
- The shell escaping of `_normalize` covers only the two quote characters. The model states exactly that: backslashes, `$` and back-quotes pass through unescaped.
- CommandProperties.CommandOptions: stated only when the program path does not look like an option (it does not start with `-`) and the cleaned log level is empty or one of the choices, as cleaning ensures. The same holds for `CommandDirectives`, `OptionCount`, `InputOnce`, `DurationCount`, `OverwriteTriState` and `TimestampRule`. A path that starts with `-` would be counted among the options.
- CommandProperties.CommandDirectives: needs the same path condition as `CommandOptions`.
- CommandProperties.OptionCount: needs the same path condition as `CommandOptions`.
- CommandProperties.InputOnce: needs the same path condition as `CommandOptions`.
- CommandProperties.DurationCount: needs the same path condition as `CommandOptions`.
- CommandProperties.OverwriteTriState: needs the same path condition as `CommandOptions`.
- CommandProperties.TimestampRule: needs the same path condition as `CommandOptions`.
- Models.FlagOrder: stated only for a completed run whose path texts and log level do not start with `-`, since such a text would itself read as a flag.
- Models.TimestampRule: needs the same condition as `Models.FlagOrder`.

## Findings

| source | as written | input that shows it | evidently intended | confidence | as-written member | corrected member |
|---|---|---|---|---|---|---|
| ffmpeg/utils.py:70-71 | `unrap_kwargs` unwraps a value only when it is an enum class (`inspect.isclass(v)`), and then reads the class's `value`, which raises `AttributeError`; enum members pass through unchanged | `data={'stream': StreamSpecifier.Video}` keeps the member instead of giving `"v"` | replace each enum member by its `value` and copy everything else | not executed | `FfmpegUtils.UnrapKeepsEnumMember` | `FfmpegUtils.UnrapIntendedUnwrapsMembers` |
