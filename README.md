# Ink/Stitch dispatcher and font JSON generator, modelled in Dafny

Ink/Stitch is run by Inkscape as a single script, `inkstitch.py`, once per
extension invocation. The script:

- decides at start-up whether it was started by Inkscape, whether a debugger
  or profiler is to be used, and how `sys.path` is ordered;
- turns the `--extension` name into the name of an extension class and
  instantiates that class;
- runs the extension at most once. In normal mode it runs exactly once,
  inside a failure boundary that turns every fault into a message for
  Inkscape. In debug or profile mode the faults escape unmediated, and the
  extension runs once unless the profiler name is not one the script knows.

The model also covers one extension, "Generate JSON" for lettering fonts.
It chooses the word spacing, units per em, leading and keywords of
`font.json` from the font file and the user's options.

Modules:

- `Collections` (collections.dfy): an `Option` type, and list filtering as
  comprehensions and append loops do it. Lemmas cover membership, order and
  the absence of duplicates.
- `PyText` (pytext.dfy): the `str` methods the code uses (`lower`, `title`,
  `replace`, `split`, `endswith`) and `capitalize`. Case mapping is on ASCII
  letters.
- `Startup` (startup.dfy): lines 21-114 of `inkstitch.py`. The script
  reassigns module-level variables; `Bootstrap` reassigns local variables in
  the same order and returns their final values. DEVEL.ini values, the
  environment, `sys.gettrace()`, `os.path.exists` and the pyinstaller
  marker are parameters.
- `Dispatch` (dispatch.dfy): class-name derivation and registry lookup.
  The class `Process` holds the stderr redirection flag, the shapely
  buffer, an ordered event trace (saves, restores, runs, messages to the
  user) and the way the process ends. Its `Dispatch` method runs the
  try/except/finally of lines 196-220, or the debug/profile branch.
- `LetteringJson` (lettering.dfy): `LetteringGenerateJson.effect`. The
  keyword loop is a method with a loop invariant. The value selections are
  functions. The output path follows POSIX `os.path.dirname`/`os.path.join`.

The extension's behaviour is an input. It is a value saying how the run ends
(normally, or raising `SystemExit`, `KeyboardInterrupt`, `XMLSyntaxError`,
an `InkstitchException` with its message, or any other exception) and what
the shapely logger wrote meanwhile. The module `lib.extensions` is a map
from class names to such values.

Two places where the code does less, or other, than a natural reading of it
suggests; the model follows the code:

- The comment `foo_bar_baz -> FooBarBaz` (inkstitch.py:138) reads as
  "capitalise each `_`-token and concatenate". The code calls `title()` and
  then removes `_` (inkstitch.py:139). The two agree on names made of letters
  and underscores (`ClassNameCapitalizesTokens`). They differ when a letter
  follows a digit (`DigitsBreakTokenCapitalization`: `a1b` gives `A1B`, the
  token reading `A1b`).
- The debug/profile branch (inkstitch.py:147-194) has one arm for `none` and
  one for each of `cprofile`, `profile` and `pyinstrument`, and no `else`. A
  profiler name outside these four runs nothing, and the script ends with
  status 0 (`Process.RunObserved`).

## Model

| member | source | states |
|---|---|---|
| `PyText.LowerStr` | inkstitch.py:30 | `lower()` keeps the length and lower-cases each character |
| `PyText.LowerStrIdempotent` | inkstitch.py:30 | lower-casing twice equals lower-casing once |
| `PyText.TitleAt` | inkstitch.py:139 | `title()` upper-cases a letter at the start or after a non-letter, and lower-cases every other letter |
| `PyText.Without` | inkstitch.py:139 | `replace("_", "")` leaves no `_`, is no longer than its input, and a character is in the result exactly when it is in the input and is not `_` |
| `PyText.WithoutKeepsOthers` | inkstitch.py:139 | `replace(c, "")` equals the filter keeping every character other than `c`: the others survive in order, repeats included |
| `PyText.WithoutAbsent` | inkstitch.py:139 | removing a character that does not occur leaves the string unchanged |
| `PyText.Split` | inkstitch.py:73 | `split(sep)` gives at least one part, and no part contains the separator |
| `PyText.JoinSplit` | inkstitch.py:73 | joining the parts of a split with the separator gives back the original string |
| `PyText.SplitJoin` | inkstitch.py:73 | splitting a join of separator-free parts gives back the parts |
| `Collections.FilterMembership` | inkstitch.py:75-79 | an entry survives a comprehension filter exactly when it was present and passes the test |
| `Collections.FilterIsSubsequence` | lib/extensions/lettering_generate_json.py:76-78 | filtering keeps the original relative order |
| `Collections.FilterFilter` | inkstitch.py:77-79 | filtering by one test and then another equals one filter by both tests, with repeated entries kept |
| `Collections.FilterDistinct` | lib/extensions/lettering_generate_json.py:76-78 | filtering a list without duplicates gives a list without duplicates |
| `Startup.RunningFromInkscape` | inkstitch.py:30-33 | the script was started by Inkscape unless the lower-cased INKSTITCH_OFFLINE_SCRIPT is `true`, `1`, `yes` or `y`; an unset variable means started by Inkscape |
| `Startup.RunningFromInkscapeIgnoresCase` | inkstitch.py:30 | the decision depends only on the lower-cased value |
| `Startup.OfflineSpellings` | inkstitch.py:30-33 | `TRUE` and `Yes` mean offline; `no` and the empty string mean started by Inkscape |
| `Startup.ReorderedPathParts` | inkstitch.py:73-81 | the new sys.path is two parts. First come the old entries not in PYTHONPATH, in sys.path order. Then come the PYTHONPATH entries that exist and do not end in `deprecated-simple`, in PYTHONPATH order. The second part is exactly one filter of PYTHONPATH by both tests, so a repeated entry stays repeated |
| `Startup.DeprecatedSimpleDropped` | inkstitch.py:75-77 | a PYTHONPATH entry ending in `deprecated-simple` is removed from sys.path altogether |
| `Startup.MovePythonpathToEnd` | inkstitch.py:63-81 | the filtering and `extend` steps produce the reordered path above |
| `Startup.Bootstrap` | inkstitch.py:21-114 | when frozen, debug and profile types stay `none`. The debugger setting is read only when no debugger is attached, and is forced to `none` when started by Inkscape with `disable_from_inkscape`. The bash script is written only in development mode, when started by Inkscape, with `create_bash_script`. After `debug.enable`, `debug_active` is the second probe. sys.path is reordered only when not frozen, with `prefer_pip_inkex` set and PYTHONPATH defined; otherwise it is unchanged. Without DEVEL.ini and without a debugger, neither mode is on |
| `Dispatch.ClassName` | inkstitch.py:138-139 | the derived class name contains no `_` and is no longer than the extension name |
| `Dispatch.ClassNameCapitalizesTokens` | inkstitch.py:138-139 | for a name of letters and underscores, the class name is each `_`-separated token capitalised, concatenated |
| `Dispatch.ClassNameExample` | inkstitch.py:138-139 | `foo_bar_baz` becomes `FooBarBaz` |
| `Dispatch.DigitsBreakTokenCapitalization` | inkstitch.py:139 | `a1b` becomes `A1B`, whereas capitalising tokens would give `A1b` |
| `Dispatch.Resolve` | inkstitch.py:136-142 | lookup succeeds exactly when a name was given and its class name is in the registry, and returns that entry. A missing name and an unknown class are fatal errors. An unknown class records the class name derived from the given name, which is not in the registry and has no `_` |
| `Dispatch.UncaughtReport` | inkstitch.py:211-212 | the report of an unclassified exception ends with the exception's own text |
| `Dispatch.ClassificationReport` | inkstitch.py:199-213 | the except clauses in order: a normal run, `SystemExit` and `KeyboardInterrupt` add no message. `XMLSyntaxError` adds the fixed "cannot read your SVG file" text with the File > Import hint. `InkstitchException` adds its own message verbatim. Any other exception adds a report carrying its text |
| `Dispatch.BufferReport` | inkstitch.py:217-218 | the shapely buffer is reported, as it is, exactly when it is non-empty |
| `Dispatch.ProtectedEnd` | inkstitch.py:201-220 | signals are re-raised unchanged. Any other unclassified exception exits 1. `XMLSyntaxError`, `InkstitchException` and a normal run exit 0 |
| `Dispatch.ObservedEnd` | inkstitch.py:147-195 | in debug/profile mode a normal run ends with status 0, and any fault leaves the script unclassified |
| `Dispatch.Process.constructor` | inkstitch.py:124 | at dispatch time stderr is not redirected, the shapely buffer is empty, nothing has happened yet |
| `Dispatch.Process.SaveStderr` | inkstitch.py:197 | `save_stderr` redirects stderr, which must not already be redirected |
| `Dispatch.Process.RestoreStderr` | inkstitch.py:215 | `restore_stderr` undoes the redirection |
| `Dispatch.Process.Report` | inkstitch.py:208 | `errormsg` appends one message to what the user sees and changes nothing else |
| `Dispatch.Process.Run` | inkstitch.py:200 | `extension.run` returns the extension's outcome, and the shapely logger appends to the buffer |
| `Dispatch.Process.RunProtected` | inkstitch.py:196-220 | the trace is: save, run, classification message, restore, buffer message. The end status follows the classification, and stderr is restored on every path |
| `Dispatch.Process.RunObserved` | inkstitch.py:147-195 | debug/profile mode runs the extension once for `none` and the three known profilers, and not at all for an unknown profiler name. A profiler writes its stats only after a run that returned. Stderr is never redirected and the shapely buffer is never reported; it holds what the extension's run wrote, or nothing when no run happened |
| `Dispatch.Process.Dispatch` | inkstitch.py:136-220 | a failed lookup ends the script before stderr is saved or anything runs, and nothing is reported. The failure boundary is used exactly when no debugger is active and the profile type is `none`. The extension runs at most once, and exactly once unless the profiler name is unknown. The final trace, buffer and ending are those of the chosen branch |
| `Dispatch.ProtectedMessages` | inkstitch.py:199-218 | the user sees the classification message, then the shapely buffer when non-empty. A signal adds no message of its own |
| `Dispatch.StderrPairedOnEveryPath` | inkstitch.py:197-215 | on every outcome stderr is saved once and restored once, and the extension runs once between the two |
| `Dispatch.BufferDrainedLast` | inkstitch.py:214-218 | a non-empty buffer is the last message, right after stderr is restored, on every outcome including a normal run and the exit-1 path |
| `Dispatch.FaultsAreReported` | inkstitch.py:203-220 | whatever the shapely buffer holds, every non-signal fault gives exactly one classification message (the fixed text, the domain message, or a report carrying the exception's text), shown first, followed by the buffer's text when it is non-empty |
| `Dispatch.ObservedRunsAtMostOnce` | inkstitch.py:147-194 | debug/profile mode never saves or restores stderr and reports nothing. It runs the extension once for known modes and zero times otherwise |
| `LetteringJson.WordSpacing` | lib/extensions/lettering_generate_json.py:59-63 | the user's word spacing when `use_custom_spacing` is set or the font's value is missing or 0; otherwise the font's (non-zero) value |
| `LetteringJson.UnitsPerEm` | lib/extensions/lettering_generate_json.py:65 | the font's units per em when it is non-zero, else the user's `leading` option |
| `LetteringJson.Leading` | lib/extensions/lettering_generate_json.py:66-71 | always either units per em or the user's leading. It is units per em exactly when that is non-zero and custom leading is off |
| `LetteringJson.LeadingFromFont` | lib/extensions/lettering_generate_json.py:65-71 | the leading written is the font's units per em when the font defines a non-zero value and custom leading is off, and the user's leading otherwise |
| `LetteringJson.CollectKeywords` | lib/extensions/lettering_generate_json.py:75-78 | the keywords are exactly the category ids whose flag is set. They are in category order, with no duplicate when the category ids are distinct |
| `LetteringJson.OutputPathIsFontJson` | lib/extensions/lettering_generate_json.py:50 | the output path always names a file `font.json` |
| `LetteringJson.OutputPathInFontDirectory` | lib/extensions/lettering_generate_json.py:50 | for `dir/file`, the output is `dir/font.json` |
| `LetteringJson.OutputPathWithoutDirectory` | lib/extensions/lettering_generate_json.py:50 | a bare font file name gives `font.json` |
| `LetteringJson.FontData` | lib/extensions/lettering_generate_json.py:81-98 | name, description, auto_satin, reversible, letter_case, default_glyph and size are copied from the options. letter spacing, horiz_adv_x, kerning pairs and glyphs are copied from the font. The selected values go in as given |
| `LetteringJson.Effect` | lib/extensions/lettering_generate_json.py:44-102 | if the font path is not a file, the "Please specify a font file." message goes to stderr and nothing is written. Otherwise the record goes to the output path, with the selected word spacing, units per em and leading. The keywords are exactly the font's category ids whose option is set, in category order and with repeats kept |

## Left out

- The interactive prompt when no argument is given (inkstitch.py:14-19): console input.
- Reading DEVEL.ini through configparser. The model takes the values after fallbacks (`Startup.DevelSettings`). `NoDevelIni` lists the fallbacks. A malformed boolean that would make `getboolean` raise is not modelled.
- The offline debug script contents and `debug.enable`. The model only records that they were called (`bashScriptWritten`, `debuggerEnabled`).
- The bash and debug file names (lines 41-43, 110-111), and the value of `wait_attach`.
- `warnings.filterwarnings` (lines 116-119) and the logging-handler wiring for shapely (lines 121-129). The buffer is a string that the extension's run appends to.
- ArgumentParser (lines 132-134; lettering lines 22-42), and forwarding the remaining arguments to `run`. The parsed options are an input record.
- An exception raised by the extension's constructor (line 142). It would escape like a failed lookup, but the model treats construction as always succeeding.
- Exceptions deriving from `BaseException` but not from `Exception`, other than `SystemExit` and `KeyboardInterrupt`. They would escape the boundary and are not modelled.
- The exit code carried by a re-raised `SystemExit`.
- The profilers' internals, stats files, HTML report and locator messages on stderr. A completed profiled run is one `ProfileWritten` event.
- `format_uncaught_exception`: lib/exceptions.py is not part of this model. Its report is a fixed header followed by the exception's text.
- `save_stderr` and `restore_stderr`: lib/utils.py is not part of this model. They are a redirected flag and trace events.
- Translation through `_()`: messages are the untranslated texts.
- `errormsg`: the inkex module is not part of this model. It appends one message to the trace.
- Unicode case mapping in `lower()` and `title()`: only ASCII letters are cased in the model. Other characters are unchanged and count as uncased.
- `FontFileInfo` parsing of the SVG font (lib/lettering/font_info.py is not part of this model) and `json.dump`. The font's values are an input, and the written file is the `Written` result.
- FONT_CATEGORIES (lib/lettering/categories.py is not part of this model): the list of category ids is a parameter.
- `min_scale` and `max_scale`, which are floats rounded to one decimal: left out of the record. `size` is a pass-through `real`.
- `os.path.isfile` and `os.path.exists` are predicate parameters. `os.path.dirname` and `os.path.join` are modelled with POSIX separators only; Windows path rules are left out.
