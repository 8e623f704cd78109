# OpenSesame utilities and console colours, modelled in Dafny

This project models two parts of OpenSesame, the program for building and
running behavioural experiments.

- The helpers in `libopensesame/misc.py`:
  - `strip_tags` turns HTML breaks into newlines and deletes every other tag.
  - The post-processing in `opensesamerun_options` runs on optparse's
    result. It fills in the default log file name `subject<subject>.csv`,
    takes the experiment from `sys.argv[1]`, and converts subject, width
    and height to integers. The first one that does not convert stops the
    run with a message.
  - `opensesamerun_ready` needs the experiment to exist and the log file
    to open for writing. Opening the log file also truncates it.
  - `resource` looks a file up under `resources`, then on POSIX systems
    under `/usr/share/opensesame/resources/`.
  - `home_folder` reads `USERPROFILE` on Windows and `HOME` everywhere
    else. On a platform other than Windows, Darwin or Linux it also
    prints a notice.
- The debug console's colouring in
  `libqtopensesame/console/_ipython_console.py`:
  - `_style` looks up a colour in a QProgEdit colour scheme. A missing
    name gives black, and a tuple value gives its first element.
  - `pygments_style_factory` builds the fixed table that maps eight
    Pygments token categories to scheme names.
  - The guard in `setTheme` does nothing and returns `''` when the
    configured scheme does not exist.

Modules:

| module | file | what it holds |
|---|---|---|
| `Wrappers` | `wrappers.dfy` | `Option` and `Result` |
| `Markup` | `markup.dfy` | `str.replace`, `str.count` and the lazy `<.*?>` substitution as scanners; `StripTags` and its lemmas |
| `Numeric` | `numeric.dfy` | Python 2's `int()` on a `str`, and `"%s" % n` on an integer |
| `Runner` | `runner.dfy` | the options as values (`Finish`, `Options`), optparse's `Values` object as a class updated in place by `PostProcess`, a `FileSystem` class and the `Ready` method |
| `Paths` | `paths.dfy` | `os.path.join("resources", name)` under POSIX and Windows, `Resource`, `HomeFolder` |
| `ConsoleStyle` | `console_style.dfy` | `Style`, `SchemeKey`, `PygmentsStyle`, `SetTheme` |

The file system, the environment, `os.name` and `platform.system()` are
parameters:

- `Resource` takes a set of existing paths.
- `HomeFolder` takes a platform name and an environment map.
- `Ready` takes a `FileSystem` object. Its `files` map changes when a file
  is opened for writing.

An exception becomes a `None` or a `Failure`. A `parser.error` exit becomes
the error message that `PostProcess` returns.

The model follows the code in four places where it does something less
obvious than a summary of its behaviour would suggest:

- The default log file uses the subject exactly as typed, before the
  integer conversion. `-s 007` gives `subject007.csv` and subject 7
  (`OptionsLogfileFromRawSubject`, `OptionsOnlySubject`,
  `Numeric.ParseIntLeadingZeros`).
- The experiment is the raw `sys.argv[1]`, not the first positional
  argument. The condition `os.path.exists` on line 92 names the function
  without calling it, so it is always true.
- The options object is not immutable after parsing. Post-processing
  reassigns its fields one after another, and the `Values` class models
  that.
- Python 2's `int()` skips whitespace again after a sign, so `int("- 5")`
  is -5 (`Numeric.ParseIntSpacedSign`, `Numeric.ParseIntAcceptsSpacedSign`).
  A subject typed as `"- 5"` is accepted as -5.
- `_style` on a tuple value with no elements raises IndexError. So the
  style table can fail to build, though only for such a scheme
  (`PygmentsStyleTotal`, `PygmentsStyleEmptyTuple`).

## Model

| member | source | states |
|---|---|---|
| Markup.StripTags | libopensesame/misc.py:159-172 | no contract of its own; described by the `StripTags…` lemmas below |
| Markup.ReplaceAll | libopensesame/misc.py:172 | no contract of its own (`str.replace`); described by `ReplaceAllLength`, `ReplaceAllCount`, `ReplaceAllAbsent`, `ReplaceAllOfTagFree` |
| Markup.Occurrences | libopensesame/misc.py:172 | no contract of its own (`str.count`); described by `ReplaceAllLength`, `ReplaceAllCount` |
| Markup.CloseAt | libopensesame/misc.py:172 | where the lazy `<.*?>` match ends: the first `>` with no `>` or newline before it; `None` only when every `>` comes after a newline |
| Markup.RemoveTags | libopensesame/misc.py:172 | deleting the tags never makes the text longer |
| Markup.ReplaceAllLength | libopensesame/misc.py:172 | each replacement of `str.replace` adds the length of `rep` and takes away the length of `pat`, counted by the `str.count` scan |
| Markup.ReplaceAllCount | libopensesame/misc.py:172 | a character that is not in the pattern keeps its count and gains its count in `rep` once per replacement |
| Markup.ReplaceAllAbsent | libopensesame/misc.py:172 | when the pattern's first character does not occur, `str.replace` returns its input |
| Markup.RemoveTagsTagFree | libopensesame/misc.py:172 | the substitution leaves no `<…>` on one line |
| Markup.RemoveTagsOfTagFree | libopensesame/misc.py:172 | on text without tags the substitution is the identity |
| Markup.RemoveTagsNewlines | libopensesame/misc.py:172 | tags never span a newline, so the substitution keeps every newline |
| Markup.ReplaceAllOfTagFree | libopensesame/misc.py:172 | replacing a pattern that is itself a tag leaves tag-free text unchanged |
| Markup.StripTagsBoldBreak | libopensesame/misc.py:172 | for any `x`, `y` without `<`: `<b>x</b><br>y` becomes `x`, newline, `y` |
| Markup.StripTagsExample | libopensesame/misc.py:172 | `"<b>Hi</b><br>there"` becomes `"Hi\nthere"` |
| Markup.StripTagsShorter | libopensesame/misc.py:172 | the result is never longer than the input |
| Markup.StripTagsNewlines | libopensesame/misc.py:172 | newlines out = newlines in + one per `<br />` + one per `<br>` from the second pass |
| Markup.StripTagsTagFree | libopensesame/misc.py:172 | no tag is left in the result |
| Markup.StripTagsIdempotent | libopensesame/misc.py:172 | stripping the result again changes nothing |
| Markup.StripTagsPlainText | libopensesame/misc.py:172 | a string without `<` comes back unchanged |
| Numeric.TrimLeft | libopensesame/misc.py:98 | the leading whitespace that `int()` skips is gone, and the result is a suffix of the input |
| Numeric.TrimRight | libopensesame/misc.py:98 | the trailing whitespace that `int()` skips is gone, and the result is a prefix of the input |
| Numeric.Digits | libopensesame/misc.py:90 | `%s` of a natural number is a non-empty run of digits with no leading zero |
| Numeric.ParseInt | libopensesame/misc.py:98-108 | no contract of its own (Python 2 `int()`); described by the `ParseInt…` lemmas and `ParseDecimal` |
| Numeric.ParseLiteral | libopensesame/misc.py:98-108 | no contract of its own (the literal once the outer whitespace is gone); described by `ParseIntNeedsDigit`, `ParseIntOfDigits`, `ParseIntOfSigned`, `ParseIntSpacedSign` |
| Numeric.Decimal | libopensesame/misc.py:90 | no contract of its own (`"%s" % n`); described by `ParseDecimal` |
| Numeric.ParseIntNeedsDigit | libopensesame/misc.py:97-100 | `int()` succeeds only on text that contains a digit |
| Numeric.ParseIntOfDigits | libopensesame/misc.py:98 | a bare run of digits converts to its value |
| Numeric.DigitsValueOfDigits | libopensesame/misc.py:90 | reading back the digits of `n` gives `n` |
| Numeric.ParseDecimal | libopensesame/misc.py:90-98 | `int("%s" % n) == n` for every integer `n` |
| Numeric.ParseIntIgnoresBlanks | libopensesame/misc.py:98 | whitespace around the literal does not change what `int()` returns |
| Numeric.ParseIntOfSigned | libopensesame/misc.py:98 | a minus sign directly before the digits negates their value |
| Numeric.ParseIntSpacedSign | libopensesame/misc.py:98 | blanks between a minus sign and the digits are skipped, and the value is still negated |
| Numeric.DigitsValueLeadingZeros | libopensesame/misc.py:98 | zeros in front of a run of digits do not change its value |
| Numeric.ParseIntLeadingZeros | libopensesame/misc.py:98 | leading zeros are accepted and ignored, so `int("007")` is `int("7")` |
| Numeric.ParseIntAcceptsSpacedSign | libopensesame/misc.py:98 | `int("- 5")` is -5 |
| Numeric.ParseIntRejectsExponent | libopensesame/misc.py:97-100 | `int("1e3")` raises |
| Runner.Parse | libopensesame/misc.py:62-86 | no contract of its own (the option defaults optparse fills in); described by `OptionsDefaults`, `OptionsOnlySubject` |
| Runner.DefaultLogfile | libopensesame/misc.py:89-90 | no contract of its own; described by `OptionsLogfileFromRawSubject`, `OptionsExplicitLogfile` |
| Runner.Experiment | libopensesame/misc.py:92-95 | no contract of its own; described by `OptionsExperimentAndFlags`, `NoArgumentNoExperiment` |
| Runner.ToInt | libopensesame/misc.py:97-110 | no contract of its own (one `int()` check and its message); described by `OptionsChecks`, `OptionsNonNumericFails` |
| Runner.Finish | libopensesame/misc.py:88-112 | no contract of its own; described by `OptionsChecks` and `Values.PostProcess` |
| Runner.Options | libopensesame/misc.py:62-112 | no contract of its own (`opensesamerun_options` as a value); described by the `Options…` lemmas |
| Runner.OptionsDefaults | libopensesame/misc.py:62-69 | with no option: subject 0, log file `subject0.csv`, 1024 x 768, all flags false |
| Runner.OptionsLogfileFromRawSubject | libopensesame/misc.py:89-98 | without `-l`, the log file carries the subject text as typed, and the subject is that text's integer |
| Runner.OptionsOnlySubject | libopensesame/misc.py:62-112 | `-s` alone with numeric text gives exactly the defaults plus that subject and `subject<text>.csv` |
| Runner.OptionsExplicitLogfile | libopensesame/misc.py:89-90 | a given log file is kept |
| Runner.OptionsExperimentAndFlags | libopensesame/misc.py:92-95 | the experiment is `argv[1]` or `""`; the four flags pass through |
| Runner.OptionsChecks | libopensesame/misc.py:97-112 | the subject, width and height checks run in that order and the first failure gives its message (each an iff); success means all three convert, to the values stored |
| Runner.OptionsNonNumericFails | libopensesame/misc.py:97-110 | non-numeric text in any of the three options makes the call fail |
| Runner.Values.constructor | libopensesame/misc.py:86 | the object holds optparse's values, before any experiment is set |
| Runner.Values.PostProcess | libopensesame/misc.py:88-112 | the fields are updated in place to the result of `Finish` on the old fields; the error is returned exactly when `Finish` fails; the log file is always set and the experiment is `argv[1]` or `""` |
| Runner.FileSystem.constructor | libopensesame/misc.py:126-132 | the file system holds the given files, directories and writable paths, and these satisfy `Valid`: the empty path names nothing, no path is both a file and a directory, no directory is writable |
| Runner.FileSystem.OpenForWriting | libopensesame/misc.py:132 | `open(path, "w")` succeeds exactly on a writable path and leaves an empty file there; otherwise nothing changes; `Valid` is kept |
| Runner.Ready | libopensesame/misc.py:126-137 | a missing experiment (`""` included) means not ready and no change; otherwise ready iff the log file opens for writing, which leaves it existing and empty; `Valid` is kept |
| Runner.NoArgumentNoExperiment | libopensesame/misc.py:92-95 | with nothing after the program name the experiment is `""`, so by `Ready` the run is not ready |
| Paths.LocalPath | libopensesame/misc.py:186 | the joined path ends with the name |
| Paths.Resource | libopensesame/misc.py:186-193 | a returned path exists and is one of the two candidates; an existing local path wins; `None` iff neither candidate exists (the system one only counts on POSIX) |
| Paths.ResourceNamesTheFile | libopensesame/misc.py:186-193 | a plain name resolves to a file of that name directly inside `resources` or the system folder |
| Paths.ResourceAbsolute | libopensesame/misc.py:186-188 | an existing absolute name is returned as given |
| Paths.ResourceNtLocalOnly | libopensesame/misc.py:189-193 | on Windows only the local path is consulted |
| Paths.ResourceReadsOnlyCandidates | libopensesame/misc.py:186-193 | the result depends only on whether the two candidates exist |
| Paths.HomeVariable | libopensesame/misc.py:207-213 | no contract of its own; described by `HomeFolder`, `HomeFolderReadsOneVariable` |
| Paths.HomeFolder | libopensesame/misc.py:207-216 | succeeds iff the platform's variable is set, returning its value; otherwise KeyError on that variable; a notice iff the platform is not Windows, Darwin or Linux |
| Paths.HomeFolderNotice | libopensesame/misc.py:213-215 | the notice names the platform and the home folder it falls back on |
| Paths.HomeFolderReadsOneVariable | libopensesame/misc.py:207-213 | only the platform's own variable affects the result |
| ConsoleStyle.Style | libqtopensesame/console/_ipython_console.py:46-49 | a missing name gives `#000000`, a string is returned as is, a tuple gives its first element; an empty tuple raises |
| ConsoleStyle.SchemeKey | libqtopensesame/console/_ipython_console.py:69-76 | no contract of its own (the eight scheme names); described by `SchemeKeyInjective`, `PygmentsStyleTable` |
| ConsoleStyle.PygmentsStyle | libqtopensesame/console/_ipython_console.py:51-78 | no contract of its own; described by `PygmentsStyleTable` and the `PygmentsStyle…` lemmas |
| ConsoleStyle.PygmentsStyleTable | libqtopensesame/console/_ipython_console.py:66-78 | empty `default_style`; exactly the eight token categories, each coloured by `_style` of its scheme name; built iff all eight lookups succeed |
| ConsoleStyle.SchemeKeyInjective | libqtopensesame/console/_ipython_console.py:69-76 | distinct token categories read distinct scheme names |
| ConsoleStyle.PygmentsStyleTotal | libqtopensesame/console/_ipython_console.py:46-77 | with no empty tuple in the scheme (so for any scheme of strings, the empty one included), the table is always built |
| ConsoleStyle.PygmentsStyleEmptyTuple | libqtopensesame/console/_ipython_console.py:47-48 | an empty tuple under one of the eight names makes the factory raise |
| ConsoleStyle.PygmentsStyleMissingIsBlack | libqtopensesame/console/_ipython_console.py:46 | a category whose name the scheme lacks is black |
| ConsoleStyle.PygmentsStyleEmptyScheme | libqtopensesame/console/_ipython_console.py:46-77 | the empty scheme gives a table that is black everywhere |
| ConsoleStyle.PygmentsStyleReadsEightKeys | libqtopensesame/console/_ipython_console.py:68-77 | schemes that agree on the eight names give the same table |
| ConsoleStyle.SetTheme | libqtopensesame/console/_ipython_console.py:152-156 | nothing is applied (and `''` returned) iff the scheme name is unknown; otherwise the factory's table is applied when it builds |
| ConsoleStyle.SetThemeApplies | libqtopensesame/console/_ipython_console.py:152-156 | an existing scheme without empty tuples is applied, and its Identifier colour goes to Name tokens |

## Left out

- `change_working_dir`, `module_versions`, `messagebox` and the version
  constants are not part of this model. They are Windows path probing,
  library version reporting and a Tk dialog.
- optparse itself is not modelled. The command line enters as a
  `CommandLine` value that holds each option's text, or its absence, and
  each flag. Option syntax, `--help`, `--version` and unknown-option
  errors are left out.
- `parser.error` prints usage and exits with status 2. The model returns
  the message instead. `PostProcess` leaves the fields as far as they had
  got, but the process would have ended there.
- Runner.Values.PostProcess: its contract states the new fields only on
  success. On failure it states just the error, the log file and the
  experiment, because the source's process exits at that point.
- The file system is reduced to:
  - a map of files and their contents,
  - a set of directories,
  - a set of paths on which `open(path, "w")` succeeds.

  Permissions, symbolic links and the file handle that
  `opensesamerun_ready` leaves open are not modelled.
- `os.name` is limited to `posix` and `nt`. Other values of `os.name`,
  with their own `os.path`, are left out.
- For Windows, only ntpath.join's handling of a relative base
  `"resources"` is modelled. A name that starts with a separator or has
  a drive is kept as given; any other name goes under `resources\`.
- `os.path.exists` is a set of existing paths. `home_folder`'s `print` is
  returned as the `notice` text.
- `strip_tags` calls `str(s)` first. Non-string arguments are left out,
  and so are Unicode and locale details.
- `int()` is modelled for Python 2 byte strings in the C locale: an
  optional sign, optional whitespace, then decimal digits, all optionally
  surrounded by whitespace. Integers are unbounded, as Python's
  `int`/`long` are.
- `_style` handles only two kinds of value, a string and a tuple of
  strings. Other kinds of scheme value are left out.
- `setTheme`'s missing-scheme branch calls `debug.msg`, but the file
  imports no `debug` by name (only `*` from `py3compat`). Unless that
  import supplies it, the branch raises NameError before it returns `''`.
  The model takes `debug` to be in scope and leaves the message out.
- The Pygments `Style` class is reduced to its `default_style` and its
  `styles` map. The QSS stylesheet, the font, `debug.msg` and the
  highlighter object are left out.
- The rest of the `ipython_console` widget is left out. That covers
  kernel start-up, layout, `clear`, `focus`, `show_prompt`, `write`,
  `set_workspace_globals` and `setup`, all GUI and kernel plumbing.
- `hasattr(QColorScheme, name)` is also true for attributes of the class
  that are not colour schemes. The model's scheme table holds only
  schemes.
