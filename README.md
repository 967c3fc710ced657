# CSP option resolver for PlatformIO

A Dafny model of `utils/pio_config.py`, the PlatformIO build hook of the
CubeSat Space Protocol library (libcsp). For one build environment, the hook
reads the `custom_csp_options` text and does four things in order:

1. It tokenizes the text. All spaces are removed, the text is cut into lines,
   and every non-empty line is split on `=`.
2. It writes each line into a table of seventeen options, all `False` by default.
3. It checks `with-os`, `with-loglevel` and `with-rtable` against their
   allowed lists. The first one that fails aborts the build.
4. It composes the source filter and the link libraries. For Windows it also
   computes a compile flag.

Modules, one per stage:

- `Text` (text.dfy): Python's `str.replace(" ", "")` and `str.split(sep)`.
  It also defines `Join` (`sep.join`), which the script never calls. `Join`
  is a proof helper: it states the two split/join round trips and builds
  the example texts.
- `Options` (options.dfy): the option values `Absent` (Python `False`),
  `Enabled` (Python `True`) and `Str(s)`. Also the declared names, the
  default table, and how Python reads a value in an `if` (`Truthy`) and in
  an f-string (`Format`). `Outcomes` holds `Option` and `Result`.
- `Tokenizer` (tokenizer.dfy): the tokenize-and-update loop as the method
  `ApplyOptions`. It is proved against `ResolveOptions`, a fold over the
  lines, and the lemmas characterise that fold.
- `Validator` (validator.dfy): the three ordered membership checks.
- `Composer` (composer.dfy): the appends that build the source filter, as the
  method `BuildSrcFilter`, proved against `SrcFilter`. Also the per-OS link
  settings.
- `Config` (config.dfy): the whole hook (`Configure`, proved against
  `Resolve`), plus end-to-end properties and examples.

Behaviours of the script a reader may not expect:

- Option names are not checked. An unknown name is added to the table
  (`BareOption`, `ApplyAllKeys`), so there is no "unknown option" error and
  the table may hold more than the seventeen declared keys.
- A line with two or more `=` is not an error. The text before the first `=`
  names the option, which becomes `True` (`ParseSeveralEquals`).
- The line is split on every `=`, not only the first.
- The Windows branch assigns `c_flags`, not `c_libs`, and only `SRC_FILTER`
  and `LIBS` are passed to the environment. So the flag `-D_WIN32_WINNT=0x0600`
  is computed and then dropped by the script. The model returns it in a
  separate `cFlags` field, so that it is neither lost nor taken for a
  library.
- A bare `with-driver-usart` stores `True`, and the f-string turns it into
  `usart_True.c` (`BareUsartDriver`). The header comment lists `None` as a
  driver value, but the script never validates this option.

## Model

| member | source | states |
|---|---|---|
| `Options.DefaultsUnset` | utils/pio_config.py:42-60 | every declared option starts as `False` and counts as unset |
| `Text.StripSpaces` | utils/pio_config.py:68 | the result has no space, is no longer than the input, and keeps every other character with its multiplicity |
| `Text.StripSpacesChars` | utils/pio_config.py:68 | every character left after stripping was in the input and is not a space |
| `Text.StripSpacesAppend` | utils/pio_config.py:68 | stripping distributes over concatenation, so it keeps the order of the characters |
| `Text.StripSpacesNoSpaces` | utils/pio_config.py:68 | a text without spaces is unchanged |
| `Text.Split` | utils/pio_config.py:69 | a split has at least one piece, no piece contains the separator, and every character of a piece comes from the input |
| `Text.JoinSplit` | utils/pio_config.py:69 | joining the pieces with the separator gives back the input |
| `Text.SplitJoin` | utils/pio_config.py:69 | pieces without the separator are recovered exactly by splitting their join |
| `Text.SplitNoSep` | utils/pio_config.py:73 | a text without the separator is one piece |
| `Text.SplitAtFirst` | utils/pio_config.py:73 | the text before the first separator is the first piece, and the rest splits on its own |
| `Tokenizer.Lines` | utils/pio_config.py:68-69 | the visited lines contain no space and no newline, and there is at least one |
| `Tokenizer.ParseBareName` | utils/pio_config.py:73-77 | a line without `=` sets that name to `True` |
| `Tokenizer.ParseKeyValue` | utils/pio_config.py:73-75 | `key=value` with a single `=` sets `key` to the string `value` (possibly empty) |
| `Tokenizer.ParseSeveralEquals` | utils/pio_config.py:73-77 | a line with several `=` sets the name before the first `=` to `True` |
| `Tokenizer.ApplyAllKeys` | utils/pio_config.py:71-77 | the loop never removes a key, and it adds exactly the names of the non-empty lines, known or not |
| `Tokenizer.LastLineWins` | utils/pio_config.py:71-77 | the last non-empty line that names a key decides its value |
| `Tokenizer.UnnamedKeepsValue` | utils/pio_config.py:71-77 | a key that no non-empty line names keeps its starting value and its presence |
| `Tokenizer.EmptyLinesIgnored` | utils/pio_config.py:71-72 | applying only the non-empty lines gives the same table as applying all of them |
| `Tokenizer.AllEmptyLines` | utils/pio_config.py:71-72 | lines that are all empty leave the table unchanged |
| `Tokenizer.ResolveOptions` | utils/pio_config.py:42-77 | the tokenized table still holds every declared option |
| `Tokenizer.UnnamedOptionUnset` | utils/pio_config.py:42-77 | a declared option that no line names stays `False` |
| `Tokenizer.BlankConfigIsDefault` | utils/pio_config.py:68-77 | a text of spaces and newlines only (the empty text too) leaves the default table |
| `Tokenizer.ApplyOptions` | utils/pio_config.py:68-77 | the loop starts from the defaults, updates the table line by line, and ends with `ResolveOptions(config)` and a complete table |
| `Validator.Validate` | utils/pio_config.py:81-88 | the checks pass exactly when all three options are allowed strings; a reported error names a present key whose value is outside the reported list |
| `Validator.ValidateReportsFirstFailure` | utils/pio_config.py:81-88 | the OS error comes whenever the OS is invalid, the log-level error only after a valid OS, and the routing-table error only after both pass (each an if-and-only-if) |
| `Validator.UnsetEnumOptionRejected` | utils/pio_config.py:56-88 | an enumerated option left `False`, or given bare (`True`), always fails the checks |
| `Composer.BuildSrcFilter` | utils/pio_config.py:92-114 | the appends give `SrcFilter(t)`: the six base globs first, and `6 + AddedEntries(t)` entries in all |
| `Composer.ValidatedFilterLayout` | utils/pio_config.py:92-114 | after the checks pass: the base globs, then the chosen OS subtree at position 6 and the routing-table file at position 7, then SocketCAN if enabled, and the KISS and USART driver files last; length 8 plus those optional entries |
| `Composer.ValidatedEntriesPresent` | utils/pio_config.py:100-105 | once the checks pass, the OS and routing-table entries are always appended |
| `Composer.SocketcanOnce` | utils/pio_config.py:107-109 | the SocketCAN file occurs exactly once when the switch is truthy, and never otherwise |
| `Composer.BareUsartDriver` | utils/pio_config.py:111-114 | a bare `with-driver-usart` makes the last entry `usart_True.c` |
| `Composer.UsartEntriesPresence` | utils/pio_config.py:111-114 | for any table, the KISS file is in the filter exactly when the USART driver is truthy; an unset or empty driver adds no `usart_<driver>.c` file either |
| `Composer.LinkSettingsPerOs` | utils/pio_config.py:117-125 | posix links rt, pthread and util; macosx links pthread; windows links nothing and gets the Windows-version flag; freertos gets neither |
| `Composer.LinkSettingsChannels` | utils/pio_config.py:117-125 | whatever the value, the compile flag appears exactly for `windows`, and libraries exactly for `posix` and `macosx` |
| `Config.Configure` | utils/pio_config.py:68-125 | running the script's stages in order yields `Resolve(config)` |
| `Config.ResolveSuccess` | utils/pio_config.py:81-125 | a successful run passed the checks; its filter starts with the base globs, then the chosen OS subtree and routing-table file; its libraries and flags are those of the OS |
| `Config.ResolveFailure` | utils/pio_config.py:81-88 | a run fails exactly when the checks fail, and reports the checks' error |
| `Config.SpacesIgnored` | utils/pio_config.py:68 | removing spaces beforehand does not change the resolved table |
| `Config.BlankConfigAborts` | utils/pio_config.py:68-82 | an empty or blank option text always aborts with the `with-os` error |
| `Config.ComposeEnum` | utils/pio_config.py:81-125 | for a table with three string values and SocketCAN off: the first invalid value aborts, in check order; otherwise the base globs, the chosen OS and routing-table entries, the USART entries, and the OS's link settings |
| `Config.EnumOnlyOptions` | utils/pio_config.py:71-77 | for three values without `=`, space or newline, the three `key=value` lines give the defaults with exactly those three strings |
| `Config.EnumOnlyResolve` | utils/pio_config.py:71-125 | for any three values without `=`, space or newline: the first invalid one aborts, in check order; otherwise the base globs plus the chosen OS and routing-table entries, and the OS's link settings |
| `Config.EnumUsartOptions` | utils/pio_config.py:71-77 | for four values without `=`, space or newline, the three `key=value` lines plus a `with-driver-usart=` line give the defaults with exactly those four strings |
| `Config.EnumUsartResolve` | utils/pio_config.py:71-125 | for four values without `=`, space or newline: as for the three options alone, plus the KISS and USART driver files at the end when the driver name is non-empty, and nothing when it is empty |
| `Config.BareOption` | utils/pio_config.py:73-77 | a single bare line sets that option to `True`, and an undeclared name is added |
| `Config.PosixExample` | utils/pio_config.py:92-121 | posix/debug/static gives the base globs plus `arch/posix` and `csp_rtable_static.c`, links rt, pthread and util, and adds no flag |
| `Config.WindowsExample` | utils/pio_config.py:92-125 | windows/error/cidr with the `linux` USART driver gives the base globs, `arch/windows`, `csp_rtable_cidr.c`, the KISS and `usart_linux.c` files, no library, and the Windows-version flag |
| `Config.UnknownOsExample` | utils/pio_config.py:81-82 | `with-os=bsd` aborts with the `with-os` error and its allowed list |

## Left out

- `Import('env')`, `env.get("PIOENV")` and `env.GetProjectConfig().get(...)` are host calls into PlatformIO/SCons. The option text they produce is a parameter of the model.
- The two `env.Append(...)` calls are replaced by returning the filter, the libraries and the Windows compile flag as an `Artifacts` value.
- The text of the exception messages is left out. A failure is `InvalidOption(key, allowed)`, which carries the option's name and its allowed list.
- The option table is a module-level dictionary in the script, updated in place by one run. The model starts each run from the constant default table, which is equivalent for the single run the hook performs.
- Only the U+0020 space is removed and only `\n` separates lines, exactly as in the script. Tabs and `\r` stay in the option text.
- `Config.PosixExample`, `Config.UnknownOsExample`, `Config.WindowsExample`: these state the results in terms of their parameters, which the requires fixes to the literal values. Lemmas applied directly to string literals make the verifier unfold `Split` over the whole literal.
- `Config.EnumOnlyResolve`, `Config.EnumUsartResolve`: these cover texts made only of the three mandatory options, optionally followed by a USART driver line. Texts with other options, or in another order, are covered by `Composer.ValidatedFilterLayout`, `Composer.SocketcanOnce` and the tokenizer lemmas.
- `Config.EnumOnlyOptions`, `Config.EnumOnlyResolve`, `Config.EnumUsartOptions`, `Config.EnumUsartResolve`: the values must hold no `=`, space or newline. The script removes spaces before it splits, and it splits on every `=`, so such a value does not reach the table as written (`with-os=pos ix` sets `posix`). `Config.SpacesIgnored`, `Tokenizer.ParseSeveralEquals` and the tokenizer lemmas cover those texts.
