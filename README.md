# buffalo-plugin-template, modelled in Dafny

`buffalo-plugin-template` is a plugin for the Buffalo web framework that
generates the skeleton of other Buffalo plugins. The executable reads its
command line:

- `available` prints the plugin's command catalog for Buffalo.
- `--help` prints usage.
- `plugin-template-generate [--output (gohome|stdout)]... <buffalo_command> <plugin_name>`
  renders a Go source file for a new plugin.
- `plugin-template-destroy <plugin_name>` removes a generated plugin's
  directory.

This project models the decision-making core of `buffalo-plugin-template.go`:

- the argument cursor (`ArgumentIterator`);
- the process-wide output setting and its validator (`setOutput`);
- the derivation of the handler identifier from the plugin name
  (`determineHandlerName`, plus the `filepath.Base` step before it);
- the generate and destroy handlers;
- the top-level token loop of `main`.

A `log.Fatal` exit becomes a `Failure` value. A whole run becomes an
`Outcome`: the list of actions performed, in order, and whether the process
finished normally or died with a failure. The loop goes on after
`available`, after a generation and after a destruction, so one run can
perform several actions, and an `--output` setting carries over to later
generations in the same run.

Files:

- `wrappers.dfy` has `Option` and `Result`.
- `characters.dfy` holds the decimal-digit class both other modules use.
- `failures.dfy` holds the four fatal conditions.
- `arguments.dfy` holds the cursor class and the decimal rendering of its
  position.
- `output.dfy` holds the sinks and the `Config` class that owns
  `generationOutput`.
- `handler_name.dfy` holds the camel-case transform: a specification
  function, the character loop proved equal to it, and its properties.
- `plugin_path.dfy` holds `filepath.Base` for `/`-separated paths.
- `dispatch.dfy` holds the specification of a run (`Scan`, `Run`) and the
  imperative handlers and dispatcher proved equal to it.

The template's `PluginName` is `filepath.Base(<plugin_name>)`
(`buffalo-plugin-template.go:166`), not the name with its `buffalo-` prefix
removed: for `buffalo-foo` it is `buffalo-foo` itself, while the handler
identifier is `handleFoo` (`Dispatch.GenerateFooToStdout`).

## Model

| member | source | states |
|---|---|---|
| Arguments.ArgumentAt | buffalo-plugin-template.go:49-59 | Reading position `pos` succeeds exactly when `pos` is below the argument count and yields `args[pos]`; otherwise the failure carries the description, the position and all arguments |
| Arguments.DecimalString | buffalo-plugin-template.go:64 | `strconv.Itoa` of a position: a non-empty string of decimal digits, with a leading `0` only for zero itself |
| Arguments.DecimalRoundTrip | buffalo-plugin-template.go:63-66 | Reading back the decimal rendering of a position gives the position |
| Arguments.DecimalStringInjective | buffalo-plugin-template.go:63-66 | Distinct positions are rendered as distinct strings |
| Arguments.ArgumentIterator.constructor | buffalo-plugin-template.go:224-249 | The cursor starts at the given index, which must not pass the end of the arguments (`main` starts at 1 only when there are more than one), and is valid |
| Arguments.ArgumentIterator.HasNextArgument | buffalo-plugin-template.go:60-62 | True exactly when the position is below the argument count; on a valid cursor, false exactly when the position equals the argument count |
| Arguments.ArgumentIterator.IndexString | buffalo-plugin-template.go:63-66 | The position in `strconv.Itoa`'s canonical form: a non-empty string of decimal digits, with a leading `0` only for position zero, whose value is the position |
| Arguments.ArgumentIterator.SeeNextArgument | buffalo-plugin-template.go:72-75 | Peeking gives the argument under the cursor, or the missing-argument failure at that position, and cannot move the cursor |
| Arguments.ArgumentIterator.GetNextArgument | buffalo-plugin-template.go:67-71 | Returns what peeking would; a successful read advances the position by exactly one, a failed read leaves it unchanged; the position never decreases and never passes the end of the arguments |
| Output.ParseSink | buffalo-plugin-template.go:104 | An output value is accepted exactly when it is `gohome` or `stdout`, and the accepted sink is named by that value |
| Output.ParseSinkName | buffalo-plugin-template.go:102-109 | Naming a sink and parsing the name back gives the same sink |
| Output.Config.constructor | buffalo-plugin-template.go:100 | The output setting starts as `gohome` |
| Output.Config.SetOutput | buffalo-plugin-template.go:102-109 | Succeeds exactly for `gohome` and `stdout` and then stores that value; any other value is an invalid-output failure that leaves the setting unchanged; the setting stays one of the two values |
| PluginPath.Base | buffalo-plugin-template.go:166 | The base name is never empty; it is `/` or holds no separator; the empty path gives `.` |
| PluginPath.LastSegmentSuffix | buffalo-plugin-template.go:166 | The last segment of a path is a suffix of it |
| PluginPath.BaseSuffix | buffalo-plugin-template.go:166 | Unless the path is empty or all separators, its base name is the whole last element of the path once trailing separators are dropped: a tail of it, preceded by a separator unless it is all of it |
| PluginPath.BaseOfName | buffalo-plugin-template.go:166 | A non-empty name without separators is its own base name |
| PluginPath.BaseOfJoin | buffalo-plugin-template.go:166 | The base name of `dir/name` is `name`, whatever the directory |
| PluginPath.BaseIdempotent | buffalo-plugin-template.go:166 | Taking the base name twice is the same as taking it once |
| HandlerNames.CamelCase | buffalo-plugin-template.go:143-156 | Every character of the camel-cased form is a letter or digit, and it is no longer than its input |
| HandlerNames.HandlerName | buffalo-plugin-template.go:138-163 | A name without the `buffalo-` prefix is an invalid-plugin-name failure; the only failures are that and the empty-identifier failure; a success is `handle` followed by at least one character, all letters or digits |
| HandlerNames.DetermineHandlerName | buffalo-plugin-template.go:138-163 | The character loop with its `nextCamelCase` flag computes exactly `HandlerName`, failures included |
| HandlerNames.CamelCaseEmptyIff | buffalo-plugin-template.go:158-160 | The camel-cased form is empty exactly when the input holds no letter or digit |
| HandlerNames.CamelCaseOfRun | buffalo-plugin-template.go:145-152 | A run of letters and digits is kept with only its first character upper-cased |
| HandlerNames.CamelCaseSplit | buffalo-plugin-template.go:153-155 | A character that is neither letter nor digit is dropped and splits the input into parts camel-cased independently |
| HandlerNames.CamelCaseKeepsAlnums | buffalo-plugin-template.go:145-156 | Up to case, the camel-cased form is exactly the letters and digits of the input, in order |
| HandlerNames.CamelCaseFirstUpper | buffalo-plugin-template.go:147-149 | A non-empty camel-cased form never starts with a lower-case letter |
| HandlerNames.CamelCaseIdempotent | buffalo-plugin-template.go:143-156 | Camel-casing a camel-cased form changes nothing |
| HandlerNames.HandlerNameFails | buffalo-plugin-template.go:139-141 | Derivation fails exactly when the prefix is missing or nothing after it is a letter or digit |
| HandlerNames.HandlerNameCapitalised | buffalo-plugin-template.go:162 | A derived identifier continues `handle` with an upper-case letter or a digit |
| HandlerNames.CamelCaseMyPlugin | buffalo-plugin-template.go:143-156 | `my-plugin` camel-cases to `MyPlugin` |
| HandlerNames.CamelCasePluginTwo | buffalo-plugin-template.go:143-156 | `plugin-two` camel-cases to `PluginTwo` |
| HandlerNames.CamelCaseMyPluginTwo | buffalo-plugin-template.go:143-156 | `my_plugin-two` camel-cases to `MyPluginTwo` |
| HandlerNames.ExampleMyPlugin | buffalo-plugin-template.go:138-163 | `buffalo-my-plugin` gives `handleMyPlugin` |
| HandlerNames.ExampleMyPluginTwo | buffalo-plugin-template.go:138-163 | `buffalo-my_plugin-two` gives `handleMyPluginTwo` |
| HandlerNames.ExampleFoo | buffalo-plugin-template.go:138-163 | `buffalo-foo` gives `handleFoo` |
| HandlerNames.ExampleBarePrefix | buffalo-plugin-template.go:158-160 | `buffalo-` alone is rejected because the derived identifier is empty |
| Dispatch.OutputOptions | buffalo-plugin-template.go:203-214 | A successful option read stops, never before its start, at the end of the arguments or at a token other than `--output`; if it consumed nothing the sink is unchanged, otherwise the two tokens before the stop are `--output` and an accepted value naming the sink; its only failures are a missing value, which is reported at the end of the arguments, and an invalid value |
| Dispatch.GenerationAction | buffalo-plugin-template.go:165-172 | Generation succeeds exactly when the handler name of the path's base name can be derived, and then records the command, the base name, that handler name, the path and the sink in force |
| Dispatch.GenerateFrom | buffalo-plugin-template.go:216 | With the cursor at the positional arguments, generation succeeds exactly when two tokens remain and the second yields a handler name; the cursor then moves past both and the sink is unchanged |
| Dispatch.GenerateStep | buffalo-plugin-template.go:203-217 | A successful generation consumes the option pairs and then exactly two positional tokens, and its action is the one `GenerateFrom` makes at those two tokens with the sink the options left |
| Dispatch.Scan | buffalo-plugin-template.go:249-268 | The token loop from a position on performs at most one action per token, plus the help printed after an unknown token; its further properties are the `Scan*` lemmas below, and `Dispatch.Dispatch` is proved equal to it |
| Dispatch.Run | buffalo-plugin-template.go:224-227 | With no argument after the program name, or with `--help` first, the run only prints help |
| Dispatch.ScanAvailable | buffalo-plugin-template.go:252-253 | `available` prints the catalog and the scan continues with the next token |
| Dispatch.ScanGenerate | buffalo-plugin-template.go:257-258 | A failed generation ends the run with that failure; a successful one is followed by the scan from where the handler left the cursor, with the sink it left in force |
| Dispatch.ScanDestroy | buffalo-plugin-template.go:259-260 | `plugin-template-destroy` as the last token is fatal for the missing `<plugin_name>` at the end of the arguments; otherwise the path is destroyed and the scan goes on after it |
| Dispatch.GeneratePluginTemplate | buffalo-plugin-template.go:165-201 | Computes the generation action for the current output setting, failures included |
| Dispatch.ReadOutputOptions | buffalo-plugin-template.go:204-214 | The option loop leaves the cursor and the output setting exactly where `OutputOptions` says, or fails as it says |
| Dispatch.ProcessGeneratePluginTemplate | buffalo-plugin-template.go:203-217 | The generate handler returns the action, cursor position and output setting that `GenerateStep` defines, or its failure |
| Dispatch.GenerateAtCursor | buffalo-plugin-template.go:215-216 | Reads `<buffalo_command>` then `<plugin_name>` and generates, with exactly the result and cursor position `GenerateFrom` defines, failures included |
| Dispatch.ProcessDestroyPluginTemplate | buffalo-plugin-template.go:219-221 | The destroy handler succeeds exactly when a token remains, destroying that path and advancing by one; otherwise it fails at the current position |
| Dispatch.Dispatch | buffalo-plugin-template.go:223-268 | The imperative loop over the shared cursor and output setting produces exactly the outcome `Run` defines |
| Dispatch.ScanWellFormed | buffalo-plugin-template.go:249-268 | Every generation in a run carries the handler name derived from its plugin's base name; every path and command comes from the arguments; only unknown tokens are reported as unrecognised |
| Dispatch.ScanMissingAtEnd | buffalo-plugin-template.go:49-59 | A run that dies for a missing argument always reports the position just past the last argument, together with all arguments |
| Dispatch.ScanStops | buffalo-plugin-template.go:254-256 | `--help` prints help and ends the run; an unknown token is reported with all arguments, help is printed, and the run ends, whatever follows |
| Dispatch.ScanUnrecognizedIff | buffalo-plugin-template.go:251-267 | A scan starts by reporting a token as unrecognised exactly when it is none of the four known tokens |
| Dispatch.CatalogCommandsRecognized | buffalo-plugin-template.go:229-242 | Every command the catalog advertises is dispatched, never reported as unrecognised |
| Dispatch.OutputOptionsOfPairs | buffalo-plugin-template.go:204-214 | Any number of `--output` pairs is consumed, and the last pair decides the sink |
| Dispatch.OutputOptionsPair | buffalo-plugin-template.go:207-210 | One accepted pair selects its sink and moves past both tokens |
| Dispatch.OutputOptionsShape | buffalo-plugin-template.go:204-214 | Conversely, every successful option read consumed a run of accepted `--output` pairs and nothing else, stopped at the first pair boundary that is not `--output`, and returns the last pair's sink, or the one in force before when there was none |
| Dispatch.OutputOptionsFailAfterPairs | buffalo-plugin-template.go:204-210 | After any number of accepted pairs, an `--output` without a value is a missing argument reported at the end of the arguments, and one with a value other than `gohome` or `stdout` is an invalid-output failure |
| Dispatch.GenerateWithOptions | buffalo-plugin-template.go:203-217 | `plugin-template-generate`, any number of `--output` pairs, then two positional tokens: exactly one generation, into the sink of the last pair (`gohome` without pairs) |
| Dispatch.RunGenerate | buffalo-plugin-template.go:216 | A generate command whose options end just before its two positional tokens generates once and finishes |
| Dispatch.InvalidOutputFatal | buffalo-plugin-template.go:107 | An `--output` value other than `gohome` or `stdout` kills the run before any action, whatever follows |
| Dispatch.OutputValueMissing | buffalo-plugin-template.go:209 | `--output` as the last token is a missing value at the end of the arguments |
| Dispatch.PluginNameMissing | buffalo-plugin-template.go:216 | A generate with one positional token is missing `<plugin_name>` at the end of the arguments |
| Dispatch.GenerateToStdout | buffalo-plugin-template.go:180-182 | `--output stdout` then two positional tokens generates once on standard output |
| Dispatch.GenerateFooToStdout | buffalo-plugin-template.go:165-172 | `plugin-template-generate --output stdout generate buffalo-foo` generates `handleFoo` for plugin `buffalo-foo` on standard output |
| Dispatch.GenerateKeepsSink | buffalo-plugin-template.go:100 | A generation without `--output` uses, and passes on to the rest of the run, the sink already in force |

## Left out

- File system effects are not modelled. This covers `getGoHome`, `determineAbsolutePluginPath`, `MkdirAll`, `Create`, `Stat` and `RemoveAll`, and the fatal errors they can raise (`buffalo-plugin-template.go:24-30, 111-136, 184-191`). A `Generate` or `Destroy` action is recorded as performed and assumed to succeed.
- Template rendering with `text/template` and the template text are not modelled (`buffalo-plugin-template.go:174-200, 278-359`). The model stops at the `TemplateParams` record and the chosen sink.
- The JSON encoding of the catalog is not modelled (`buffalo-plugin-template.go:36-43`). `available` becomes a `PrintCatalog` action, and the catalog is kept as data (`Dispatch.Catalog`).
- The help text, the log lines and the exact text of fatal messages are not modelled. A failure records its kind and the values the message would print.
- HandlerNames.IsLetter, Characters.IsDigit (which stands for `unicode.IsNumber`) and HandlerNames.ToUpper follow ASCII rules rather than Unicode tables. Iterating over runes and over bytes therefore coincide, including the byte-length emptiness test at line 158.
- PluginPath.Base models `filepath.Base` for `/` as the only separator. It has no Windows volume names or `\` separators.
- The `panic` for an output setting other than `gohome` or `stdout` (`buffalo-plugin-template.go:193-195`) is unreachable, because `Output.Config.Valid` holds throughout. It appears only as a proved-dead branch.
- Go's `os.Args` is a global. Here it is the `args` parameter of `Dispatch.Dispatch` and the constant field of the cursor.
