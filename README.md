# raconfig in Dafny

raconfig is a small C++ header library over Boost.Program_options. It declares
configuration options as types. A `config<Actions, Ts...>` parses
the command line and runs the help and version actions right away if they were
asked for. It then reads an optional INI file, stores each option in a backend
cell, converts container backends to their user type, runs every option's
validator and commits the values. Then it runs the show-config action and the
registered callbacks. This project models that engine and proves what it promises:

- the command line overrides the file, and the file overrides the defaults;
- unknown names and mistyped values are refused;
- the first rejected option is the one reported;
- container conversion (`std::set`, `std::multiset`, and their unordered
  variants) ends in canonical form and round-trips;
- ranges are rendered for messages and for show-config.

Files:

- `wrappers.dfy`: `Option`, `Result`, `Outcome`.
- `colors.dfy`: the demo's `color` type and its stream operators.
- `values.dfy`: option types (`Shape`), values and `lexical_cast` rendering of scalars.
- `containers.dfy`: building ordered and unordered containers from the backend vector.
- `range.dfy`: range rendering, the backend/user conversion, and the `OptionValue` cell class.
- `engine.dfy`: the schema, the parse pipeline as specification functions, the methods
  that carry it out on cells, and the `Config` class.
- `engine_laws.dfy`: lemmas about the pipeline.
- `demo.dfy`: the demo's options and its power-of-two validator.
- `scenarios.dfy`: the unit-test option list and the outcomes its test cases expect.

The Boost tokenizer and INI parser are inputs here. `Argv` is either a tokenizer
failure or a map from each long name to its typed value. `FileSystem` maps a path
to what the INI parser produced. `Engine.Lookup` models the check Boost's parsers
make against the options `init_option` registered: an unknown name or a mistyped
value fails there. The engine's own steps are the `--config` path, the merge
order, the validators and the commit. The
`Actions` sink and the callbacks are modelled as a log of `Event`s.

Code and documentation differ about `--help`, `--version` and `--show-config`:
their descriptions say "and exit". For `--help` and `--version`, `parse_cmd_line_impl`
(raconfig/include/raconfig/raconfig.hpp:256-261) only calls the action and then carries
on with the file, the merge, the validators and the commit.
`EngineLaws.HelpAndVersionDoNotStopTheParse` states it. After `show_config_end`
(raconfig.hpp:272-277) `parse_cmd_line` goes on to run the callbacks
(raconfig.hpp:210-211), and `Engine.Config.ParseCmdLine` does the same. The model
follows the code. Whether a default action ends the process is decided in
`raconfig.ipp`, which is not part of this model.

## Model

| member | source | states |
|---|---|---|
| Colors.ReadColor | demo/main.cpp:21-35 | the in-place lower-casing loop then the match gives exactly `ParseColor(token)` |
| Colors.LowerIdempotent | demo/main.cpp:25 | lower-casing twice equals lower-casing once |
| Colors.ParseIgnoresCase | demo/main.cpp:25-31 | a token and its lower-case form parse to the same color or the same failure |
| Colors.ParseAcceptsExactlyCaseVariants | demo/main.cpp:26-31 | a token reads as color c if and only if it is a case variant of c's rendered name |
| Colors.ParseRejectsOtherTokens | demo/main.cpp:32-33 | reading fails exactly for tokens that are not red/green/blue in some case, and the message is "Unknown color" |
| Colors.ParseRenderRoundTrip | demo/main.cpp:21-48 | reading back what `operator<<` writes gives the same color |
| Colors.ParseRedSpellings | demo/main.cpp:25-27 | "RED", "Red" and "red" all read as red |
| Containers.BuildSetProperties | raconfig/include/raconfig/raconfig_set.hpp:33-51 | a `std::set` built from the backend is strictly ordered by its comparator and holds exactly the backend's elements |
| Containers.BuildMultisetProperties | raconfig/include/raconfig/raconfig_set.hpp:58-76 | a `std::multiset` built from the backend is ordered by its comparator and is a permutation of the backend |
| Containers.SetHoldsEachElementOnce | raconfig/include/raconfig/raconfig_set.hpp:33-51 | the set holds each backend element exactly once, and its size is the number of distinct elements |
| Containers.MultisetKeepsCounts | raconfig/include/raconfig/raconfig_set.hpp:58-76 | the multiset keeps every element's count and the backend's length |
| Containers.SetIgnoresOrderAndRepetition | raconfig/include/raconfig/raconfig_set.hpp:33-51 | two backends with the same elements build the same set, whatever their order or repetitions |
| Containers.MultisetIgnoresOrder | raconfig/include/raconfig/raconfig_set.hpp:58-76 | two backends that are permutations of each other build the same multiset |
| Containers.StrictlySortedUnique | raconfig/include/raconfig/raconfig_set.hpp:33-51 | there is only one strictly ordered sequence with a given element set |
| Containers.SortedUnique | raconfig/include/raconfig/raconfig_set.hpp:58-76 | there is only one ordered sequence with a given multiset of elements |
| Containers.NoDuplicatesCounts | raconfig/include/raconfig/raconfig_unordered_set.hpp:33-51 | in a duplicate-free sequence every element's count is one and its size is its number of distinct elements |
| Containers.SetRoundTrip | raconfig/include/raconfig/raconfig_range.hpp:108-124 | rebuilding a set from its own iteration order gives it back unchanged |
| Containers.MultisetRoundTrip | raconfig/include/raconfig/raconfig_range.hpp:108-124 | rebuilding a multiset from its own iteration order gives it back unchanged |
| Containers.DedupProperties | raconfig/include/raconfig/raconfig_unordered_set.hpp:33-51 | an `std::unordered_set` built from the backend has no duplicates and exactly the backend's elements |
| Containers.UnorderedSetHoldsEachElementOnce | raconfig/include/raconfig/raconfig_unordered_set.hpp:33-51 | the unordered set holds each backend element exactly once |
| Containers.DedupRoundTrip | raconfig/include/raconfig/raconfig_range.hpp:108-124 | rebuilding an unordered set from its own elements gives it back unchanged |
| Range.RangeToString | raconfig/include/raconfig/raconfig_range.hpp:42-54 | the loop yields "{", the elements' texts separated by ", ", then "}" |
| Range.ShowRange | raconfig/include/raconfig/raconfig_range.hpp:56-63 | one string per element, in iteration order, each the element's text |
| Range.BracedEmpty | raconfig/include/raconfig/raconfig_range.hpp:45-53 | an empty range renders as "{}" |
| Range.BracedNonEmpty | raconfig/include/raconfig/raconfig_range.hpp:46-52 | a non-empty range renders as the first element followed by ", " and each further element, inside braces |
| Range.JoinAppend | raconfig/include/raconfig/raconfig_range.hpp:48-51 | appending an element to the joined text adds ", " and that element |
| Range.ToUserCanonical | raconfig/include/raconfig/raconfig_range.hpp:120-124 | converting a well-typed backend gives a well-typed user value in its container's iteration order |
| Range.RoundTrip | raconfig/include/raconfig/raconfig_range.hpp:108-124 | a container seeds its backend with its own elements, and converting that backend gives the container back unchanged |
| Range.IdentityKeepsBackend | raconfig/include/raconfig/raconfig.hpp:111-125 | the identity adaptor's user value is its backend |
| Range.TransformContents | raconfig/include/raconfig/raconfig_range.hpp:120-124 | per container kind, what the user value keeps of the backend: the distinct elements (sets), every element with its count (multisets), the vector itself |
| Range.OptionValue.constructor | raconfig/include/raconfig/raconfig_range.hpp:108-116 | a cell built from a well-typed value in iteration order has that value as its backend and its user value |
| Range.OptionValue.Store | raconfig/include/raconfig/raconfig_range.hpp:94-95 | writing through `operator*` replaces the backend only; a container's user value waits for `Transform` |
| Range.OptionValue.Transform | raconfig/include/raconfig/raconfig_range.hpp:120-124 | the backend is unchanged and the user value becomes its conversion |
| Engine.FindType | raconfig/include/raconfig/raconfig.hpp:41-63 | the index of the first option whose tag is the one asked for |
| Engine.FirstFailing | raconfig/include/raconfig/raconfig.hpp:269 | the least option index whose validator rejects its user value, with every earlier option accepted; None only when all accept |
| Engine.Convert | raconfig/include/raconfig/raconfig.hpp:262-269 | a successful merge yields one value per option |
| Engine.Parse | raconfig/include/raconfig/raconfig.hpp:240-278 | a successful parse yields one value per option, and show-config happens only after a successful parse |
| Engine.BackendsConform | raconfig/include/raconfig/raconfig.hpp:262-267 | merging well-typed file and command-line values over the defaults gives well-typed backends |
| Engine.NewCells | raconfig/include/raconfig/raconfig.hpp:242 | one fresh, distinct cell per option, of its type, whose backend and user value are both its default |
| Engine.Notify | raconfig/include/raconfig/raconfig.hpp:266-267 | each cell named in the values gets that value as its backend; the others keep theirs; no user value changes |
| Engine.TransformAll | raconfig/include/raconfig/raconfig.hpp:268 | every cell's backend is unchanged and its user value is the backend's conversion |
| Engine.UserValues | raconfig/include/raconfig/raconfig.hpp:270 | the values committed are the cells' user values, in order |
| Engine.ValueToString | raconfig/include/raconfig/raconfig.hpp:86-109 | a scalar is rendered by `lexical_cast`, a container in braced form |
| Engine.CheckAll | raconfig/include/raconfig/raconfig.hpp:269 | the fold over the validators throws for the first rejected option, naming it and rendering its value, and otherwise throws nothing |
| Engine.ShowOption | raconfig/include/raconfig/raconfig.hpp:148-155 | a scalar is shown as one string, a container as one string per element |
| Engine.Finish | raconfig/include/raconfig/raconfig.hpp:266-270 | after the file, then the command line, are notified and the cells transformed, the values are the merged, converted values |
| Engine.Stage | raconfig/include/raconfig/raconfig.hpp:262-270 | reading the file, merging, converting and validating on cells gives exactly `Convert` |
| Engine.ParseFileImpl | raconfig/include/raconfig/raconfig.hpp:280-288 | the file's options are looked up under their file names and written to their cells; an unreadable file or an unknown name fails with no backend written; no user value changes |
| Engine.SeedsCanonical | raconfig/include/raconfig/raconfig.hpp:320 | every default cell of a well-formed schema holds a well-typed value in canonical form |
| Engine.LookupConforms | raconfig/include/raconfig/raconfig.hpp:139-146 | every value a successful lookup yields has its option's type |
| Engine.ParseCanonical | raconfig/include/raconfig/raconfig.hpp:266-270 | every value a successful parse commits is well typed and in canonical form |
| Engine.Config.constructor | raconfig/include/raconfig/raconfig.hpp:234 | a new config holds the defaults, with no callbacks and nothing logged |
| Engine.Config.Get | raconfig/include/raconfig/raconfig.hpp:193-197 | the committed value of the option with the tag asked for |
| Engine.Config.AddCallback | raconfig/include/raconfig/raconfig.hpp:220-223 | the callback is appended to the list |
| Engine.Config.ShowConfig | raconfig/include/raconfig/raconfig.hpp:272-277 | logs begin, each option's committed value in declaration order, then end |
| Engine.Config.FireEarly | raconfig/include/raconfig/raconfig.hpp:256-261 | logs the help action if `--help` was given, then the version action if `--version` was given and a version string is configured |
| Engine.Config.ParseCmdLineImpl | raconfig/include/raconfig/raconfig.hpp:240-278 | help and version fire after a successful tokenization; on success the values are committed and shown if asked, and on failure nothing is committed |
| Engine.Config.RunCallbacks | raconfig/include/raconfig/raconfig.hpp:210-211 | each callback runs once, in registration order |
| Engine.Config.ParseCmdLine | raconfig/include/raconfig/raconfig.hpp:199-212 | a `config_error` passes through, a standard exception becomes a `config_error` with its message, anything else becomes "unknown exception"; the callbacks run only after a successful parse |
| Engine.Config.ParseFile | raconfig/include/raconfig/raconfig.hpp:214-218 | behaves exactly as a command line holding only `--config path` |
| EngineLaws.LookupSucceedsIff | raconfig/include/raconfig/raconfig.hpp:139-146 | a lookup succeeds if and only if every name is registered and every value has its option's type, and then it holds exactly the supplied options |
| EngineLaws.LookupIs | raconfig/include/raconfig/raconfig.hpp:139-146 | a lookup's result is fixed by which options were supplied and with which values |
| EngineLaws.EmptyLookup | raconfig/include/raconfig/raconfig.hpp:139-146 | nothing given means nothing supplied |
| EngineLaws.SeedsSurviveTransform | raconfig/include/raconfig/raconfig.hpp:268 | converting default cells again leaves the defaults unchanged |
| EngineLaws.DefaultsWithoutArguments | raconfig/include/raconfig/raconfig.hpp:240-278 | an empty command line fires no action, shows nothing and commits the defaults, unless a default fails its validator |
| EngineLaws.UnregisteredCommandLineNameFails | raconfig/include/raconfig/raconfig.hpp:252-254 | a command-line name that no option registered fails the parse before any action fires |
| EngineLaws.VersionNeedsVersionString | raconfig/include/raconfig/raconfig.hpp:246-248 | without a version string, `--version` is an unknown option |
| EngineLaws.FileOnlyOptionRefusedOnCommandLine | raconfig/include/raconfig/raconfig.hpp:139-146 | an option without a command-line name never receives a command-line value; its file name given on the command line fails the parse unless another option registered it there |
| EngineLaws.UnnamedRejectedDefaultFailsEveryParse | raconfig/include/raconfig/raconfig.hpp:262-269 | an option with no command-line and no file name keeps its default, so if its validator rejects the default, every parse fails |
| EngineLaws.EarlyActionsAreTheAskedOnes | raconfig/include/raconfig/raconfig.hpp:256-261 | the help action fires exactly when the command line was read and holds `--help`, then the version action exactly when it holds `--version` and a version string is configured |
| EngineLaws.MissingFileFails | raconfig/include/raconfig/raconfig.hpp:262-264 | a configuration file that cannot be read fails the parse, after help and version fired |
| EngineLaws.UnregisteredFileNameFails | raconfig/include/raconfig/raconfig.hpp:280-288 | a file name that no option registered fails the parse as an unrecognised option, after help and version fired |
| EngineLaws.HelpAndVersionDoNotStopTheParse | raconfig/include/raconfig/raconfig.hpp:256-261 | `--help` and `--version` change only the actions fired: the result and show-config equal those of the same command line without them |
| EngineLaws.ReadIgnoresHelpAndVersion | raconfig/include/raconfig/raconfig.hpp:244-254 | dropping `--help` and `--version` changes neither success, the error, the `--config` path, show-config nor the option values |
| EngineLaws.ConvertSeesPathAndValues | raconfig/include/raconfig/raconfig.hpp:262-270 | what follows the command-line parse depends only on the `--config` path and the option values |
| EngineLaws.Precedence | raconfig/include/raconfig/raconfig.hpp:262-270 | each committed value is the converted command-line value if given, else the converted file value if given, else the default |
| EngineLaws.ValidationReportsFirstRejection | raconfig/include/raconfig/raconfig.hpp:269 | the parse fails validation if and only if some option rejects its value; then it fails with the first such option's name and rendered value |
| EngineLaws.ParseFileReadsOnlyTheFile | raconfig/include/raconfig/raconfig.hpp:214-218 | parsing a file fires no action and commits each option's file value if given, else its default |
| EngineLaws.UncheckedOptionAcceptsAll | raconfig/include/raconfig/raconfig.hpp:323-325 | an option declared without a validator accepts every value |
| EngineLaws.EasyOptionKeys | raconfig/include/raconfig/raconfig.hpp:327-328 | an easy option is registered under its tag on the command line and in the file |
| Demo.PowerOfTwoTestCorrect | demo/config.hpp:55-57 | `x > 0 && (x & (x - 1)) == 0` holds if and only if x is a power of two |
| Demo.TestLoopRejectsNonPowers | test/raconfig.cpp:39-44 | the unit tests' loop test `x == 0 \|\| (x & (x - 1)) != 0` holds if and only if x is not a power of two |
| Demo.Power2AcceptsPowersOfTwo | demo/config.hpp:54-57 | the demo's validator accepts a set if and only if every element is a power of two |
| Demo.DemoWellFormed | demo/config.hpp:78-83 | the demo's option list is one the engine accepts |
| Demo.DemoSeeds | demo/config.hpp:36-67 | the demo's defaults, with the `std::greater` set holding 128, 64, 32 in that order |
| Demo.DemoDefaultsCommit | demo/config.hpp:51-63 | with no arguments the demo commits its defaults: every default passes its validator |
| Demo.DemoDefaultsShown | demo/config.hpp:36-83 | show-config of the defaults reports text, number, flag "0", power2 as 128, 64, 32 and color "RED" |
| Demo.DemoRejectsNonPowerOfTwo | demo/config.hpp:54-57 | a set holding 12 is rejected; {8, 4} and the empty set are accepted |
| Scenarios.TestWellFormed | test/raconfig.cpp:28-46 | the test option list is one the engine accepts |
| Scenarios.DefaultsScenario | test/raconfig.cpp:360-371 | no arguments commit every default |
| Scenarios.ShowConfigScenario | test/raconfig.cpp:337-356 | `--show-config --power2=4 --power2=8` commits the new vector and shows every option in declaration order |
| Scenarios.CommandLineOverridesFileScenario | test/raconfig.cpp:393-436 | with the test file and `--number=1 --flag=off`, text, cfg_only_int and power2 come from the file, number and flag from the command line, and cmd_only_int from its default |
| Scenarios.FileOnlyOnCommandLineScenario | test/raconfig.cpp:438-444 | `--cfg_only_int` on the command line fails |
| Scenarios.CommandLineOnlyInFileScenario | test/raconfig.cpp:446-460 | `cmd-only-int` in the file fails as an unrecognised option |
| Scenarios.NoFileScenario | test/raconfig.cpp:462-468 | a missing configuration file fails as unreadable |
| Scenarios.OptionCheckFailedScenario | test/raconfig.cpp:470-477 | `--power2=16 --power2=17` fails naming power2 with the value "{16, 17}" |
| Scenarios.DefVector3FailsEveryParse | test/raconfig.cpp:182-197 | any well-formed option list that declares the containers suite's `def_vector_3` fails every parse, because its unnamed default {7, 8, 9} fails `is_odd` |

## Left out

- The Boost command-line tokenizer and INI parser (`parse_command_line`, `parse_config_file`) are inputs. The model does not cover tokens, short names, sections, `=` syntax, repeated scalars or bad lexical casts, beyond their outcome, which is a failure message or typed values keyed by registered name: the long name on the command line, the file name (such as `common.text`) in the INI file.
- The Boost split of `"text,t"` into long and short names is recorded directly in `Engine.CmdName`.
- `lexical_cast` is modelled only for the types the repository uses: strings, decimal integers, bool as "1"/"0", and the demo color. The bounds of `unsigned short`, `unsigned` and `int` are only checked as value types. The option types are restricted to scalars and integer containers.
- The default `Actions` (`help`, `version`, and the show-config writers in `raconfig.ipp`) are recorded as events. `raconfig.ipp`, the help text layout and whether `help`, `version` or `show_config_end` end the process are not part of this model. The model runs the callbacks after show-config, as the code does after `show_config_end` returns.
- `std::throw_with_nested` keeps the original exception as a nested exception. Only the outer `config_error` message is modelled.
- `throw_option_check_failed` is in `raconfig.ipp`. The model keeps the option's name and rendered value (`OptionCheckFailed`), not the message text that is built from them.
- Exceptions that do not derive from `std::exception`: no modelled input throws one. Their conversion to "unknown exception" is still modelled, in `ToConfigError`.
- Unordered containers: the iteration order of `std::unordered_set`/`std::unordered_multiset` depends on hashing. The model keeps first occurrences in arrival order and claims only membership and counts for them.
- The `instance()` singleton and the `callback` registration struct are left out, because `Config` objects are created directly. `callback` is the same as `AddCallback`. Callbacks are modelled by their identity only, so a callback's effect and any exception it throws are left out.
- The `"?"` branch of the color `operator<<` (demo/main.cpp:46-47) is left out, because no enumerator reaches it. `is >> str` whitespace splitting is left out, because the token arrives already extracted.
- Templates, the macros as text, the `#if __cplusplus` alternatives and the `RACONFIG_VERSION_STRING` build switch are left out. The options are given by data, and the version is an `Option<string>` parameter. The demo does not configure one, so the demo lemmas take it as a parameter.
- The demo's `main` and its console output are left out, because they are I/O.
- Concurrency is left out, because the library does not synchronise.
- The unit tests' own power-of-two loop (test/raconfig.cpp:39-44) is not a separate validator: `Scenarios.TestSchema` uses the demo's `Power2`. The loop rejects an element by the negated bit test, and `Demo.TestLoopRejectsNonPowers` shows that this rejects exactly the non-powers of two: the elements that fail the demo's test `Demo.PowerOfTwoTest`, by `Demo.PowerOfTwoTestCorrect`.
- The container unit tests (test/raconfig.cpp:180-311) use options that are not in the engine's test list, and no scenario replays them. Their container content is covered by the `Containers` and `Range` lemmas. As written, `def_vector_3` has neither a command-line nor a file name, and its default {7, 8, 9} fails `is_odd`. So every parse of that suite's configuration fails validation and commits nothing (`Scenarios.DefVector3FailsEveryParse`), and the values those test cases read afterwards are never committed.
- Engine.WellFormed: requires distinct command-line names, distinct file names, and no command-line name `help`, `version`, `show-config` or `config`. The source checks none of this. `init_option` hands the names to Boost as they are, and Boost accepts the duplicate entries, then fails with its ambiguous-option error only when such a name is given. An `Argv` keyed by long name cannot express that ambiguity, so the model admits only option lists without clashes, and `Engine.NewCells` and `Engine.Config.constructor` require it. `version` is forbidden even when no version string is configured. The source registers `--version` only under `RACONFIG_VERSION_STRING`, so without it an option may take that name. The model keeps one schema predicate for every version string.
