# arr — a Dafny model of the Atomic Red Team test runner core

`arr` runs one test of an Atomic Red Team technique. The user names the
technique, a one-based test number, variable overrides (`-s NAME=VALUE`)
and a search path. The runner then does the following, in order:

1. It finds and parses the technique's YAML file.
2. It checks that the test supports the local OS.
3. On unix, it checks that the user is root when the test asks for elevation.
4. It merges the test's declared argument defaults with the overrides.
5. It builds and runs the dependency *check* commands.
6. It builds and runs the dependency *remediation* commands.
7. It builds and runs the *attack* command.

Every command comes from a template. The template's lines are substituted
one by one and then joined with `;`. Each line goes through two passes:

- **Path pass.** The reserved token `PathToAtomicsFolder` is replaced with
  the path of the technique file.
- **Placeholder pass.** Each `#{name}` is replaced with its value. A name
  with no value fails the whole run with `ArgValueNotFound(name)`.

Each command is run as `executor -c command`, or `cmd /c command` for `cmd`.
The first error ends the run.

The modules follow the program:

| module | file | models |
|---|---|---|
| `Base` | `base.dfy` | `Option`/`Result`, and the `str` operations the program relies on: nom's `is_not` (`TakeUntil`), `split`, `lines`, `join` |
| `ArrErrors` | `error.dfy` | the `ArrError` enum |
| `ParseYaml` | `parse_yaml.dfy` | the technique/test/executor/dependency/input-argument records |
| `Substitution` | `parse_command.dfy` | `update_path`, `get_vars`, `lookup_value`, `parse_command`, with reference definitions for both passes |
| `SubstitutionExamples` | `parse_command_examples.dfy` | the repository's unit tests of the two passes |
| `Lib` | `lib.dfy` | `gather_args`, `parse_commands`, the three command builders, the OS and privilege gates, `execute`, and `Arr::run` as a method |
| `RunProperties` | `run_properties.dfy` | what the phase order guarantees: gates before any command, the plan order, stopping at the first failure |
| `RunExamples` | `run_examples.dfy` | three end-to-end runs of an `echo #{msg}` test |
| `Cli` | `cli.dfy` | `parse_vars`, the override map, and the one-based test number |

Both passes are written as the scanners the source builds from nom
combinators. Each alternative becomes an `if` branch, tried in the same
order. Each pass is proved equal to a plain reference definition:

- the path pass to a character-by-character replacement (`ReplaceToken`);
- the placeholder pass to rendering and substituting a list of literal and
  variable segments (`Render`/`Substitute`).

The loops of `get_check_command`, `get_dependency_command` and `Arr::run`
are methods with `while` loops. Each method is proved equal to a
recursive function, and the properties are proved about those functions.

Process execution is an *oracle*: a function from an invocation (program,
flag, script) to its result, passed in as a parameter. A run produces a
`Trace`: the outcome, and the invocations started, in order.

Notes on behaviour:

- Argument defaults are used as they are declared (src/lib.rs:130-134).
  The path token inside a default is *not* replaced. It is replaced only
  when it appears in the template itself.
- The path given to the path pass is the technique file found by the
  locator (`art_file`, src/lib.rs:60), not the search root.
- There is no cleanup step in `Arr::run`.
- A check command that fails ends the run like any other failing command
  (src/lib.rs:61-63). The remediation commands therefore run only after
  every check has passed (src/lib.rs:65-69).

## Model

| member | source | states |
|---|---|---|
| Base.TakeUntil | src/parse_command.rs:29 | the run `is_not` takes is a prefix of the input, holds no stop character, and ends at the end of the input or at a stop character |
| Base.TakeUntilUnique | src/parse_command.rs:29 | those three facts determine the run: any prefix with them is the run |
| Base.Split | src/bin/cli.rs:93 | `split` gives at least one piece, and the first piece is the run up to the first separator |
| Base.SplitPieces | src/bin/cli.rs:93 | no piece holds the separator |
| Base.SplitJoin | src/bin/cli.rs:93 | joining the pieces with the separator gives the input back |
| Base.SplitSecond | src/bin/cli.rs:93 | when the separator occurs there are at least two pieces, and the second is the run after its first occurrence |
| Base.Join | src/lib.rs:223 | joining one piece gives that piece; joining none gives the empty text |
| Base.Lines | src/lib.rs:218-219 | no line holds a line feed; the empty text has no lines, and any other text has at least one |
| Base.LinesOfOneLine | src/lib.rs:218-219 | a non-empty text without a line feed is one line |
| Base.LinesOfJoined | src/lib.rs:218-219 | lines free of `\n` and `\r`, each ended by `\n`, split back into exactly those lines |
| Base.LinesCons | src/lib.rs:218-219 | a first line ended by `\n` comes out with one trailing `\r` removed, and the text after the `\n` is split on its own |
| Base.LinesCrLf | src/lib.rs:218-219 | a line ended by `\r\n` comes out without either character |
| Substitution.UpdatePath | src/parse_command.rs:46-58 | when the path is the token itself, every piece the scanner takes (run, token, single character) is put back as it was, so any text comes back unchanged; the general case is `UpdatePathIsReplaceToken` |
| Substitution.UpdatePathIsReplaceToken | src/parse_command.rs:46-58 | the path scanner (runs without `P`, the token, one character) equals the reference: every token occurrence replaced by the path, left to right, everything else copied |
| Substitution.ReplaceTokenIdentity | src/parse_command.rs:46-58 | the reference leaves text without the token unchanged |
| Substitution.UpdatePathIdentity | src/parse_command.rs:46-58 | the path pass leaves text without the token unchanged |
| Substitution.UpdatePathReplacesFirst | src/parse_command.rs:46-58 | the first occurrence of the token is replaced by the path, the text before it is kept, and the text after it is scanned again |
| Substitution.NoTokenWithoutP | src/parse_command.rs:49-50 | text with no `P` holds no token |
| Substitution.UpdatePathExample | src/parse_command.rs:177-182 | `___PathToAtomicsFolder/LOL/123` with path `yolo` becomes `___yolo/LOL/123` |
| Substitution.MatchPlaceholder | src/parse_command.rs:33 | a match gives a non-empty name without `}`, and the text starts with `#{name}` |
| Substitution.MatchPlaceholderOf | src/parse_command.rs:33 | `#{name}` followed by anything is matched with that name |
| Substitution.LookupValue | src/parse_command.rs:14-21 | a name in the arguments gives its value; a missing name fails with that name |
| Substitution.GetVars | src/parse_command.rs:23-44 | an error names a well-formed name that is missing from the arguments |
| Substitution.GetVarsLiteralPrefix | src/parse_command.rs:29 | a prefix without `#` is copied, and the scan goes on after it |
| Substitution.GetVarsStep | src/parse_command.rs:29 | a leading character other than `#` is copied, and the scan goes on after it |
| Substitution.GetVarsNoHash | src/parse_command.rs:29 | text without `#` is returned unchanged |
| Substitution.GetVarsNoOpener | src/parse_command.rs:25-41 | text in which no `#` is directly followed by `{` is returned unchanged: every `#` there, single or repeated, is copied by the one-character branch |
| Substitution.GetVarsPlaceholder | src/parse_command.rs:14-21 | a leading placeholder is replaced by its value and the rest is scanned; a missing name fails with that name |
| Substitution.GetVarsSubstitutes | src/parse_command.rs:23-44 | text, then a placeholder, then more text: the text is kept and the value inserted, or the missing name is the error |
| Substitution.GetVarsNoClose | src/parse_command.rs:33-37 | text with no `}` has no placeholder and is returned unchanged |
| Substitution.GetVarsEmptyBraces | src/parse_command.rs:33-37 | `#{}` is not a placeholder and is kept literally |
| Substitution.GetVarsFalseStart | src/parse_command.rs:36-37 | a `#` not followed by `{` is kept literally |
| Substitution.GetVarsRender | src/parse_command.rs:23-44 | on every template built from `#`-free text and well-formed names, the placeholder scanner equals the reference: each variable replaced by its value from left to right, and the first missing name reported |
| Substitution.GetVarsErrOccurs | src/parse_command.rs:17-20 | the name in an error occurs as a `#{name}` placeholder in the input |
| Substitution.ParseCommand | src/parse_command.rs:60-77 | the only possible error is `ArgValueNotFound` of a name missing from the arguments |
| Substitution.ParseCommandPlain | src/parse_command.rs:60-77 | a line with neither the token nor a `#` directly followed by `{` comes back unchanged, stray `#`s included: a resolved line is a fixed point |
| Substitution.ParseCommandValueLiteral | src/parse_command.rs:67-70 | a substituted value is inserted as it is: it is not scanned again, neither for the token nor for placeholders |
| Substitution.ParseCommandMissing | src/parse_command.rs:72 | a placeholder whose name is missing fails with `ArgValueNotFound(name)` |
| Substitution.ParseCommandPathFirst | src/parse_command.rs:67-70 | the path pass runs before the placeholder pass, so a token in the template becomes the path, and the path's own placeholders are then substituted |
| SubstitutionExamples.NoVars | src/parse_command.rs:110-115 | text without placeholders is unchanged |
| SubstitutionExamples.VarInMiddle | src/parse_command.rs:118-123 | `abc_#{var1}_b_c` becomes `abc_1_b_c` |
| SubstitutionExamples.VarAtBeginning | src/parse_command.rs:126-131 | `#{var1}_b_c` becomes `1_b_c` |
| SubstitutionExamples.JustVar | src/parse_command.rs:134-139 | `#{var1}` becomes `1` |
| SubstitutionExamples.FakeOutVar | src/parse_command.rs:142-147 | `#{var1` without its brace is unchanged |
| SubstitutionExamples.TrickyVars | src/parse_command.rs:150-155 | `abc_##{var1}#_#{var2}_#{var3}` becomes `abc_#1#_2_3` |
| SubstitutionExamples.TrickyVarsResolved | src/parse_command.rs:150-155 | substituting that result `abc_#1#_2_3` again returns it unchanged |
| SubstitutionExamples.TrickyMiddle | src/parse_command.rs:150-155 | the middle of that case: a `#` before `#{` is literal |
| SubstitutionExamples.TrickyTail | src/parse_command.rs:150-155 | the tail of that case: a `#` before `_` is literal |
| SubstitutionExamples.MultipleVars | src/parse_command.rs:158-163 | three placeholders are replaced from left to right |
| SubstitutionExamples.ValueNotFound | src/parse_command.rs:166-174 | the missing `var9` is the error, even though later placeholders could be filled |
| Lib.GatherArgs | src/lib.rs:125-143 | the keys are the declared names plus the overridden ones; an override wins; every other name keeps its declared default |
| Lib.ParseLinesSpec | src/lib.rs:218-221 | succeeds exactly when every line substitutes, and then gives each line's result in line order; an error is `ArgValueNotFound` of a name missing from the arguments (which line raises it is `ParseLinesFirstError`) |
| Lib.ParseLinesFirstError | src/lib.rs:220-221 | an error is that of the first failing line, and every earlier line succeeds |
| Lib.ParseCommands | src/lib.rs:213-226 | an error is `ArgValueNotFound` of a name missing from the arguments |
| Lib.ParseCommandsJoinsLines | src/lib.rs:218-225 | a success is the `;`-join of the lines' own substitutions, in line order |
| Lib.ParseCommandsFirstError | src/lib.rs:218-221 | a failing template reports the error of its first failing line |
| Lib.ParseCommandsOneLine | src/lib.rs:218-225 | a template without line feeds, the empty one included, is substituted like a single line |
| Lib.ParseCommandsEmpty | src/lib.rs:199-205 | the empty template becomes the empty command |
| Lib.BuildEachSpec | src/lib.rs:152-158 | the list is built exactly when every dependency is accepted; then it holds one command per dependency, in order, each run by the dependency executor; a failure is the failure of the first dependency that is rejected, every earlier one having been accepted |
| Lib.BuildCmdsSpec | src/lib.rs:152-158 | succeeds exactly when every dependency's template substitutes; then it holds one command per dependency, in order, each the substituted template run by the dependency executor; an error is `ArgValueNotFound` of a missing name |
| Lib.BuildEachErrPrefix | src/lib.rs:154-156 | once a dependency fails, later dependencies do not change the result |
| Lib.PhaseCommands | src/lib.rs:152-153 | a test without a dependency executor or without dependencies has an empty list |
| Lib.PhasesAligned | src/lib.rs:152-158 | the check list and the dependency list have one entry per dependency, run by the same executor |
| Lib.PushCommands | src/lib.rs:151-158 | the push loop computes `BuildCmds` |
| Lib.CollectPhase | src/lib.rs:151-159 | the nested `if let`s compute `PhaseCommands` |
| Lib.GetCheckCommand | src/lib.rs:145-167 | the check list is built from each dependency's check template |
| Lib.GetDependencyCommand | src/lib.rs:169-191 | the dependency list is built from each dependency's remediation template |
| Lib.GetAttackCommand | src/lib.rs:193-211 | the command is run by the executor's name; a missing template is the empty command; otherwise it succeeds exactly when the template substitutes, giving its result or its error |
| Lib.TrimStart | src/lib.rs:87 | drops a prefix made of Unicode white space, and keeps everything from the first other character |
| Lib.TrimEnd | src/lib.rs:87 | drops a suffix made of Unicode white space, and keeps everything up to the last other character |
| Lib.Trim | src/lib.rs:87 | the result neither starts nor ends with white space; text that neither starts nor ends with it is unchanged |
| Lib.ToLower | src/lib.rs:87 | lower-cases character by character, keeping the length |
| Lib.AnyPlatformMatches | src/lib.rs:84-87 | true exactly when some declared platform, lower-cased and trimmed, equals the local OS |
| Lib.IsOsSupported | src/lib.rs:81-105 | passes exactly when some declared platform matches; otherwise fails with `OsNotSupported` |
| Lib.CheckSuperuserRequirement | src/lib.rs:107-123 | fails exactly when elevation is required and the user is not root, and then with `RootRequired`; an absent flag never fails |
| Lib.ExecutorFlag | src/lib.rs:231 | `/c` exactly for `cmd`, `-c` for every other executor |
| Lib.InvocationOf | src/lib.rs:231-235 | the executor is started with its flag (`/c` exactly for `cmd`) and the command text |
| Lib.OutcomeOf | src/lib.rs:237-266 | a start failure is `CommandIoFailure` with its text, an unsuccessful exit `CommandExecutionFailed`, and only a successful exit passes |
| Lib.Execute | src/lib.rs:228-266 | passes exactly on a successful exit; an unsuccessful exit is `CommandExecutionFailed`; a start failure is `CommandIoFailure` with its message |
| Lib.ExecAllErrPrefix | src/lib.rs:61-63 | once a command fails, the later ones do not run |
| Lib.ExecuteAll | src/lib.rs:61-63 | the `for` loop with `?` computes `ExecAll` |
| Lib.ExecAll | src/lib.rs:61-63 | running a list starts at most one invocation per command, every command's when the list passes, and, when the list is not empty, always the first command's, first |
| Lib.RunSpec | src/lib.rs:41-78 | no command runs unless the test file was found and parsed and both the platform and the privilege gate passed; a run that passes ran at least one command |
| Lib.Run | src/lib.rs:41-78 | `Arr::run`, written imperatively, computes the phase-ordered specification `RunSpec` |
| RunProperties.RunOsGate | src/lib.rs:49 | an unsupported OS fails with `OsNotSupported` before any command runs |
| RunProperties.RunPrivilegeGate | src/lib.rs:52-54 | on unix, required elevation without root fails with `RootRequired` before any command runs |
| RunProperties.RunPrivilegeOnlyOnUnix | src/lib.rs:52-54 | off unix, being root or not makes no difference to the run |
| RunProperties.RunAttackBuildError | src/lib.rs:59-73 | a missing value in the attack template is found only after every check and remediation has run and passed |
| RunProperties.ExecAllFollows | src/lib.rs:61-63 | running a command list follows the list's invocations: they are started in order, every one before the last started passed, the list passes exactly when all started and passed, and a failing list ends on a failed command whose own outcome (`CommandIoFailure` with its text, or `CommandExecutionFailed`) is the list's |
| RunProperties.ExecAllPasses | src/lib.rs:61-63 | when every invocation succeeds, the whole list runs and passes |
| RunProperties.ThenFollows | src/lib.rs:59-75 | running one trace after another that passed follows the concatenated plan |
| RunProperties.ChainFollowsPlan | src/lib.rs:59-75 | checks, then remediations, then the attack follow the plan in that order |
| RunProperties.RunIsChain | src/lib.rs:41-78 | a run whose three lists are all built is the chain of those lists |
| RunProperties.RunFollowsPlan | src/lib.rs:41-78 | in a run whose three command lists build: what ran is a prefix of checks, remediations, attack; everything before the last command that ran succeeded; the run passes exactly when the whole plan ran and succeeded; a failed run ends on the command that failed, and its error is that command's own outcome |
| RunProperties.FollowsPlanStops | src/lib.rs:59-75 | in a trace that follows its plan, the first failing command is the last one to run |
| RunProperties.RunWithoutDependencies | src/lib.rs:41-78 | a test that passes both gates and has no dependencies runs exactly its attack command, or fails with the attack's build error before anything runs |
| RunProperties.RunStopsAtFirstFailure | src/lib.rs:59-75 | in a run whose three command lists build, the first failing planned command is the last to run and its outcome is the run's, so a failing check prevents every remediation and the attack |
| RunProperties.RunCheckBuildError | src/lib.rs:60 | once the gates pass, a check template with a missing value fails the run with that error before any command runs |
| RunProperties.RunCheckFailure | src/lib.rs:60-63 | once the gates pass and the check list builds, a failing check list is the whole run: no later list is built or run |
| RunProperties.RunStopsAtFailingCheck | src/lib.rs:60-63 | the first failing check is the last command to run and its outcome is the run's, whether or not the remediation and attack templates would build |
| RunProperties.RunDependencyBuildError | src/lib.rs:65-66 | a missing value in a remediation template is reported after every check has run and passed, and no remediation runs |
| RunProperties.RunStopsAtFailingRemediation | src/lib.rs:65-69 | once every check has passed, the first failing remediation is the last command to run and its outcome is the run's, whether or not the attack template would build |
| RunExamples.EchoPlatform | src/lib.rs:84-87 | a test declared for `Linux` passes the gate on `linux` |
| RunExamples.EchoTemplate | src/lib.rs:213-226 | `echo #{msg}` becomes `echo ` plus the value of `msg`, or fails with `ArgValueNotFound("msg")` |
| RunExamples.TrailingPlaceholder | src/lib.rs:213-226 | a one-line template that ends in its only placeholder and holds no path token becomes its text with the value in place, or fails with `ArgValueNotFound` of the name |
| RunExamples.EchoAttack | src/lib.rs:193-211 | with `msg=hello`, the attack is `echo hello` run by `sh` |
| RunExamples.EchoInvocation | src/lib.rs:231-235 | `sh` is started with `-c` |
| RunExamples.EchoMissing | src/lib.rs:193-211 | without `msg`, building the attack fails with `ArgValueNotFound("msg")` |
| RunExamples.ScenarioGivenVariable | src/lib.rs:41-78 | with `msg=hello`, exactly `sh -c "echo hello"` runs, and its exit decides the outcome |
| RunExamples.ScenarioMissingVariable | src/lib.rs:72-73 | without `msg`, the run fails with `ArgValueNotFound("msg")` and nothing runs |
| RunExamples.ScenarioNotRoot | src/lib.rs:52-54 | elevation required without root fails with `RootRequired` and nothing runs |
| Cli.ParseVars | src/bin/cli.rs:86-96 | fails exactly when there is no `=`, with the format message; otherwise the name and the value hold no `=`, the input starts with `name=value`, and the value ends at the end of the input or at a second `=` |
| Cli.ParseVarsIsSplit | src/bin/cli.rs:93-95 | the pair is the first two pieces of `split('=')` |
| Cli.ParseVarsDetermined | src/bin/cli.rs:93-95 | those facts determine the pair |
| Cli.ParseVarsRoundTrip | src/bin/cli.rs:86-96 | a name and a value without `=`, written `name=value`, parse back to themselves |
| Cli.ParseVarsDropsRest | src/bin/cli.rs:93-95 | everything from a second `=` on is dropped from the value |
| Cli.ParseVarsExamples | src/bin/cli.rs:93-95 | `a=b=c` gives `(a, b)`, `=v` gives an empty name, `k=` gives an empty value |
| Cli.ParseVarsNoEquals | src/bin/cli.rs:87-91 | `abc` is rejected with the format message |
| Base.AllOk | src/bin/cli.rs:39-40 | each argument is parsed in order; the list is accepted exactly when every argument is, and then holds each one's result in order; otherwise the error is that of the first argument that fails |
| Cli.ParseAllVars | src/bin/cli.rs:39-40 | the list is accepted exactly when every argument parses, and then holds each argument's pair in order; an error is the format message |
| Cli.ParseAllVarsAccepts | src/bin/cli.rs:39-40 | the list is accepted exactly when each argument holds `=` |
| Cli.CollectVars | src/bin/cli.rs:109 | the override map's keys are exactly the names given |
| Cli.CollectVarsLastWins | src/bin/cli.rs:109 | a name keeps the value of its last pair |
| Cli.CollectVarsExample | src/bin/cli.rs:109 | `a=1, b=2, a=3` gives `a -> 3, b -> 2` |
| Cli.NewArr | src/bin/cli.rs:109-112 | the one-based test number 1..255 becomes the zero-based index (one less); the override map is the collected pairs, so a name keeps its last value; the other fields are passed on |

## Left out

- `find_file` and `parse_art_file`: locating and parsing the YAML file are I/O. `Arr::run` receives their result as `located`, an `Ok` with the file and the parsed technique or the `Err` they returned.
- Process spawning (`Command::output`) is I/O. It is the `oracle` parameter, and the captured stdout and stderr, which are only logged, are not modelled.
- The environment reads (`std::env::consts::OS`, `getuid().is_root()`, `cfg!(unix)`) are fields of the `Env` parameter.
- Logging (`info!`, `error!`), the `Display` messages of `ArrError`, the printed success lines, `env_logger` and clap's help and error output are presentation only.
- clap's parsing of the command line: the defaults (test number 1, path `.`) and the range check on the test number. `NewArr` takes the range as its precondition.
- The `Cleanup` and `Utils` subcommands and the `--cleanup` flag: they call `Arr::cleanup`, `parse_all` and `get_all_executors`, which are not part of this model; util.rs is not part of this model.
- `OtherNomError`: the scanners always succeed except for a missing value, so that branch of `parse_command` cannot happen. The variant exists, but nothing returns it.
- `art_path.to_str().unwrap_or("")`: paths are modelled as strings, so the empty text a non-UTF-8 path turns into is not modelled.
- Lib.ToLower: maps only ASCII letters; the full Unicode lower-casing of `to_lowercase` is not modelled.
- Base.Lines: a final `\r` that no line feed follows is kept, as current Rust releases do; older releases that strip it are not modelled.
- The text of a start failure: the source maps the process library's error straight into `CommandIoFailure(String)` (src/error.rs:12, src/lib.rs:237). The model takes that text from the oracle's `SpawnFailed` report.
- Execute: the oracle gives each invocation a fixed result, so a command's result cannot depend on what ran before it (for example a remediation that installs what the attack needs).
- RunStopsAtFirstFailure and RunFollowsPlan are stated for runs whose three command lists build. Runs where a later list does not build are covered phase by phase, by RunCheckFailure, RunStopsAtFailingCheck, RunDependencyBuildError, RunStopsAtFailingRemediation and RunAttackBuildError.
