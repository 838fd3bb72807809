/** The test-execution pipeline: the variable store, the construction of
    the check, dependency and attack command lists from one test record,
    the platform and privilege gates, the interpreter flag of a command, and
    the fixed order in which `Run` carries the phases out.

    The environment is passed in: the local OS name, whether the build is
    for a unix family, whether the user is root, and an oracle standing for
    the external process that runs one invocation. */
module Lib {
  import opened Base
  import opened ArrErrors
  import opened ParseYaml
  import opened Substitution

  /** A command line paired with the name of the executor that runs it. */
  datatype Cmd = Cmd(command: string, executor: string)

  // ---------------------------------------------------------------------
  // Variable store

  /** The default of every declared input argument. */
  function Defaults(inputs: map<string, InputArg>): map<string, string> {
    map k | k in inputs :: inputs[k].default
  }

  /** The declared defaults of the chosen test, extended by the overrides:
      every declared or overridden name has a value, an override wins, and
      every other name keeps its default. Defaults are taken as they are;
      the path token in a default is not replaced. */
  function GatherArgs(yaml: Technique, vars: map<string, string>, testNum: nat)
    : (args: map<string, string>)
    requires testNum < |yaml.atomicTests|
    ensures args.Keys == yaml.atomicTests[testNum].inputArguments.Keys + vars.Keys
    ensures forall k :: k in vars ==> args[k] == vars[k]
    ensures forall k :: k in yaml.atomicTests[testNum].inputArguments && k !in vars ==>
              args[k] == yaml.atomicTests[testNum].inputArguments[k].default
  {
    Defaults(yaml.atomicTests[testNum].inputArguments) + vars
  }

  // ---------------------------------------------------------------------
  // Multi-line templates

  /** Substitutes every line in order, stopping at the first line that
      fails; `ParseLinesSpec` states what that means. */
  function ParseLines(lines: seq<string>, artPath: string, args: map<string, string>)
    : Result<seq<string>, ArrError>
  {
    if lines == [] then Ok([])
    else
      match ParseCommand(lines[0], artPath, args)
      case Err(e) => Err(e)
      case Ok(c) =>
        match ParseLines(lines[1..], artPath, args)
        case Err(e) => Err(e)
        case Ok(cs) => Ok([c] + cs)
  }

  /** The lines substitute exactly when each of them does, giving each
      line's result in line order; an error is `ArgValueNotFound` of a
      missing name. */
  lemma {:induction false} ParseLinesSpec(lines: seq<string>, artPath: string, args: map<string, string>)
    ensures var r := ParseLines(lines, artPath, args);
            && (r.Ok? ==> |r.value| == |lines|)
            && (r.Ok? <==> forall i :: 0 <= i < |lines| ==> ParseCommand(lines[i], artPath, args).Ok?)
            && (r.Ok? ==> forall i :: 0 <= i < |lines| ==> ParseCommand(lines[i], artPath, args) == Ok(r.value[i]))
            && (r.Err? ==> r.error.ArgValueNotFound? && r.error.name !in args)
  {
    if lines != [] {
      ParseLinesSpec(lines[1..], artPath, args);
      assert forall i :: 1 <= i < |lines| ==> lines[i] == lines[1..][i - 1];
      var r := ParseLines(lines, artPath, args);
      if r.Ok? {
        var cs := ParseLines(lines[1..], artPath, args).value;
        assert forall i :: 1 <= i < |lines| ==> r.value[i] == cs[i - 1];
      }
    }
  }

  /** A template: each line substituted on its own, the results joined
      with `;`; the first line that fails decides the error. */
  function ParseCommands(commands: string, artPath: string, args: map<string, string>)
    : (r: Result<string, ArrError>)
    ensures r.Err? ==> r.error.ArgValueNotFound? && r.error.name !in args
  {
    ParseLinesSpec(Lines(commands), artPath, args);
    match ParseLines(Lines(commands), artPath, args)
    case Ok(cs) => Ok(Join(cs, ";"))
    case Err(e) => Err(e)
  }

  /** When the template fails, the error is that of its first failing line. */
  lemma {:induction false} ParseLinesFirstError(lines: seq<string>, artPath: string, args: map<string, string>)
    returns (j: nat)
    requires ParseLines(lines, artPath, args).Err?
    ensures j < |lines|
    ensures ParseCommand(lines[j], artPath, args) == Err(ParseLines(lines, artPath, args).error)
    ensures forall i :: 0 <= i < j ==> ParseCommand(lines[i], artPath, args).Ok?
  {
    if ParseCommand(lines[0], artPath, args).Err? {
      j := 0;
    } else {
      var j' := ParseLinesFirstError(lines[1..], artPath, args);
      j := j' + 1;
      assert forall i :: 1 <= i < |lines| ==> lines[i] == lines[1..][i - 1];
    }
  }

  /** Every line of a successful template is substituted on its own, and
      the results are joined with `;` in line order. */
  lemma ParseCommandsJoinsLines(commands: string, artPath: string, args: map<string, string>)
    requires ParseCommands(commands, artPath, args).Ok?
    ensures exists cs: seq<string> ::
              && |cs| == |Lines(commands)|
              && (forall i :: 0 <= i < |cs| ==> ParseCommand(Lines(commands)[i], artPath, args) == Ok(cs[i]))
              && ParseCommands(commands, artPath, args) == Ok(Join(cs, ";"))
  {
    ParseLinesSpec(Lines(commands), artPath, args);
    var cs := ParseLines(Lines(commands), artPath, args).value;
    assert |cs| == |Lines(commands)|;
  }

  /** A failing template reports the error of its first failing line. */
  lemma ParseCommandsFirstError(commands: string, artPath: string, args: map<string, string>)
    returns (j: nat)
    requires ParseCommands(commands, artPath, args).Err?
    ensures j < |Lines(commands)|
    ensures ParseCommand(Lines(commands)[j], artPath, args) == Err(ParseCommands(commands, artPath, args).error)
    ensures forall i :: 0 <= i < j ==> ParseCommand(Lines(commands)[i], artPath, args).Ok?
  {
    j := ParseLinesFirstError(Lines(commands), artPath, args);
  }

  /** A one-line template is just that line substituted; so is the empty
      template, which has no lines and becomes the empty command, just as
      the empty line does. */
  lemma ParseCommandsOneLine(command: string, artPath: string, args: map<string, string>)
    requires '\n' !in command
    ensures ParseCommands(command, artPath, args) == ParseCommand(command, artPath, args)
  {
    if command == [] {
      ParseCommandsEmpty(artPath, args);
      GetVarsNoHash(command, args);
    } else {
      LinesOfOneLine(command);
      var ls := [command];
      assert ls[0] == command && ls[1..] == [];
      var empty: seq<string> := [];
      assert ParseLines(empty, artPath, args) == Ok([]);
      match ParseCommand(command, artPath, args)
      case Ok(c) =>
        assert [c] + empty == [c];
        assert ParseLines(ls, artPath, args) == Ok([c]);
      case Err(e) =>
        assert ParseLines(ls, artPath, args) == Err(e);
    }
  }

  /** An empty template has no lines and becomes the empty command. */
  lemma ParseCommandsEmpty(artPath: string, args: map<string, string>)
    ensures ParseCommands("", artPath, args) == Ok("")
  {
  }

  // ---------------------------------------------------------------------
  // Phase command lists

  /** The two phases built from the dependency list. */
  datatype Phase = CheckPhase | DependencyPhase

  /** The template a dependency contributes to a phase. */
  function Template(d: Dependency, phase: Phase): string {
    match phase
    case CheckPhase => d.prereqCommand
    case DependencyPhase => d.getPrereqCommand
  }

  /** One command per dependency, in dependency order, each run by `exec`,
      stopping at the first dependency that `parse` rejects; the phase's
      substitution is passed in so that the list reasoning below does not
      depend on it. */
  function BuildEach(deps: seq<Dependency>, parse: Dependency -> Result<string, ArrError>, exec: string)
    : Result<seq<Cmd>, ArrError>
  {
    if deps == [] then Ok([])
    else
      match BuildEach(deps[..|deps| - 1], parse, exec)
      case Err(e) => Err(e)
      case Ok(cs) =>
        match parse(deps[|deps| - 1])
        case Err(e) => Err(e)
        case Ok(c) => Ok(cs + [Cmd(c, exec)])
  }

  /** The list is built exactly when `parse` accepts every dependency, and
      then holds one command per dependency, in order; a failure is the
      failure of the first dependency `parse` rejects. */
  lemma {:induction false} BuildEachSpec(deps: seq<Dependency>, parse: Dependency -> Result<string, ArrError>,
                                         exec: string)
    ensures var r := BuildEach(deps, parse, exec);
            && (r.Ok? <==> forall i :: 0 <= i < |deps| ==> parse(deps[i]).Ok?)
            && (r.Ok? ==> |r.value| == |deps|)
            && (r.Ok? ==> forall i :: 0 <= i < |deps| ==> r.value[i] == Cmd(parse(deps[i]).value, exec))
            && (r.Err? ==> exists i :: 0 <= i < |deps| && parse(deps[i]) == Err(r.error)
                                       && forall j :: 0 <= j < i ==> parse(deps[j]).Ok?)
  {
    if deps != [] {
      var n := |deps| - 1;
      var front := deps[..n];
      BuildEachSpec(front, parse, exec);
      assert forall i :: 0 <= i < n ==> front[i] == deps[i];
      match BuildEach(front, parse, exec)
      case Err(e) =>
        var i :| 0 <= i < n && parse(front[i]) == Err(e) && forall j :: 0 <= j < i ==> parse(front[j]).Ok?;
        assert parse(deps[i]) == Err(e) && forall j :: 0 <= j < i ==> parse(deps[j]).Ok?;
      case Ok(cs) =>
        if parse(deps[n]).Ok? {
          var r := cs + [Cmd(parse(deps[n]).value, exec)];
          assert forall i :: 0 <= i < n ==> r[i] == cs[i];
        }
    }
  }

  /** A failure on a prefix of the dependency list is the failure of the
      whole list: later dependencies are never looked at. */
  lemma {:induction false} BuildEachErrPrefix(deps: seq<Dependency>, k: nat,
                                              parse: Dependency -> Result<string, ArrError>, exec: string)
    requires k <= |deps| && BuildEach(deps[..k], parse, exec).Err?
    ensures BuildEach(deps, parse, exec) == BuildEach(deps[..k], parse, exec)
    decreases |deps| - k
  {
    if k < |deps| {
      assert deps[..k + 1][..k] == deps[..k];
      BuildEachErrPrefix(deps, k + 1, parse, exec);
    } else {
      assert deps[..k] == deps;
    }
  }

  /** How one dependency's template is substituted in a phase. */
  function DependencyParser(phase: Phase, artPath: string, args: map<string, string>)
    : Dependency -> Result<string, ArrError>
  {
    d => ParseCommands(Template(d, phase), artPath, args)
  }

  /** The commands of one phase of a dependency list: each dependency's
      template substituted and run by `exec`. */
  function BuildCmds(deps: seq<Dependency>, phase: Phase, exec: string, artPath: string,
                     args: map<string, string>): Result<seq<Cmd>, ArrError>
  {
    BuildEach(deps, DependencyParser(phase, artPath, args), exec)
  }

  /** The list is built exactly when every dependency's template
      substitutes, and then holds one command per dependency, in order,
      each the substituted template run by `exec`; the error is the missing
      argument of the first template that fails. */
  lemma BuildCmdsSpec(deps: seq<Dependency>, phase: Phase, exec: string, artPath: string,
                      args: map<string, string>)
    ensures var r := BuildCmds(deps, phase, exec, artPath, args);
            && (r.Ok? <==> forall i :: 0 <= i < |deps| ==> ParseCommands(Template(deps[i], phase), artPath, args).Ok?)
            && (r.Ok? ==> |r.value| == |deps|)
            && (r.Ok? ==> forall i :: 0 <= i < |deps| ==>
                  r.value[i] == Cmd(ParseCommands(Template(deps[i], phase), artPath, args).value, exec))
            && (r.Err? ==> r.error.ArgValueNotFound? && r.error.name !in args)
            && (r.Err? ==> exists i :: (0 <= i < |deps|
                  && ParseCommands(Template(deps[i], phase), artPath, args) == Err(r.error)
                  && forall j :: 0 <= j < i ==> ParseCommands(Template(deps[j], phase), artPath, args).Ok?))
  {
    BuildEachSpec(deps, DependencyParser(phase, artPath, args), exec);
  }

  /** The command list of a phase: empty unless the test names both a
      dependency executor and a dependency list. */
  function PhaseCommands(test: AtomicTest, phase: Phase, artPath: string, args: map<string, string>)
    : (r: Result<seq<Cmd>, ArrError>)
    ensures test.dependencyExecutorName.None? || test.dependencies.None? ==> r == Ok([])
  {
    match (test.dependencyExecutorName, test.dependencies)
    case (Some(exec), Some(deps)) => BuildCmds(deps, phase, exec, artPath, args)
    case _ => Ok([])
  }

  /** The check list and the dependency list line up: both hold one entry
      per dependency, and entry `i` of each is run by the same executor,
      the test's dependency executor. */
  lemma PhasesAligned(test: AtomicTest, artPath: string, args: map<string, string>)
    requires PhaseCommands(test, CheckPhase, artPath, args).Ok?
    requires PhaseCommands(test, DependencyPhase, artPath, args).Ok?
    ensures var checks := PhaseCommands(test, CheckPhase, artPath, args).value;
            var remedies := PhaseCommands(test, DependencyPhase, artPath, args).value;
            && |checks| == |remedies|
            && (test.dependencyExecutorName.Some? && test.dependencies.Some? ==>
                  |checks| == |test.dependencies.value|)
            && forall i :: 0 <= i < |checks| ==>
                 checks[i].executor == remedies[i].executor == test.dependencyExecutorName.value
  {
    if test.dependencyExecutorName.Some? && test.dependencies.Some? {
      var exec, deps := test.dependencyExecutorName.value, test.dependencies.value;
      BuildCmdsSpec(deps, CheckPhase, exec, artPath, args);
      BuildCmdsSpec(deps, DependencyPhase, exec, artPath, args);
    }
  }

  /** Pushes one command per dependency, stopping at the first template
      that fails. */
  method PushCommands(deps: seq<Dependency>, phase: Phase, exec: string, artPath: string,
                      args: map<string, string>) returns (r: Result<seq<Cmd>, ArrError>)
    ensures r == BuildCmds(deps, phase, exec, artPath, args)
  {
    var commands: seq<Cmd> := [];
    var i := 0;
    while i < |deps|
      invariant 0 <= i <= |deps|
      invariant BuildCmds(deps[..i], phase, exec, artPath, args) == Ok(commands)
    {
      var command := ParseCommands(Template(deps[i], phase), artPath, args);
      assert deps[..i + 1][..i] == deps[..i];
      if command.Err? {
        BuildEachErrPrefix(deps, i + 1, DependencyParser(phase, artPath, args), exec);
        return Err(command.error);
      }
      commands := commands + [Cmd(command.value, exec)];
      i := i + 1;
    }
    assert deps[..i] == deps;
    r := Ok(commands);
  }

  /** One phase's list: nothing unless the test names both a dependency
      executor and a dependency list. */
  method CollectPhase(test: AtomicTest, phase: Phase, artPath: string, args: map<string, string>)
    returns (r: Result<seq<Cmd>, ArrError>)
    ensures r == PhaseCommands(test, phase, artPath, args)
  {
    r := Ok([]);
    if test.dependencyExecutorName.Some? {
      if test.dependencies.Some? {
        r := PushCommands(test.dependencies.value, phase, test.dependencyExecutorName.value, artPath, args);
      }
    }
  }

  /** The check list: each dependency's check template, substituted. */
  method GetCheckCommand(yaml: Technique, testNum: nat, artPath: string, vars: map<string, string>)
    returns (r: Result<seq<Cmd>, ArrError>)
    requires testNum < |yaml.atomicTests|
    ensures r == PhaseCommands(yaml.atomicTests[testNum], CheckPhase, artPath, vars)
  {
    r := CollectPhase(yaml.atomicTests[testNum], CheckPhase, artPath, vars);
  }

  /** The dependency list: each dependency's remediation template, substituted. */
  method GetDependencyCommand(yaml: Technique, testNum: nat, artPath: string, vars: map<string, string>)
    returns (r: Result<seq<Cmd>, ArrError>)
    requires testNum < |yaml.atomicTests|
    ensures r == PhaseCommands(yaml.atomicTests[testNum], DependencyPhase, artPath, vars)
  {
    r := CollectPhase(yaml.atomicTests[testNum], DependencyPhase, artPath, vars);
  }

  /** The attack: the executor's command template (an absent one is the
      empty template), substituted, run by the executor's interpreter. */
  function GetAttackCommand(yaml: Technique, testNum: nat, artPath: string, vars: map<string, string>)
    : (r: Result<Cmd, ArrError>)
    requires testNum < |yaml.atomicTests|
    ensures var ex := yaml.atomicTests[testNum].executor;
            && (r.Ok? ==> r.value.executor == ex.name)
            && (ex.command.None? ==> r == Ok(Cmd("", ex.name)))
            && (ex.command.Some? ==>
                  (r.Ok? <==> ParseCommands(ex.command.value, artPath, vars).Ok?) &&
                  (r.Ok? ==> r.value.command == ParseCommands(ex.command.value, artPath, vars).value) &&
                  (r.Err? ==> r.error == ParseCommands(ex.command.value, artPath, vars).error))
  {
    var ex := yaml.atomicTests[testNum].executor;
    var command := match ex.command case Some(c) => c case None => "";
    ParseCommandsEmpty(artPath, vars);
    match ParseCommands(command, artPath, vars)
    case Ok(c) => Ok(Cmd(c, ex.name))
    case Err(e) => Err(e)
  }

  // ---------------------------------------------------------------------
  // Platform gate

  /** The characters Unicode gives the White_Space property, which `trim`
      removes: tab to carriage return, space, next line, no-break space,
      ogham space mark, the en quad to hair space block, the line and
      paragraph separators, the narrow no-break space, the medium
      mathematical space and the ideographic space. */
  predicate IsWhiteSpace(c: char) {
    || '\U{0009}' <= c <= '\U{000D}'
    || c == '\U{0020}' || c == '\U{0085}' || c == '\U{00A0}' || c == '\U{1680}'
    || '\U{2000}' <= c <= '\U{200A}'
    || c == '\U{2028}' || c == '\U{2029}' || c == '\U{202F}' || c == '\U{205F}' || c == '\U{3000}'
  }

  /** `trim_start`: drops the leading white space. */
  function TrimStart(s: string): (r: string)
    ensures |r| <= |s| && r == s[|s| - |r|..]
    ensures forall k :: 0 <= k < |s| - |r| ==> IsWhiteSpace(s[k])
    ensures r != [] ==> !IsWhiteSpace(r[0])
  {
    if s != [] && IsWhiteSpace(s[0]) then
      var r := TrimStart(s[1..]);
      assert forall k :: 1 <= k < |s| - |r| ==> s[k] == s[1..][k - 1];
      r
    else s
  }

  /** `trim_end`: drops the trailing white space. */
  function TrimEnd(s: string): (r: string)
    ensures |r| <= |s| && r == s[..|r|]
    ensures forall k :: |r| <= k < |s| ==> IsWhiteSpace(s[k])
    ensures r != [] ==> !IsWhiteSpace(r[|r| - 1])
  {
    if s != [] && IsWhiteSpace(s[|s| - 1]) then TrimEnd(s[..|s| - 1]) else s
  }

  /** `trim`: the text between the leading and the trailing white space. */
  function Trim(s: string): (r: string)
    ensures r != [] ==> !IsWhiteSpace(r[0]) && !IsWhiteSpace(r[|r| - 1])
    ensures s == [] || (!IsWhiteSpace(s[0]) && !IsWhiteSpace(s[|s| - 1])) ==> r == s
  {
    TrimEnd(TrimStart(s))
  }

  /** Lower case of one character; only ASCII letters are mapped. */
  function LowerChar(c: char): char {
    if 'A' <= c <= 'Z' then (c as int + 32) as char else c
  }

  /** `to_lowercase`, character by character. */
  function ToLower(s: string): (r: string)
    ensures |r| == |s|
    ensures forall i :: 0 <= i < |s| ==> r[i] == LowerChar(s[i])
  {
    seq(|s|, i requires 0 <= i < |s| => LowerChar(s[i]))
  }

  /** A platform name as the gate compares it. */
  function Normalize(platform: string): string {
    Trim(ToLower(platform))
  }

  /** `iter().any(...)` over the platform names. */
  function AnyPlatformMatches(platforms: seq<string>, localOs: string): (b: bool)
    ensures b <==> exists p :: p in platforms && Normalize(p) == localOs
  {
    if platforms == [] then false
    else if Normalize(platforms[0]) == localOs then true
    else
      assert forall p :: p in platforms <==> p == platforms[0] || p in platforms[1..];
      AnyPlatformMatches(platforms[1..], localOs)
  }

  /** The platform gate: passes exactly when some supported platform,
      lower-cased and trimmed, is the local OS name. */
  function IsOsSupported(yaml: Technique, testNum: nat, localOs: string): (r: Outcome<ArrError>)
    requires testNum < |yaml.atomicTests|
    ensures r.Pass? <==> exists p :: p in yaml.atomicTests[testNum].supportedPlatforms && Normalize(p) == localOs
    ensures r.Fail? ==> r.error == OsNotSupported
  {
    if AnyPlatformMatches(yaml.atomicTests[testNum].supportedPlatforms, localOs) then Pass
    else Fail(OsNotSupported)
  }

  // ---------------------------------------------------------------------
  // Privilege gate

  /** The privilege gate: only a test that declares elevation as required
      fails it, and only for a user who is not root. */
  function CheckSuperuserRequirement(yaml: Technique, testNum: nat, isRoot: bool): (r: Outcome<ArrError>)
    requires testNum < |yaml.atomicTests|
    ensures r.Fail? <==> yaml.atomicTests[testNum].executor.elevationRequired == Some(true) && !isRoot
    ensures r.Fail? ==> r.error == RootRequired
  {
    match yaml.atomicTests[testNum].executor.elevationRequired
    case Some(er) => if er && !isRoot then Fail(RootRequired) else Pass
    case None => Pass
  }

  // ---------------------------------------------------------------------
  // Command executor

  /** What the external process reports: it exited (successfully or not),
      or it could not be started. */
  datatype RunResult = Exited(success: bool) | SpawnFailed(message: string)

  /** One process start: the interpreter, its "run this string" flag, and the script. */
  datatype Invocation = Invocation(program: string, flag: string, script: string)

  /** The flag that makes an interpreter run its next argument as a script. */
  function ExecutorFlag(executor: string): (flag: string)
    ensures flag == "/c" <==> executor == "cmd"
    ensures flag == "-c" <==> executor != "cmd"
  {
    if executor == "cmd" then "/c" else "-c"
  }

  /** How one command is started: its executor as the program, with the
      executor's flag and then the command text as the two arguments. */
  function InvocationOf(c: Cmd): (inv: Invocation)
    ensures inv.program == c.executor && inv.script == c.command
    ensures inv.flag == "/c" <==> c.executor == "cmd"
  {
    Invocation(c.executor, ExecutorFlag(c.executor), c.command)
  }

  /** What a process report means for the run: a start failure is
      `CommandIoFailure` with the failure's text, an unsuccessful exit is
      `CommandExecutionFailed`, and only a successful exit passes. */
  function OutcomeOf(res: RunResult): (r: Outcome<ArrError>)
    ensures r.Pass? <==> res == Exited(true)
    ensures res == Exited(false) ==> r == Fail(CommandExecutionFailed)
    ensures res.SpawnFailed? ==> r == Fail(CommandIoFailure(res.message))
  {
    match res
    case SpawnFailed(m) => Fail(CommandIoFailure(m))
    case Exited(ok) => if ok then Pass else Fail(CommandExecutionFailed)
  }

  /** Runs one command and reports what its process did. */
  function Execute(c: Cmd, oracle: Invocation -> RunResult): (r: Outcome<ArrError>)
    ensures r.Pass? <==> oracle(InvocationOf(c)) == Exited(true)
    ensures oracle(InvocationOf(c)) == Exited(false) ==> r == Fail(CommandExecutionFailed)
    ensures oracle(InvocationOf(c)).SpawnFailed? ==>
              r == Fail(CommandIoFailure(oracle(InvocationOf(c)).message))
  {
    OutcomeOf(oracle(InvocationOf(c)))
  }

  /** How each command of a list is started, in order. */
  function Invocations(cmds: seq<Cmd>): (r: seq<Invocation>)
    ensures |r| == |cmds| && forall i :: 0 <= i < |cmds| ==> r[i] == InvocationOf(cmds[i])
  {
    seq(|cmds|, i requires 0 <= i < |cmds| => InvocationOf(cmds[i]))
  }

  /** What was run and how the run ended. */
  datatype Trace = Trace(outcome: Outcome<ArrError>, ran: seq<Invocation>)

  /** Runs a list of commands in order and stops at the first that fails:
      at most one invocation per command, all of them when the list passes,
      and always the first command's, first, when there is one; `ExecAllFollows` states the
      rest. */
  function ExecAll(cmds: seq<Cmd>, oracle: Invocation -> RunResult): (r: Trace)
    ensures |r.ran| <= |cmds|
    ensures r.outcome.Pass? ==> r.ran == Invocations(cmds)
    ensures cmds != [] ==> r.ran != [] && r.ran[0] == InvocationOf(cmds[0])
  {
    if cmds == [] then Trace(Pass, [])
    else
      var t := ExecAll(cmds[..|cmds| - 1], oracle);
      if t.outcome.Fail? then t
      else Trace(Execute(cmds[|cmds| - 1], oracle), t.ran + [InvocationOf(cmds[|cmds| - 1])])
  }

  /** A failure on a prefix of the list is the failure of the whole list. */
  lemma {:induction false} ExecAllErrPrefix(cmds: seq<Cmd>, k: nat, oracle: Invocation -> RunResult)
    requires k <= |cmds| && ExecAll(cmds[..k], oracle).outcome.Fail?
    ensures ExecAll(cmds, oracle) == ExecAll(cmds[..k], oracle)
    decreases |cmds| - k
  {
    if k < |cmds| {
      assert cmds[..k + 1][..k] == cmds[..k];
      ExecAllErrPrefix(cmds, k + 1, oracle);
    } else {
      assert cmds[..k] == cmds;
    }
  }

  /** Runs the list with a loop, stopping at the first failure. */
  method ExecuteAll(cmds: seq<Cmd>, oracle: Invocation -> RunResult) returns (t: Trace)
    ensures t == ExecAll(cmds, oracle)
  {
    var ran: seq<Invocation> := [];
    var i := 0;
    while i < |cmds|
      invariant 0 <= i <= |cmds|
      invariant ExecAll(cmds[..i], oracle) == Trace(Pass, ran)
    {
      var outcome := Execute(cmds[i], oracle);
      ran := ran + [InvocationOf(cmds[i])];
      assert cmds[..i + 1][..i] == cmds[..i];
      if outcome.Fail? {
        ExecAllErrPrefix(cmds, i + 1, oracle);
        return Trace(outcome, ran);
      }
      i := i + 1;
    }
    assert cmds[..i] == cmds;
    t := Trace(Pass, ran);
  }

  // ---------------------------------------------------------------------
  // The pipeline

  /** A run request: technique id, overrides, 0-based test index, search root. */
  datatype Arr = Arr(technique: string, vars: map<string, string>, testNum: nat, artPath: string)

  /** The ambient facts the pipeline reads. */
  datatype Env = Env(localOs: string, isUnix: bool, isRoot: bool)

  /** The definition file found for the technique and what it parses to. */
  datatype Located = Located(artFile: string, yaml: Technique)

  predicate ValidRequest(arr: Arr, located: Result<Located, ArrError>) {
    located.Ok? ==> arr.testNum < |located.value.yaml.atomicTests|
  }

  /** The pipeline in order: locate and parse, the platform gate, the
      privilege gate on unix, gather the arguments, then build and run the
      check list, build and run the dependency list, build and run the
      attack. A failure at any step ends the run, so no command runs
      unless both gates pass, and a run that passes has run the attack. */
  function RunSpec(arr: Arr, located: Result<Located, ArrError>, env: Env,
                   oracle: Invocation -> RunResult): (r: Trace)
    requires ValidRequest(arr, located)
    ensures r.ran != [] ==>
              && located.Ok?
              && IsOsSupported(located.value.yaml, arr.testNum, env.localOs).Pass?
              && !(env.isUnix && CheckSuperuserRequirement(located.value.yaml, arr.testNum, env.isRoot).Fail?)
    ensures r.outcome.Pass? ==> r.ran != []
  {
    match located
    case Err(e) => Trace(Fail(e), [])
    case Ok(Located(artFile, yaml)) =>
      var n := arr.testNum;
      if IsOsSupported(yaml, n, env.localOs).Fail? then Trace(IsOsSupported(yaml, n, env.localOs), [])
      else if env.isUnix && CheckSuperuserRequirement(yaml, n, env.isRoot).Fail? then
        Trace(CheckSuperuserRequirement(yaml, n, env.isRoot), [])
      else
        var args := GatherArgs(yaml, arr.vars, n);
        var test := yaml.atomicTests[n];
        match PhaseCommands(test, CheckPhase, artFile, args)
        case Err(e) => Trace(Fail(e), [])
        case Ok(checks) =>
          var t1 := ExecAll(checks, oracle);
          if t1.outcome.Fail? then t1
          else
            match PhaseCommands(test, DependencyPhase, artFile, args)
            case Err(e) => Trace(Fail(e), t1.ran)
            case Ok(remedies) =>
              var t2 := ExecAll(remedies, oracle);
              if t2.outcome.Fail? then Trace(t2.outcome, t1.ran + t2.ran)
              else
                match GetAttackCommand(yaml, n, artFile, args)
                case Err(e) => Trace(Fail(e), t1.ran + t2.ran)
                case Ok(attack) => Trace(Execute(attack, oracle), t1.ran + t2.ran + [InvocationOf(attack)])
  }

  /** `Arr::run`: the phases one after another, stopping at the first `Err`. */
  method Run(arr: Arr, located: Result<Located, ArrError>, env: Env, oracle: Invocation -> RunResult)
    returns (t: Trace)
    requires ValidRequest(arr, located)
    ensures t == RunSpec(arr, located, env, oracle)
  {
    if located.Err? {
      return Trace(Fail(located.error), []);
    }
    var artFile, yaml := located.value.artFile, located.value.yaml;
    var n := arr.testNum;
    var os := IsOsSupported(yaml, n, env.localOs);
    if os.Fail? {
      return Trace(os, []);
    }
    if env.isUnix {
      var su := CheckSuperuserRequirement(yaml, n, env.isRoot);
      if su.Fail? {
        return Trace(su, []);
      }
    }
    var args := GatherArgs(yaml, arr.vars, n);

    var checkCommand := GetCheckCommand(yaml, n, artFile, args);
    if checkCommand.Err? {
      return Trace(Fail(checkCommand.error), []);
    }
    var t1 := ExecuteAll(checkCommand.value, oracle);
    if t1.outcome.Fail? {
      return t1;
    }

    var dependencyCommand := GetDependencyCommand(yaml, n, artFile, args);
    if dependencyCommand.Err? {
      return Trace(Fail(dependencyCommand.error), t1.ran);
    }
    var t2 := ExecuteAll(dependencyCommand.value, oracle);
    if t2.outcome.Fail? {
      return Trace(t2.outcome, t1.ran + t2.ran);
    }

    var attack := GetAttackCommand(yaml, n, artFile, args);
    if attack.Err? {
      return Trace(Fail(attack.error), t1.ran + t2.ran);
    }
    var outcome := Execute(attack.value, oracle);
    t := Trace(outcome, t1.ran + t2.ran + [InvocationOf(attack.value)]);
  }
}
