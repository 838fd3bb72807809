/** Three end-to-end runs of one test, `echo #{msg}` under `sh` on linux:
    with the variable given, without it, and with elevation required but
    no root. */
module RunExamples {
  import opened Base
  import opened ArrErrors
  import opened ParseYaml
  import opened Substitution
  import opened Lib
  import opened RunProperties

  const EchoFile: string := "atomics/T0000/T0000.yaml"

  /** One technique with one test that echoes `msg`. */
  function EchoYaml(elevation: Option<bool>): Technique {
    Technique("T0000", "Echo", [
      AtomicTest("echo a message", "0000", "prints msg", [LinuxPlatform],
                 AtomicExecutor("sh", elevation, Some(EchoCommand), None, None),
                 map[], None, None)])
  }

  function EchoRun(vars: map<string, string>): Arr {
    Arr("T0000", vars, 0, "")
  }

  const Linux: Env := Env("linux", true, false)

  /** The attack template of the test. */
  const EchoCommand: string := "echo #{msg}"

  /** The platform name as the test declares it. */
  const LinuxPlatform: string := "Linux"

  /** `"Linux"` normalises to `"linux"`. */
  lemma NormalizeLinux()
    ensures Normalize("Linux") == "linux"
  {
    var l := ToLower("Linux");
    assert l[0] == 'l' && l[1] == 'i' && l[2] == 'n' && l[3] == 'u' && l[4] == 'x';
    assert l == "linux";
    assert !IsWhiteSpace('l') && !IsWhiteSpace('x');
  }

  /** The declared platform name matches the local one after lower-casing. */
  lemma EchoPlatform(elevation: Option<bool>)
    ensures IsOsSupported(EchoYaml(elevation), 0, "linux") == Pass
  {
    LinuxMatches();
    assert EchoYaml(elevation).atomicTests[0].supportedPlatforms == [LinuxPlatform];
  }

  lemma LinuxMatches()
    ensures AnyPlatformMatches([LinuxPlatform], "linux")
  {
    NormalizeLinux();
    FirstPlatformMatches([LinuxPlatform], "linux");
  }

  /** A list whose first name matches passes, whatever follows. */
  lemma FirstPlatformMatches(platforms: seq<string>, localOs: string)
    requires platforms != [] && Normalize(platforms[0]) == localOs
    ensures AnyPlatformMatches(platforms, localOs)
  {
  }

  /** The attack template is literal text before one placeholder. */
  lemma EchoTemplateShape()
    ensures EchoCommand == "echo " + Placeholder("msg")
    ensures '\n' !in EchoCommand && 'P' !in EchoCommand && '#' !in "echo " && ValidName("msg")
  {
  }

  /** A one-line command that ends in its only placeholder, with no path
      token, becomes its text with the argument's value in place. */
  lemma TrailingPlaceholder(pre: string, n: string, artPath: string, args: map<string, string>)
    requires '#' !in pre && ValidName(n)
    requires '\n' !in pre + Placeholder(n) && !HasToken(pre + Placeholder(n))
    ensures ParseCommands(pre + Placeholder(n), artPath, args)
         == if n in args then Ok(pre + args[n]) else Err(ArgValueNotFound(n))
  {
    var s := pre + Placeholder(n);
    assert s == pre + Placeholder(n) + "";
    ParseCommandsOneLine(s, artPath, args);
    UpdatePathIdentity(s, artPath);
    GetVarsNoHash("", args);
    GetVarsSubstitutes(pre, n, "", args);
    if n in args {
      assert pre + args[n] + "" == pre + args[n];
    }
  }

  /** The attack template, as the placeholder pass sees it. */
  lemma EchoTemplate(args: map<string, string>)
    ensures ParseCommands(EchoCommand, EchoFile, args)
         == if "msg" in args then Ok("echo " + args["msg"]) else Err(ArgValueNotFound("msg"))
  {
    EchoTemplateShape();
    NoTokenWithoutP(EchoCommand);
    TrailingPlaceholder("echo ", "msg", EchoFile, args);
  }

  /** With `msg=hello` the attack command is `echo hello`. */
  lemma EchoAttack()
    ensures GetAttackCommand(EchoYaml(None), 0, EchoFile, map["msg" := "hello"]) == Ok(Cmd("echo hello", "sh"))
  {
    var args := map["msg" := "hello"];
    var ex := EchoYaml(None).atomicTests[0].executor;
    assert ex.command == Some(EchoCommand) && ex.name == "sh";
    assert "echo " + args["msg"] == "echo hello";
    EchoTemplate(args);
    assert ParseCommands(ex.command.value, EchoFile, args) == Ok("echo hello");
  }

  /** `sh` is started with `-c`. */
  lemma EchoInvocation()
    ensures InvocationOf(Cmd("echo hello", "sh")) == Invocation("sh", "-c", "echo hello")
  {
    assert "sh" != "cmd" by {
      assert |"sh"| != |"cmd"|;
    }
  }

  /** Whatever the variables, the echo test passes both gates on linux
      and has no dependencies, so its run is its attack alone. */
  lemma EchoRunIsAttack(vars: map<string, string>, oracle: Invocation -> RunResult)
    ensures RunSpec(EchoRun(vars), Ok(Located(EchoFile, EchoYaml(None))), Linux, oracle)
         == match GetAttackCommand(EchoYaml(None), 0, EchoFile, vars)
            case Ok(a) => Trace(Execute(a, oracle), [InvocationOf(a)])
            case Err(e) => Trace(Fail(e), [])
  {
    EchoGates(vars);
    EchoArgs(vars);
    RunWithoutDependencies(EchoRun(vars), Ok(Located(EchoFile, EchoYaml(None))), Linux, oracle);
  }

  /** The echo test declares no inputs, so the arguments are the variables. */
  lemma EchoArgs(vars: map<string, string>)
    ensures GatherArgs(EchoYaml(None), vars, 0) == vars
  {
  }

  /** The echo test passes both gates on linux and has no dependencies. */
  lemma EchoGates(vars: map<string, string>)
    ensures ValidRequest(EchoRun(vars), Ok(Located(EchoFile, EchoYaml(None))))
    ensures IsOsSupported(EchoYaml(None), 0, Linux.localOs).Pass?
    ensures !(Linux.isUnix && CheckSuperuserRequirement(EchoYaml(None), 0, Linux.isRoot).Fail?)
    ensures EchoYaml(None).atomicTests[0].dependencies.None?
  {
    EchoPlatform(None);
  }

  /** Scenario 1: the variable is given, the command runs and decides the outcome. */
  lemma ScenarioGivenVariable(oracle: Invocation -> RunResult)
    ensures RunSpec(EchoRun(map["msg" := "hello"]), Ok(Located(EchoFile, EchoYaml(None))), Linux, oracle)
         == Trace(Execute(Cmd("echo hello", "sh"), oracle), [Invocation("sh", "-c", "echo hello")])
    ensures oracle(Invocation("sh", "-c", "echo hello")) == Exited(true) ==>
              RunSpec(EchoRun(map["msg" := "hello"]), Ok(Located(EchoFile, EchoYaml(None))), Linux, oracle).outcome == Pass
  {
    EchoAttack();
    EchoInvocation();
    EchoRunIsAttack(map["msg" := "hello"], oracle);
  }

  /** Scenario 2: the variable is missing and has no default; nothing runs. */
  lemma ScenarioMissingVariable(oracle: Invocation -> RunResult)
    ensures RunSpec(EchoRun(map[]), Ok(Located(EchoFile, EchoYaml(None))), Linux, oracle)
         == Trace(Fail(ArgValueNotFound("msg")), [])
  {
    EchoMissing();
    EchoRunIsAttack(map[], oracle);
  }

  /** Without `msg` the attack command cannot be built. */
  lemma EchoMissing()
    ensures GetAttackCommand(EchoYaml(None), 0, EchoFile, map[]) == Err(ArgValueNotFound("msg"))
  {
    var ex := EchoYaml(None).atomicTests[0].executor;
    assert ex.command == Some(EchoCommand);
    EchoTemplate(map[]);
  }

  /** Scenario 3: elevation is required and the user is not root; nothing runs. */
  lemma ScenarioNotRoot(oracle: Invocation -> RunResult)
    ensures RunSpec(EchoRun(map["msg" := "hello"]), Ok(Located(EchoFile, EchoYaml(Some(true)))), Linux, oracle)
         == Trace(Fail(RootRequired), [])
  {
    EchoPlatform(Some(true));
    RunPrivilegeGate(EchoRun(map["msg" := "hello"]), Ok(Located(EchoFile, EchoYaml(Some(true)))), Linux, oracle);
  }
}
