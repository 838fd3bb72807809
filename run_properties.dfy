/** What the fixed phase order of `Lib.Run` guarantees: the gates run
    before any command, commands run in the planned order check list,
    dependency list, attack, and the first failure ends the run. */
module RunProperties {
  import opened Base
  import opened ArrErrors
  import opened Lib

  /** The invocation succeeded. */
  predicate Succeeded(oracle: Invocation -> RunResult, inv: Invocation) {
    oracle(inv) == Exited(true)
  }

  /** A failing platform gate ends the run before any command. */
  lemma RunOsGate(arr: Arr, located: Result<Located, ArrError>, env: Env, oracle: Invocation -> RunResult)
    requires ValidRequest(arr, located) && located.Ok?
    requires IsOsSupported(located.value.yaml, arr.testNum, env.localOs).Fail?
    ensures RunSpec(arr, located, env, oracle) == Trace(Fail(OsNotSupported), [])
  {
  }

  /** On unix, a test that requires elevation, run by a user who is not
      root, ends before any command. */
  lemma RunPrivilegeGate(arr: Arr, located: Result<Located, ArrError>, env: Env, oracle: Invocation -> RunResult)
    requires ValidRequest(arr, located) && located.Ok?
    requires IsOsSupported(located.value.yaml, arr.testNum, env.localOs).Pass?
    requires env.isUnix && !env.isRoot
    requires located.value.yaml.atomicTests[arr.testNum].executor.elevationRequired == Some(true)
    ensures RunSpec(arr, located, env, oracle) == Trace(Fail(RootRequired), [])
  {
  }

  /** Off unix the privilege gate is skipped: being root changes nothing. */
  lemma RunPrivilegeOnlyOnUnix(arr: Arr, located: Result<Located, ArrError>, env: Env, oracle: Invocation -> RunResult)
    requires ValidRequest(arr, located) && !env.isUnix
    ensures RunSpec(arr, located, env, oracle) == RunSpec(arr, located, env.(isRoot := !env.isRoot), oracle)
  {
  }

  /** A test without dependencies runs nothing but its attack, once the
      gates pass. */
  lemma RunWithoutDependencies(arr: Arr, located: Result<Located, ArrError>, env: Env, oracle: Invocation -> RunResult)
    requires ValidRequest(arr, located) && located.Ok?
    requires var yaml := located.value.yaml;
             var n := arr.testNum;
             && IsOsSupported(yaml, n, env.localOs).Pass?
             && !(env.isUnix && CheckSuperuserRequirement(yaml, n, env.isRoot).Fail?)
             && yaml.atomicTests[n].dependencies.None?
    ensures var yaml := located.value.yaml;
            var n := arr.testNum;
            var attack := GetAttackCommand(yaml, n, located.value.artFile, GatherArgs(yaml, arr.vars, n));
            RunSpec(arr, located, env, oracle)
              == match attack
                 case Ok(a) => Trace(Execute(a, oracle), [InvocationOf(a)])
                 case Err(e) => Trace(Fail(e), [])
  {
    var yaml := located.value.yaml;
    var n := arr.testNum;
    var args := GatherArgs(yaml, arr.vars, n);
    var artFile := located.value.artFile;
    var none: seq<Cmd> := [];
    assert PhaseCommands(yaml.atomicTests[n], CheckPhase, artFile, args) == Ok(none);
    assert PhaseCommands(yaml.atomicTests[n], DependencyPhase, artFile, args) == Ok(none);
    assert Invocations(none) == [];
    if GetAttackCommand(yaml, n, artFile, args).Ok? {
      assert ExecAll(none, oracle) == Trace(Pass, []);
      assert GatesPass(arr, located, env);
      assert PhaseList(arr, located, CheckPhase) == Ok(none);
      assert PhaseList(arr, located, DependencyPhase) == Ok(none);
      RunIsSteps(arr, located, env, oracle);
    } else {
      RunAttackBuildError(arr, located, env, oracle);
    }
  }

  /** A missing value in the attack template is found only after the
      check and dependency commands have run and passed. */
  lemma RunAttackBuildError(arr: Arr, located: Result<Located, ArrError>, env: Env, oracle: Invocation -> RunResult)
    requires ValidRequest(arr, located) && located.Ok?
    requires var yaml := located.value.yaml;
             var n := arr.testNum;
             var args := GatherArgs(yaml, arr.vars, n);
             var artFile := located.value.artFile;
             && IsOsSupported(yaml, n, env.localOs).Pass?
             && !(env.isUnix && CheckSuperuserRequirement(yaml, n, env.isRoot).Fail?)
             && PhaseCommands(yaml.atomicTests[n], CheckPhase, artFile, args).Ok?
             && PhaseCommands(yaml.atomicTests[n], DependencyPhase, artFile, args).Ok?
             && AllSucceeded(oracle, Invocations(PhaseCommands(yaml.atomicTests[n], CheckPhase, artFile, args).value))
             && AllSucceeded(oracle, Invocations(PhaseCommands(yaml.atomicTests[n], DependencyPhase, artFile, args).value))
             && GetAttackCommand(yaml, n, artFile, args).Err?
    ensures var yaml := located.value.yaml;
            var n := arr.testNum;
            var args := GatherArgs(yaml, arr.vars, n);
            var artFile := located.value.artFile;
            RunSpec(arr, located, env, oracle)
              == Trace(Fail(GetAttackCommand(yaml, n, artFile, args).error),
                       Invocations(PhaseCommands(yaml.atomicTests[n], CheckPhase, artFile, args).value)
                       + Invocations(PhaseCommands(yaml.atomicTests[n], DependencyPhase, artFile, args).value))
  {
    var yaml := located.value.yaml;
    var n := arr.testNum;
    var args := GatherArgs(yaml, arr.vars, n);
    var artFile := located.value.artFile;
    var checks := PhaseCommands(yaml.atomicTests[n], CheckPhase, artFile, args).value;
    var remedies := PhaseCommands(yaml.atomicTests[n], DependencyPhase, artFile, args).value;
    ExecAllPasses(checks, oracle);
    ExecAllPasses(remedies, oracle);
  }

  /** A list whose every invocation succeeds runs to the end and passes. */
  lemma ExecAllPasses(cmds: seq<Cmd>, oracle: Invocation -> RunResult)
    requires AllSucceeded(oracle, Invocations(cmds))
    ensures ExecAll(cmds, oracle) == Trace(Pass, Invocations(cmds))
  {
    ExecAllFollows(cmds, oracle);
  }

  /** Every step up to and including the construction of the attack
      command succeeds, giving the planned invocations. */
  predicate Constructed(arr: Arr, located: Result<Located, ArrError>, env: Env)
    requires ValidRequest(arr, located)
  {
    && GatesPass(arr, located, env)
    && PhaseList(arr, located, CheckPhase).Ok?
    && PhaseList(arr, located, DependencyPhase).Ok?
    && GetAttackCommand(located.value.yaml, arr.testNum, located.value.artFile,
                        GatherArgs(located.value.yaml, arr.vars, arr.testNum)).Ok?
  }

  /** Every invocation of `s` succeeded. */
  predicate AllSucceeded(oracle: Invocation -> RunResult, s: seq<Invocation>) {
    forall i :: 0 <= i < |s| ==> Succeeded(oracle, s[i])
  }

  /** A trace follows a plan: what ran is a prefix of the plan, every
      invocation but the last that ran succeeded, the trace passes exactly
      when the whole plan ran and succeeded, and a failed trace ends on an
      invocation that failed, whose own outcome is the trace's. */
  predicate FollowsPlan(t: Trace, plan: seq<Invocation>, oracle: Invocation -> RunResult) {
    && |t.ran| <= |plan|
    && t.ran == plan[..|t.ran|]
    && (forall i :: 0 <= i < |t.ran| - 1 ==> Succeeded(oracle, t.ran[i]))
    && (t.outcome.Pass? <==> t.ran == plan && AllSucceeded(oracle, plan))
    && (t.outcome.Fail? ==> t.ran != [] && !Succeeded(oracle, t.ran[|t.ran| - 1])
                            && t.outcome == OutcomeOf(oracle(t.ran[|t.ran| - 1])))
  }

  /** Running a second trace only when the first passed. */
  function Then(t1: Trace, t2: Trace): Trace {
    if t1.outcome.Fail? then t1 else Trace(t2.outcome, t1.ran + t2.ran)
  }

  /** Running a command list follows the list's invocations: a list is
      its front followed, when the front passed, by its last command. */
  lemma {:induction false} ExecAllFollows(cmds: seq<Cmd>, oracle: Invocation -> RunResult)
    ensures FollowsPlan(ExecAll(cmds, oracle), Invocations(cmds), oracle)
  {
    if cmds == [] {
      assert Invocations(cmds) == [];
    } else {
      var n := |cmds| - 1;
      var front, last := cmds[..n], cmds[n];
      var t1, t2 := ExecAll(front, oracle), Trace(Execute(last, oracle), [InvocationOf(last)]);
      ExecAllFollows(front, oracle);
      ExecuteFollows(last, oracle);
      ThenFollows(t1, Invocations(front), t2, [InvocationOf(last)], oracle);
      assert ExecAll(cmds, oracle) == Then(t1, t2);
      InvocationsSnoc(cmds);
    }
  }

  /** The invocations of a list are those of its front, then its last. */
  lemma InvocationsSnoc(cmds: seq<Cmd>)
    requires cmds != []
    ensures Invocations(cmds) == Invocations(cmds[..|cmds| - 1]) + [InvocationOf(cmds[|cmds| - 1])]
  {
    var front := Invocations(cmds[..|cmds| - 1]);
    assert forall i :: 0 <= i < |front| ==> Invocations(cmds)[i] == front[i];
  }

  /** Running one command follows its single invocation. */
  lemma ExecuteFollows(c: Cmd, oracle: Invocation -> RunResult)
    ensures FollowsPlan(Trace(Execute(c, oracle), [InvocationOf(c)]), [InvocationOf(c)], oracle)
  {
    var p := [InvocationOf(c)];
    assert p[0] == InvocationOf(c);
    assert AllSucceeded(oracle, p) <==> Succeeded(oracle, p[0]);
  }

  /** Traces that follow their plans compose into one that follows the
      concatenated plan. */
  lemma ThenFollows(t1: Trace, p1: seq<Invocation>, t2: Trace, p2: seq<Invocation>, oracle: Invocation -> RunResult)
    requires FollowsPlan(t1, p1, oracle) && FollowsPlan(t2, p2, oracle)
    ensures FollowsPlan(Then(t1, t2), p1 + p2, oracle)
  {
    var plan := p1 + p2;
    if t1.outcome.Fail? {
      var k := |t1.ran|;
      assert plan[..k] == p1[..k];
      assert t1.ran[k - 1] == plan[k - 1];
      assert !AllSucceeded(oracle, plan);
    } else {
      var ran := p1 + t2.ran;
      assert t1.ran == p1;
      assert ran == plan[..|ran|];
      forall i | 0 <= i < |ran| - 1 ensures Succeeded(oracle, ran[i]) {
        if i >= |p1| {
          assert ran[i] == t2.ran[i - |p1|];
        }
      }
      if AllSucceeded(oracle, plan) {
        assert forall i :: 0 <= i < |p2| ==> p2[i] == plan[|p1| + i];
      }
      if t2.outcome.Fail? {
        assert ran[|ran| - 1] == t2.ran[|t2.ran| - 1];
      }
    }
  }

  /** The invocations of a built run: every check, then every
      remediation, then the attack. */
  function PlanOf(checks: seq<Cmd>, remedies: seq<Cmd>, attack: Cmd): seq<Invocation> {
    Invocations(checks) + (Invocations(remedies) + [InvocationOf(attack)])
  }

  /** The three command lists of a built run executed one after another,
      up to the first failure. */
  function Chain(checks: seq<Cmd>, remedies: seq<Cmd>, attack: Cmd, oracle: Invocation -> RunResult): Trace {
    Then(ExecAll(checks, oracle), Then(ExecAll(remedies, oracle), Trace(Execute(attack, oracle), [InvocationOf(attack)])))
  }

  lemma ChainFollowsPlan(checks: seq<Cmd>, remedies: seq<Cmd>, attack: Cmd, oracle: Invocation -> RunResult)
    ensures FollowsPlan(Chain(checks, remedies, attack, oracle), PlanOf(checks, remedies, attack), oracle)
  {
    ExecAllFollows(checks, oracle);
    ExecAllFollows(remedies, oracle);
    ExecuteFollows(attack, oracle);
    ThenFollows(ExecAll(remedies, oracle), Invocations(remedies),
                Trace(Execute(attack, oracle), [InvocationOf(attack)]), [InvocationOf(attack)], oracle);
    ThenFollows(ExecAll(checks, oracle), Invocations(checks),
                Then(ExecAll(remedies, oracle), Trace(Execute(attack, oracle), [InvocationOf(attack)])),
                Invocations(remedies) + [InvocationOf(attack)], oracle);
  }

  /** The three command lists a built run executes. */
  function Built(arr: Arr, located: Result<Located, ArrError>, env: Env): (seq<Cmd>, seq<Cmd>, Cmd)
    requires ValidRequest(arr, located) && Constructed(arr, located, env)
  {
    var yaml := located.value.yaml;
    var n := arr.testNum;
    var args := GatherArgs(yaml, arr.vars, n);
    var artFile := located.value.artFile;
    (PhaseCommands(yaml.atomicTests[n], CheckPhase, artFile, args).value,
     PhaseCommands(yaml.atomicTests[n], DependencyPhase, artFile, args).value,
     GetAttackCommand(yaml, n, artFile, args).value)
  }

  /** The invocations of a built run, in the order the phases run. */
  function Plan(arr: Arr, located: Result<Located, ArrError>, env: Env): (p: seq<Invocation>)
    requires ValidRequest(arr, located) && Constructed(arr, located, env)
    ensures p != []
  {
    var b := Built(arr, located, env);
    PlanOf(b.0, b.1, b.2)
  }

  /** A built run is the chain of its three command lists. */
  lemma RunIsChain(arr: Arr, located: Result<Located, ArrError>, env: Env, oracle: Invocation -> RunResult)
    requires ValidRequest(arr, located) && Constructed(arr, located, env)
    ensures RunSpec(arr, located, env, oracle)
              == Chain(Built(arr, located, env).0, Built(arr, located, env).1, Built(arr, located, env).2, oracle)
  {
    var yaml := located.value.yaml;
    var n := arr.testNum;
    var args := GatherArgs(yaml, arr.vars, n);
    var artFile := located.value.artFile;
    var checks := PhaseCommands(yaml.atomicTests[n], CheckPhase, artFile, args).value;
    var remedies := PhaseCommands(yaml.atomicTests[n], DependencyPhase, artFile, args).value;
    var attack := GetAttackCommand(yaml, n, artFile, args).value;
    assert Built(arr, located, env) == (checks, remedies, attack);
    RunIsSteps(arr, located, env, oracle);
    ChainIsSteps(checks, remedies, attack, oracle);
  }

  /** A chain, phase by phase. */
  lemma ChainIsSteps(checks: seq<Cmd>, remedies: seq<Cmd>, attack: Cmd, oracle: Invocation -> RunResult)
    ensures var t1 := ExecAll(checks, oracle);
            var t2 := ExecAll(remedies, oracle);
            Chain(checks, remedies, attack, oracle)
              == if t1.outcome.Fail? then t1
                 else if t2.outcome.Fail? then Trace(t2.outcome, t1.ran + t2.ran)
                 else Trace(Execute(attack, oracle), t1.ran + t2.ran + [InvocationOf(attack)])
  {
    var t1, t2 := ExecAll(checks, oracle), ExecAll(remedies, oracle);
    assert t1.ran + t2.ran + [InvocationOf(attack)] == t1.ran + (t2.ran + [InvocationOf(attack)]);
  }

  /** A built run, phase by phase. */
  lemma RunIsSteps(arr: Arr, located: Result<Located, ArrError>, env: Env, oracle: Invocation -> RunResult)
    requires ValidRequest(arr, located) && Constructed(arr, located, env)
    ensures var yaml := located.value.yaml;
            var n := arr.testNum;
            var args := GatherArgs(yaml, arr.vars, n);
            var artFile := located.value.artFile;
            var t1 := ExecAll(PhaseCommands(yaml.atomicTests[n], CheckPhase, artFile, args).value, oracle);
            var t2 := ExecAll(PhaseCommands(yaml.atomicTests[n], DependencyPhase, artFile, args).value, oracle);
            var attack := GetAttackCommand(yaml, n, artFile, args).value;
            RunSpec(arr, located, env, oracle)
              == if t1.outcome.Fail? then t1
                 else if t2.outcome.Fail? then Trace(t2.outcome, t1.ran + t2.ran)
                 else Trace(Execute(attack, oracle), t1.ran + t2.ran + [InvocationOf(attack)])
  {
  }

  /** A built run follows its plan: check list, dependency list, attack,
      stopping at the first invocation that fails. */
  lemma RunFollowsPlan(arr: Arr, located: Result<Located, ArrError>, env: Env, oracle: Invocation -> RunResult)
    requires ValidRequest(arr, located) && Constructed(arr, located, env)
    ensures FollowsPlan(RunSpec(arr, located, env, oracle), Plan(arr, located, env), oracle)
  {
    var b := Built(arr, located, env);
    RunIsChain(arr, located, env, oracle);
    ChainFollowsPlan(b.0, b.1, b.2, oracle);
  }

  /** In a trace that follows its plan, the first failing invocation of
      the plan is the last one that runs. */
  lemma FollowsPlanStops(t: Trace, plan: seq<Invocation>, oracle: Invocation -> RunResult, j: nat)
    requires FollowsPlan(t, plan, oracle)
    requires j < |plan| && !Succeeded(oracle, plan[j])
    requires forall i :: 0 <= i < j ==> Succeeded(oracle, plan[i])
    ensures t.outcome.Fail? && t.ran == plan[..j + 1]
  {
    assert forall i :: 0 <= i < |t.ran| ==> t.ran[i] == plan[i];
  }

  /** The first failing invocation of the plan is the last one that runs:
      when a check fails, no remediation and no attack run. */
  lemma RunStopsAtFirstFailure(arr: Arr, located: Result<Located, ArrError>, env: Env,
                               oracle: Invocation -> RunResult, j: nat)
    requires ValidRequest(arr, located) && Constructed(arr, located, env)
    requires j < |Plan(arr, located, env)|
    requires !Succeeded(oracle, Plan(arr, located, env)[j])
    requires forall i :: 0 <= i < j ==> Succeeded(oracle, Plan(arr, located, env)[i])
    ensures RunSpec(arr, located, env, oracle).outcome == OutcomeOf(oracle(Plan(arr, located, env)[j]))
    ensures RunSpec(arr, located, env, oracle).outcome.Fail?
    ensures RunSpec(arr, located, env, oracle).ran == Plan(arr, located, env)[..j + 1]
  {
    var t, plan := RunSpec(arr, located, env, oracle), Plan(arr, located, env);
    RunFollowsPlan(arr, located, env, oracle);
    FollowsPlanStops(t, plan, oracle, j);
    assert t.ran[|t.ran| - 1] == plan[j];
  }

  /** Both gates let the run through. */
  predicate GatesPass(arr: Arr, located: Result<Located, ArrError>, env: Env)
    requires ValidRequest(arr, located)
  {
    && located.Ok?
    && IsOsSupported(located.value.yaml, arr.testNum, env.localOs).Pass?
    && !(env.isUnix && CheckSuperuserRequirement(located.value.yaml, arr.testNum, env.isRoot).Fail?)
  }

  /** The command list the run builds for `phase`. */
  function PhaseList(arr: Arr, located: Result<Located, ArrError>, phase: Phase): Result<seq<Cmd>, ArrError>
    requires ValidRequest(arr, located) && located.Ok?
  {
    var yaml := located.value.yaml;
    PhaseCommands(yaml.atomicTests[arr.testNum], phase, located.value.artFile,
                  GatherArgs(yaml, arr.vars, arr.testNum))
  }

  /** A missing value in a check template stops the run before any command
      runs, after both gates have passed. */
  lemma RunCheckBuildError(arr: Arr, located: Result<Located, ArrError>, env: Env,
                           oracle: Invocation -> RunResult)
    requires ValidRequest(arr, located) && GatesPass(arr, located, env)
    requires PhaseList(arr, located, CheckPhase).Err?
    ensures RunSpec(arr, located, env, oracle) == Trace(Fail(PhaseList(arr, located, CheckPhase).error), [])
  {
  }

  /** A failing check list ends the run: nothing after it is built or run. */
  lemma RunCheckFailure(arr: Arr, located: Result<Located, ArrError>, env: Env, oracle: Invocation -> RunResult)
    requires ValidRequest(arr, located) && GatesPass(arr, located, env)
    requires PhaseList(arr, located, CheckPhase).Ok?
    requires ExecAll(PhaseList(arr, located, CheckPhase).value, oracle).outcome.Fail?
    ensures RunSpec(arr, located, env, oracle) == ExecAll(PhaseList(arr, located, CheckPhase).value, oracle)
  {
  }

  /** The first failing check is the last command to run, and its outcome
      is the run's, whether or not the later lists would build. */
  lemma RunStopsAtFailingCheck(arr: Arr, located: Result<Located, ArrError>, env: Env,
                               oracle: Invocation -> RunResult, j: nat)
    requires ValidRequest(arr, located) && GatesPass(arr, located, env)
    requires PhaseList(arr, located, CheckPhase).Ok?
    requires var plan := Invocations(PhaseList(arr, located, CheckPhase).value);
             && j < |plan| && !Succeeded(oracle, plan[j])
             && forall i :: 0 <= i < j ==> Succeeded(oracle, plan[i])
    ensures var plan := Invocations(PhaseList(arr, located, CheckPhase).value);
            && RunSpec(arr, located, env, oracle).ran == plan[..j + 1]
            && RunSpec(arr, located, env, oracle).outcome == OutcomeOf(oracle(plan[j]))
  {
    var checks := PhaseList(arr, located, CheckPhase).value;
    var t := ExecAll(checks, oracle);
    ExecAllFollows(checks, oracle);
    FollowsPlanStops(t, Invocations(checks), oracle, j);
    assert t.ran[|t.ran| - 1] == Invocations(checks)[j];
    RunCheckFailure(arr, located, env, oracle);
  }

  /** A missing value in a remediation template is found only after every
      check has run and passed; no remediation runs. */
  lemma RunDependencyBuildError(arr: Arr, located: Result<Located, ArrError>, env: Env,
                                oracle: Invocation -> RunResult)
    requires ValidRequest(arr, located) && GatesPass(arr, located, env)
    requires PhaseList(arr, located, CheckPhase).Ok?
    requires AllSucceeded(oracle, Invocations(PhaseList(arr, located, CheckPhase).value))
    requires PhaseList(arr, located, DependencyPhase).Err?
    ensures RunSpec(arr, located, env, oracle)
              == Trace(Fail(PhaseList(arr, located, DependencyPhase).error),
                       Invocations(PhaseList(arr, located, CheckPhase).value))
  {
    ExecAllPasses(PhaseList(arr, located, CheckPhase).value, oracle);
  }

  /** Once every check has passed, the first failing remediation is the
      last command to run and its outcome is the run's, whether or not the
      attack template would build. */
  lemma RunStopsAtFailingRemediation(arr: Arr, located: Result<Located, ArrError>, env: Env,
                                     oracle: Invocation -> RunResult, j: nat)
    requires ValidRequest(arr, located) && GatesPass(arr, located, env)
    requires PhaseList(arr, located, CheckPhase).Ok? && PhaseList(arr, located, DependencyPhase).Ok?
    requires AllSucceeded(oracle, Invocations(PhaseList(arr, located, CheckPhase).value))
    requires var plan := Invocations(PhaseList(arr, located, DependencyPhase).value);
             && j < |plan| && !Succeeded(oracle, plan[j])
             && forall i :: 0 <= i < j ==> Succeeded(oracle, plan[i])
    ensures var plan := Invocations(PhaseList(arr, located, DependencyPhase).value);
            && RunSpec(arr, located, env, oracle).ran
                 == Invocations(PhaseList(arr, located, CheckPhase).value) + plan[..j + 1]
            && RunSpec(arr, located, env, oracle).outcome == OutcomeOf(oracle(plan[j]))
  {
    var checks := PhaseList(arr, located, CheckPhase).value;
    var remedies := PhaseList(arr, located, DependencyPhase).value;
    var t := ExecAll(remedies, oracle);
    ExecAllPasses(checks, oracle);
    ExecAllFollows(remedies, oracle);
    FollowsPlanStops(t, Invocations(remedies), oracle, j);
    assert t.ran[|t.ran| - 1] == Invocations(remedies)[j];
  }
}
