/**
 * Launch planning of `MultiModuleLauncher`: read the module list and the
 * module home, normalise each module name to a jar file under the home, and
 * build one `ModuleLaunchTask` per name.  Each task takes its server port from
 * a process-wide counter that starts at 8080 and is incremented once per task,
 * on the calling thread, in list order.  What a task hands to Spring Boot when
 * it runs is the three-argument vector `RunArgs`.
 */
module MultiModuleLauncher {
  import opened Wrappers
  import opened JavaStrings
  import opened LaunchConfig

  const MODULES_PROPERTY: string := "modules"
  const MODULES_VARIABLE: string := "MODULES"
  const MISSING_MODULES_MESSAGE: string :=
    "Either the 'modules' system property or 'MODULES' environment variable is required."
  const JAR_SUFFIX: string := ".jar"

  /** Initial value of the static `SERVER_PORT_SEQUENCE`. */
  const FIRST_SERVER_PORT: int := 8080

  const DOMAIN_ARG: string := "--spring.jmx.default-domain=module-"
  const PORT_ARG: string := "--server.port="
  const BUS_LOCATION_ARG: string := "--spring.bus.location=file:"

  // ---------------------------------------------------------------------------
  // Java `int` arithmetic

  const MIN_INT: int := -0x8000_0000
  const MAX_INT: int := 0x7fff_ffff
  const INT_RANGE: int := 0x1_0000_0000

  type Int32 = x: int | MIN_INT <= x <= MAX_INT

  /** `c + 1` on an `int`: the largest value steps to the smallest. */
  function Increment(c: Int32): Int32 {
    if c == MAX_INT then MIN_INT else c + 1
  }

  /** The counter after `n` increments. */
  function Advance(c: Int32, n: nat): Int32
    decreases n
  {
    if n == 0 then c else Advance(Increment(c), n - 1)
  }

  /** The mathematical value reduced to 32-bit two's complement. */
  function Wrap32(x: int): Int32 {
    (x - MIN_INT) % INT_RANGE + MIN_INT
  }

  /** Two values wrap to the same `int` exactly when they differ by a multiple of 2^32. */
  lemma Wrap32Equal(x: int, y: int)
    ensures Wrap32(x) == Wrap32(y) <==> (x - y) % INT_RANGE == 0
  {
    var qx, qy := (x - MIN_INT) / INT_RANGE, (y - MIN_INT) / INT_RANGE;
    assert x == qx * INT_RANGE + Wrap32(x);
    assert y == qy * INT_RANGE + Wrap32(y);
    if (x - y) % INT_RANGE == 0 {
      var k := (x - y) / INT_RANGE;
      assert x - y == k * INT_RANGE;
      assert Wrap32(x) - Wrap32(y) == (k - qx + qy) * INT_RANGE;
    } else {
      assert x - y == (qx - qy) * INT_RANGE + (Wrap32(x) - Wrap32(y));
    }
  }

  /** Incrementing `n` times is adding `n` and wrapping once. */
  lemma {:induction false} AdvanceIsWrappedSum(c: Int32, n: nat)
    ensures Advance(c, n) == Wrap32(c + n)
    decreases n
  {
    if n == 0 {
      assert Wrap32(c) == c;
    } else {
      AdvanceIsWrappedSum(Increment(c), n - 1);
      Wrap32Equal(Increment(c) + n - 1, c + n);
    }
  }

  /** Without overflow, `n` increments add exactly `n`. */
  lemma {:induction false} AdvanceNoOverflow(c: Int32, n: nat)
    requires c + n <= MAX_INT
    ensures Advance(c, n) == c + n
    decreases n
  {
    if n > 0 {
      AdvanceNoOverflow(Increment(c), n - 1);
    }
  }

  /** One more increment after `n` of them. */
  lemma {:induction false} AdvanceStep(c: Int32, n: nat)
    ensures Increment(Advance(c, n)) == Advance(c, n + 1)
    decreases n
  {
    if n > 0 {
      AdvanceStep(Increment(c), n - 1);
    }
  }

  /** Up to 2^32 increments never revisit a counter value. */
  lemma AdvanceDistinct(c: Int32, i: nat, j: nat)
    requires i < j < INT_RANGE
    ensures Advance(c, i) != Advance(c, j)
  {
    AdvanceIsWrappedSum(c, i);
    AdvanceIsWrappedSum(c, j);
    Wrap32Equal(c + i, c + j);
    assert (c + i - (c + j)) % INT_RANGE == INT_RANGE - (j - i);
  }

  // ---------------------------------------------------------------------------
  // Tasks and their arguments

  /** A `ModuleLaunchTask`: its two final fields. */
  datatype ModuleLaunchTask = ModuleLaunchTask(file: string, serverPort: Int32)

  /** `module.endsWith(".jar") ? module : module + ".jar"` */
  function NormalizeName(name: string): string {
    if EndsWith(name, JAR_SUFFIX) then name else name + JAR_SUFFIX
  }

  /** The normalised name always ends with ".jar", and is the name itself exactly when that already does. */
  lemma NormalizeNameSuffix(name: string)
    ensures EndsWith(NormalizeName(name), JAR_SUFFIX)
    ensures NormalizeName(name) == name || NormalizeName(name) == name + JAR_SUFFIX
    ensures NormalizeName(name) == name <==> EndsWith(name, JAR_SUFFIX)
  {
    EndsWithConcat(name, JAR_SUFFIX);
  }

  /** Normalising twice is normalising once. */
  lemma NormalizeIdempotent(name: string)
    ensures NormalizeName(NormalizeName(name)) == NormalizeName(name)
  {
    NormalizeNameSuffix(name);
  }

  /** "foo" and "foo.jar" name the same file. */
  lemma NormalizeAbsorbsSuffix(name: string)
    requires !EndsWith(name, JAR_SUFFIX)
    ensures NormalizeName(name + JAR_SUFFIX) == NormalizeName(name)
  {
    EndsWithConcat(name, JAR_SUFFIX);
  }

  /** `new File(moduleHome, module).getPath()` for the normalised name. */
  function ModuleFile(home: string, name: string): string {
    home + "/" + NormalizeName(name)
  }

  /** A task file lies directly under the home and is named by the normalised name, so it ends with ".jar". */
  lemma ModuleFileShape(home: string, name: string)
    ensures StartsWith(ModuleFile(home, name), home + "/") && EndsWith(ModuleFile(home, name), JAR_SUFFIX)
    ensures ModuleFile(home, name)[|home| + 1..] == NormalizeName(name)
  {
    var normalized := NormalizeName(name);
    NormalizeNameSuffix(name);
    EndsWithPrefixed(home + "/", normalized, JAR_SUFFIX);
    StartsWithConcat(home + "/", normalized);
    assert (home + "/" + normalized)[|home| + 1..] == normalized;
  }

  /** The arguments `run` passes to `SpringApplicationBuilder.run`. */
  function RunArgs(task: ModuleLaunchTask): (args: seq<string>)
    ensures |args| == 3
    ensures StartsWith(args[0], DOMAIN_ARG) && StartsWith(args[1], PORT_ARG) && StartsWith(args[2], BUS_LOCATION_ARG)
  {
    var port := IntToDecimal(task.serverPort);
    StartsWithConcat(DOMAIN_ARG, port);
    StartsWithConcat(PORT_ARG, port);
    StartsWithConcat(BUS_LOCATION_ARG, task.file);
    [DOMAIN_ARG + port, PORT_ARG + port, BUS_LOCATION_ARG + task.file]
  }

  /** Reads a task's identity back from an argument vector; `None` unless it has the shape `RunArgs` gives. */
  function DecodeRunArgs(args: seq<string>): Option<ModuleLaunchTask> {
    if |args| == 3 && StartsWith(args[0], DOMAIN_ARG) && StartsWith(args[1], PORT_ARG)
       && StartsWith(args[2], BUS_LOCATION_ARG)
    then
      match ParseDecimal(args[1][|PORT_ARG|..])
      case Some(p) =>
        if MIN_INT <= p <= MAX_INT && args[0] == DOMAIN_ARG + IntToDecimal(p)
        then Some(ModuleLaunchTask(args[2][|BUS_LOCATION_ARG|..], p))
        else None
      case None => None
    else None
  }

  /** The argument vector carries the task's port and file and nothing is lost. */
  lemma RunArgsRoundTrip(task: ModuleLaunchTask)
    ensures DecodeRunArgs(RunArgs(task)) == Some(task)
  {
    var args := RunArgs(task);
    var port := IntToDecimal(task.serverPort);
    assert args[1][|PORT_ARG|..] == port;
    assert args[2][|BUS_LOCATION_ARG|..] == task.file;
    IntToDecimalRoundTrip(task.serverPort);
  }

  /** Two tasks get the same management domain exactly when they have the same port. */
  lemma DomainArgInjective(t1: ModuleLaunchTask, t2: ModuleLaunchTask)
    ensures RunArgs(t1)[0] == RunArgs(t2)[0] <==> t1.serverPort == t2.serverPort
    ensures RunArgs(t1)[1] == RunArgs(t2)[1] <==> t1.serverPort == t2.serverPort
  {
    PrefixCancel(DOMAIN_ARG, IntToDecimal(t1.serverPort), IntToDecimal(t2.serverPort));
    PrefixCancel(PORT_ARG, IntToDecimal(t1.serverPort), IntToDecimal(t2.serverPort));
    IntToDecimalInjective(t1.serverPort, t2.serverPort);
  }

  // ---------------------------------------------------------------------------
  // The `launchModules` loop, as a function of the counter it starts from

  /** The file of every name in the list, in list order. */
  function ModuleFiles(home: string, modules: seq<string>): (files: seq<string>)
    ensures |files| == |modules|
  {
    seq(|modules|, i requires 0 <= i < |modules| => ModuleFile(home, modules[i]))
  }

  /**
   * One task per file, in list order: each construction reads the counter
   * and leaves it one higher for the next.
   */
  function TaskSequence(files: seq<string>, counter: Int32): (tasks: seq<ModuleLaunchTask>)
    ensures |tasks| == |files|
  {
    if files == [] then []
    else [ModuleLaunchTask(files[0], counter)] + TaskSequence(files[1..], Increment(counter))
  }

  /** Task `i` takes the i-th file and the counter advanced `i` times. */
  lemma {:induction false} TaskSequenceAt(files: seq<string>, counter: Int32, i: nat)
    requires i < |files|
    ensures TaskSequence(files, counter)[i] == ModuleLaunchTask(files[i], Advance(counter, i))
    decreases i
  {
    if i > 0 {
      var tasks := TaskSequence(files, counter);
      assert tasks[i] == TaskSequence(files[1..], Increment(counter))[i - 1];
      TaskSequenceAt(files[1..], Increment(counter), i - 1);
    }
  }

  /** Numbering `a` and then `b` from where `a` stopped is numbering `a + b`. */
  lemma {:induction false} TaskSequenceAppend(a: seq<string>, b: seq<string>, counter: Int32)
    ensures TaskSequence(a + b, counter) == TaskSequence(a, counter) + TaskSequence(b, Advance(counter, |a|))
    decreases |a|
  {
    if a == [] {
      assert a + b == b;
    } else {
      assert (a + b)[1..] == a[1..] + b;
      TaskSequenceAppend(a[1..], b, Increment(counter));
    }
  }

  /** The tasks `launchModules` builds for `modules`, starting from `counter`. */
  function PlannedTasks(home: string, modules: seq<string>, counter: Int32): (tasks: seq<ModuleLaunchTask>)
    ensures |tasks| == |modules|
  {
    TaskSequence(ModuleFiles(home, modules), counter)
  }

  /** Task `i` is for the i-th name and has the port `i` steps past the starting counter. */
  lemma PlannedTaskAt(home: string, modules: seq<string>, counter: Int32, i: nat)
    requires i < |modules|
    ensures PlannedTasks(home, modules, counter)[i].file == ModuleFile(home, modules[i])
    ensures PlannedTasks(home, modules, counter)[i].serverPort == Advance(counter, i)
  {
    TaskSequenceAt(ModuleFiles(home, modules), counter, i);
  }

  /**
   * Launching `a` and then `b` is launching `a + b`: the counter carries over
   * from one call to the next and is never reset.
   */
  lemma PlannedTasksAppend(home: string, a: seq<string>, b: seq<string>, counter: Int32)
    ensures PlannedTasks(home, a + b, counter)
            == PlannedTasks(home, a, counter) + PlannedTasks(home, b, Advance(counter, |a|))
  {
    var fa, fb, fab := ModuleFiles(home, a), ModuleFiles(home, b), ModuleFiles(home, a + b);
    forall k | 0 <= k < |a + b|
      ensures fab[k] == (fa + fb)[k]
    {
      if k < |a| {
        assert (a + b)[k] == a[k];
      } else {
        assert (a + b)[k] == b[k - |a|];
      }
    }
    assert fab == fa + fb;
    TaskSequenceAppend(ModuleFiles(home, a), ModuleFiles(home, b), counter);
  }

  /**
   * Ports are pairwise distinct for any list of up to 2^32 names, duplicate
   * names included; equal names share a file but not a port.
   */
  lemma PlannedPortsDistinct(home: string, modules: seq<string>, counter: Int32, i: nat, j: nat)
    requires i < j < |modules| && |modules| <= INT_RANGE
    ensures PlannedTasks(home, modules, counter)[i].serverPort != PlannedTasks(home, modules, counter)[j].serverPort
    ensures modules[i] == modules[j] ==> PlannedTasks(home, modules, counter)[i].file == PlannedTasks(home, modules, counter)[j].file
  {
    PlannedTaskAt(home, modules, counter, i);
    PlannedTaskAt(home, modules, counter, j);
    AdvanceDistinct(counter, i, j);
  }

  /** Without overflow the ports are exactly counter, counter + 1, ..., counter + n - 1. */
  lemma PlannedPortsConsecutive(home: string, modules: seq<string>, counter: Int32, i: nat)
    requires i < |modules| && counter + |modules| - 1 <= MAX_INT
    ensures PlannedTasks(home, modules, counter)[i].serverPort == counter + i
    ensures PlannedTasks(home, modules, counter)[i].file == ModuleFile(home, modules[i])
  {
    PlannedTaskAt(home, modules, counter, i);
    AdvanceNoOverflow(counter, i);
  }

  /** Distinct ports give distinct management domains, so no two planned tasks share one. */
  lemma PlannedDomainsDistinct(home: string, modules: seq<string>, counter: Int32, i: nat, j: nat)
    requires i < j < |modules| && |modules| <= INT_RANGE
    ensures RunArgs(PlannedTasks(home, modules, counter)[i])[0] != RunArgs(PlannedTasks(home, modules, counter)[j])[0]
  {
    var tasks := PlannedTasks(home, modules, counter);
    PlannedPortsDistinct(home, modules, counter, i, j);
    DomainArgInjective(tasks[i], tasks[j]);
  }

  // ---------------------------------------------------------------------------
  // `main`

  /** What `main` ends in: exit status 1 with a message, or the tasks handed to executors and the counter after them. */
  datatype LaunchPlan =
    | Exit(status: int, message: string)
    | Launched(tasks: seq<ModuleLaunchTask>, nextServerPort: Int32)

  /**
   * `main` as a function of the two input tables, the (not modelled)
   * comma tokeniser and the counter value it starts from.
   */
  function PlanLaunch(props: Properties, env: Environment, tokenize: string -> seq<string>, counter: Int32): (plan: LaunchPlan)
    ensures plan.Exit? ==> plan.status == 1 && plan.message == MISSING_MODULES_MESSAGE
    ensures plan.Launched? ==> MODULES_PROPERTY in props || MODULES_VARIABLE in env
  {
    match Setting(props, MODULES_PROPERTY, env, MODULES_VARIABLE)
    case None => Exit(1, MISSING_MODULES_MESSAGE)
    case Some(modules) =>
      var names := tokenize(modules);
      Launched(PlannedTasks(ModuleHome(props, env), names, counter), Advance(counter, |names|))
  }

  /**
   * The launcher exits, with status 1 and no task built, exactly when neither
   * `modules` nor `MODULES` is set; a missing home never makes it exit.
   */
  lemma PlanExitsIffNoModules(props: Properties, env: Environment, tokenize: string -> seq<string>, counter: Int32)
    ensures PlanLaunch(props, env, tokenize, counter).Exit?
            <==> MODULES_PROPERTY !in props && MODULES_VARIABLE !in env
    ensures PlanLaunch(props, env, tokenize, counter).Exit?
            ==> PlanLaunch(props, env, tokenize, counter) == Exit(1, MISSING_MODULES_MESSAGE)
  {
  }

  /**
   * When the module list is found, task `i` is built from the i-th token of
   * the property (or, failing that, the variable), under the resolved home,
   * with port `i` steps past the counter; the counter ends `n` steps past it.
   */
  lemma PlanLaunchedTasks(props: Properties, env: Environment, tokenize: string -> seq<string>, counter: Int32, i: nat)
    requires MODULES_PROPERTY in props || MODULES_VARIABLE in env
    requires i < |tokenize(if MODULES_PROPERTY in props then props[MODULES_PROPERTY] else env[MODULES_VARIABLE])|
    ensures var names := tokenize(if MODULES_PROPERTY in props then props[MODULES_PROPERTY] else env[MODULES_VARIABLE]);
            var plan := PlanLaunch(props, env, tokenize, counter);
            && plan.Launched?
            && |plan.tasks| == |names|
            && plan.nextServerPort == Advance(counter, |names|)
            && plan.tasks[i] == ModuleLaunchTask(ModuleFile(ModuleHome(props, env), names[i]), Advance(counter, i))
  {
    var names := tokenize(if MODULES_PROPERTY in props then props[MODULES_PROPERTY] else env[MODULES_VARIABLE]);
    PlannedTaskAt(ModuleHome(props, env), names, counter, i);
  }

  /**
   * A module list that is present but yields no tokens (the empty string, for
   * a tokeniser that drops empty tokens) is not an error: nothing is launched
   * and the counter is left as it was.
   */
  lemma EmptyModuleListLaunchesNothing(props: Properties, env: Environment, tokenize: string -> seq<string>, counter: Int32)
    requires MODULES_PROPERTY in props || MODULES_VARIABLE in env
    requires tokenize(if MODULES_PROPERTY in props then props[MODULES_PROPERTY] else env[MODULES_VARIABLE]) == []
    ensures PlanLaunch(props, env, tokenize, counter) == Launched([], counter)
  {
    assert Advance(counter, 0) == counter;
  }

  /** In a fresh process the tasks get 8080, 8081, ... in list order. */
  lemma FreshProcessPorts(props: Properties, env: Environment, tokenize: string -> seq<string>, i: nat)
    requires MODULES_PROPERTY in props || MODULES_VARIABLE in env
    requires var plan := PlanLaunch(props, env, tokenize, FIRST_SERVER_PORT);
             plan.Launched? && i < |plan.tasks| && |plan.tasks| <= MAX_INT - FIRST_SERVER_PORT + 1
    ensures PlanLaunch(props, env, tokenize, FIRST_SERVER_PORT).tasks[i].serverPort == FIRST_SERVER_PORT + i
  {
    var names := tokenize(if MODULES_PROPERTY in props then props[MODULES_PROPERTY] else env[MODULES_VARIABLE]);
    PlannedPortsConsecutive(ModuleHome(props, env), names, FIRST_SERVER_PORT, i);
  }

  /** `MODULES` is not read once the `modules` property is set. */
  lemma PlanIgnoresModulesVariable(props: Properties, env1: Environment, env2: Environment,
                                   tokenize: string -> seq<string>, counter: Int32)
    requires MODULES_PROPERTY in props
    requires env1 - {MODULES_VARIABLE} == env2 - {MODULES_VARIABLE}
    ensures PlanLaunch(props, env1, tokenize, counter) == PlanLaunch(props, env2, tokenize, counter)
  {
    assert MODULE_HOME_VARIABLE in env1 <==> MODULE_HOME_VARIABLE in env1 - {MODULES_VARIABLE};
    assert MODULE_HOME_VARIABLE in env2 <==> MODULE_HOME_VARIABLE in env2 - {MODULES_VARIABLE};
    assert ModuleHome(props, env1) == ModuleHome(props, env2);
  }

  // ---------------------------------------------------------------------------
  // The process state: the static port sequence

  /** One JVM running the launcher; its only state is the static counter. */
  class LauncherProcess {
    /** `ModuleLaunchTask.SERVER_PORT_SEQUENCE` */
    var serverPortSequence: Int32

    /** A fresh process: class initialisation sets the counter to 8080. */
    constructor ()
      ensures serverPortSequence == FIRST_SERVER_PORT
    {
      serverPortSequence := FIRST_SERVER_PORT;
    }

    /** The `ModuleLaunchTask` constructor: takes the current counter value as the port, then increments it. */
    method NewModuleLaunchTask(file: string) returns (task: ModuleLaunchTask)
      modifies this
      ensures task == ModuleLaunchTask(file, old(serverPortSequence))
      ensures serverPortSequence == Increment(old(serverPortSequence))
    {
      task := ModuleLaunchTask(file, serverPortSequence);
      serverPortSequence := Increment(serverPortSequence);
    }

    /** `launchModules`: one task per name, in list order; `launched` lists what was handed to executors. */
    method LaunchModules(home: string, modules: seq<string>) returns (launched: seq<ModuleLaunchTask>)
      modifies this
      ensures launched == PlannedTasks(home, modules, old(serverPortSequence))
      ensures serverPortSequence == Advance(old(serverPortSequence), |modules|)
    {
      ghost var start := serverPortSequence;
      launched := [];
      for i := 0 to |modules|
        invariant launched == PlannedTasks(home, modules[..i], start)
        invariant serverPortSequence == Advance(start, i)
      {
        var name := NormalizeName(modules[i]);
        var task := NewModuleLaunchTask(home + "/" + name);
        assert task == ModuleLaunchTask(ModuleFile(home, modules[i]), Advance(start, i));
        assert modules[..i + 1] == modules[..i] + [modules[i]];
        PlannedTasksAppend(home, modules[..i], [modules[i]], start);
        assert PlannedTasks(home, [modules[i]], Advance(start, i)) == [task];
        AdvanceStep(start, i);
        launched := launched + [task];
      }
      assert modules[..|modules|] == modules;
    }

    /** `main`: read the settings, then either exit or launch. */
    method Launch(props: Properties, env: Environment, tokenize: string -> seq<string>) returns (plan: LaunchPlan)
      modifies this
      ensures plan == PlanLaunch(props, env, tokenize, old(serverPortSequence))
      ensures plan.Launched? ==> serverPortSequence == plan.nextServerPort
      ensures plan.Exit? ==> serverPortSequence == old(serverPortSequence)
    {
      var modules := Setting(props, MODULES_PROPERTY, env, MODULES_VARIABLE);
      if modules.None? {
        return Exit(1, MISSING_MODULES_MESSAGE);
      }
      var moduleHome := ModuleHome(props, env);
      var tasks := LaunchModules(moduleHome, tokenize(modules.value));
      plan := Launched(tasks, serverPortSequence);
    }
  }
}
