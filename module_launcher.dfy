/**
 * Launch planning of `ModuleLauncher`: read the module name and the module
 * home, build the artifact path, and start one `java -jar` child process for
 * it.  The plan is the command vector handed to `ProcessBuilder`; the process
 * itself, its inherited I/O and the shutdown hook that destroys it are outside
 * the model.
 */
module ModuleLauncher {
  import opened JavaStrings
  import opened LaunchConfig
  import opened Wrappers
  import MultiModuleLauncher

  const MODULE_PROPERTY: string := "module"
  const MODULE_VARIABLE: string := "MODULE"
  const MISSING_MODULE_MESSAGE: string :=
    "Either the 'module' system property or 'MODULE' environment variable is required."
  const JAR_SUFFIX: string := ".jar"

  /** `moduleHome + "/" + module + ".jar"`: the suffix is appended whatever the name already ends with. */
  function ArtifactPath(home: string, name: string): (path: string)
    ensures StartsWith(path, home + "/") && EndsWith(path, name + JAR_SUFFIX)
    ensures |path| == |home| + |name| + 5
  {
    StartsWithConcat(home + "/", name + JAR_SUFFIX);
    assert home + "/" + name + JAR_SUFFIX == (home + "/") + (name + JAR_SUFFIX);
    EndsWithConcat(home + "/", name + JAR_SUFFIX);
    home + "/" + name + JAR_SUFFIX
  }

  /**
   * `File.getAbsolutePath` on a Unix file system, without the normalisation
   * `File` applies: an absolute path stays as it is, a relative one is
   * resolved against the working directory `cwd`, and a root working
   * directory contributes no separator of its own.
   */
  function AbsolutePath(cwd: string, path: string): (r: string)
    ensures EndsWith(r, path)
    ensures StartsWith(path, "/") ==> r == path
    ensures !StartsWith(path, "/") && cwd == "/" ==> r == "/" + path
    ensures !StartsWith(path, "/") && cwd != "/" ==> r == cwd + "/" + path
    ensures StartsWith(path, "/") || StartsWith(cwd, "/") ==> StartsWith(r, "/")
  {
    EndsWithConcat(cwd + "/", path);
    EndsWithConcat("/", path);
    if StartsWith(path, "/") then path
    else if cwd == "/" then (assert ("/" + path)[..1] == "/"; "/" + path)
    else
      (assert StartsWith(cwd, "/") ==> (cwd + "/" + path)[..1] == cwd[..1];
       cwd + "/" + path)
  }

  /** Under the root working directory a relative artifact gets a single leading "/". */
  lemma RootWorkingDirectory()
    ensures AbsolutePath("/", "modules/x.jar") == "/modules/x.jar"
  {
    var path := "modules/x.jar";
    assert path[0] == 'm';
  }

  /** What `main` ends in: exit status 1 with a message, or the one child process started. */
  datatype LaunchPlan =
    | Exit(status: int, message: string)
    | Spawn(command: seq<string>)

  /** `main` as a function of the two input tables and the working directory. */
  function PlanLaunch(props: Properties, env: Environment, cwd: string): (plan: LaunchPlan)
    ensures plan.Exit? ==> plan.status == 1 && plan.message == MISSING_MODULE_MESSAGE
    ensures plan.Spawn? ==> |plan.command| == 3 && plan.command[0] == "java" && plan.command[1] == "-jar"
  {
    match Setting(props, MODULE_PROPERTY, env, MODULE_VARIABLE)
    case None => Exit(1, MISSING_MODULE_MESSAGE)
    case Some(name) =>
      var file := ArtifactPath(ModuleHome(props, env), name);
      Spawn(["java", "-jar", AbsolutePath(cwd, file)])
  }

  /**
   * The launcher exits, with status 1 and no process built, exactly when
   * neither `module` nor `MODULE` is set; a missing home never makes it exit.
   */
  lemma PlanExitsIffNoModule(props: Properties, env: Environment, cwd: string)
    ensures PlanLaunch(props, env, cwd).Exit? <==> MODULE_PROPERTY !in props && MODULE_VARIABLE !in env
    ensures PlanLaunch(props, env, cwd).Exit? ==> PlanLaunch(props, env, cwd) == Exit(1, MISSING_MODULE_MESSAGE)
  {
  }

  /**
   * Otherwise exactly one process is started, with the command
   * `java -jar <artifact>`, where the artifact is the module's jar under the
   * resolved home, made absolute.
   */
  lemma SpawnCommand(props: Properties, env: Environment, cwd: string)
    requires MODULE_PROPERTY in props || MODULE_VARIABLE in env
    ensures var name := if MODULE_PROPERTY in props then props[MODULE_PROPERTY] else env[MODULE_VARIABLE];
            var home := ModuleHome(props, env);
            var plan := PlanLaunch(props, env, cwd);
            && plan.Spawn?
            && |plan.command| == 3 && plan.command[0] == "java" && plan.command[1] == "-jar"
            && EndsWith(plan.command[2], home + "/" + name + JAR_SUFFIX)
            && (StartsWith(home, "/") ==> plan.command[2] == home + "/" + name + JAR_SUFFIX)
            && (StartsWith(home, "/") || StartsWith(cwd, "/") ==> StartsWith(plan.command[2], "/"))
  {
    var home := ModuleHome(props, env);
    var name := if MODULE_PROPERTY in props then props[MODULE_PROPERTY] else env[MODULE_VARIABLE];
    var file := ArtifactPath(home, name);
    if StartsWith(home, "/") {
      assert file[..1] == home[..1];
    }
  }

  /** With no home configured, the artifact is under `/opt/spring/modules` whatever the working directory. */
  lemma DefaultHomeCommand(props: Properties, env: Environment, cwd: string)
    requires MODULE_PROPERTY in props || MODULE_VARIABLE in env
    requires MODULE_HOME_PROPERTY !in props && MODULE_HOME_VARIABLE !in env
    ensures var name := if MODULE_PROPERTY in props then props[MODULE_PROPERTY] else env[MODULE_VARIABLE];
            PlanLaunch(props, env, cwd) == Spawn(["java", "-jar", "/opt/spring/modules/" + name + ".jar"])
  {
    SpawnCommand(props, env, cwd);
    var name := if MODULE_PROPERTY in props then props[MODULE_PROPERTY] else env[MODULE_VARIABLE];
    assert DEFAULT_MODULE_HOME + "/" + name + JAR_SUFFIX == "/opt/spring/modules/" + name + ".jar";
  }

  /** `MODULE` is not read once the `module` property is set. */
  lemma PlanIgnoresModuleVariable(props: Properties, env1: Environment, env2: Environment, cwd: string)
    requires MODULE_PROPERTY in props
    requires env1 - {MODULE_VARIABLE} == env2 - {MODULE_VARIABLE}
    ensures PlanLaunch(props, env1, cwd) == PlanLaunch(props, env2, cwd)
  {
    assert MODULE_HOME_VARIABLE in env1 <==> MODULE_HOME_VARIABLE in env1 - {MODULE_VARIABLE};
    assert MODULE_HOME_VARIABLE in env2 <==> MODULE_HOME_VARIABLE in env2 - {MODULE_VARIABLE};
    assert ModuleHome(props, env1) == ModuleHome(props, env2);
  }

  /** A name that already ends in ".jar" gets a second suffix: "foo.jar" becomes ".../foo.jar.jar". */
  lemma SuffixAlwaysAppended(home: string, name: string)
    requires EndsWith(name, JAR_SUFFIX)
    ensures EndsWith(ArtifactPath(home, name), ".jar.jar")
  {
    var path := ArtifactPath(home, name);
    assert path[|path| - 8..] == (name + JAR_SUFFIX)[|name| - 4..];
  }

  /**
   * The two launchers resolve a name to the same artifact path exactly when
   * the name does not already end in ".jar".
   */
  lemma SuffixDiffersFromMultiModuleLauncher(home: string, name: string)
    ensures ArtifactPath(home, name) == MultiModuleLauncher.ModuleFile(home, name) <==> !EndsWith(name, JAR_SUFFIX)
  {
    var single := ArtifactPath(home, name);
    var multi := MultiModuleLauncher.ModuleFile(home, name);
    if EndsWith(name, JAR_SUFFIX) {
      assert |multi| == |home| + 1 + |name|;
    } else {
      assert single == home + "/" + (name + JAR_SUFFIX);
    }
  }
}
