# module-launcher: launch planning

This project models the deterministic part of the two launchers in
`org.springframework.pipes.module.launcher`. That part is everything the `main` methods do
before they hand control to Spring Boot, the JVM or the operating system.

- `MultiModuleLauncher` reads a module list and a module home directory. It turns each module
  name into a jar file under the home and builds one `ModuleLaunchTask` per name. Each task takes
  its server port from a static counter that starts at 8080. When a task runs, it passes three
  arguments to Spring Boot: a JMX management domain, the server port, and a bus location.
- `ModuleLauncher` reads one module name and the module home. It builds the artifact path and
  starts exactly one `java -jar <artifact>` child process.

Each launcher is a function from the system properties, the environment (and, for the single
launcher, the working directory) to either an exit with status 1 or a launch plan.

- The multi-module plan is the list of tasks (file path, port) and the counter value afterwards.
  Each task's argument vector is `RunArgs`.
- The single-module plan is the command vector given to `ProcessBuilder`.

The multi launcher's counter is a static field, so it is modelled as the state of a class. Its
`main` and `launchModules` methods are imperative. Each is proved equal to the pure plan.

Modules:

- `Wrappers`: `Option`, used for Java's `null`.
- `JavaStrings`: `endsWith` and `startsWith`, and the decimal text Java's string concatenation
  gives an `int`. That text is parsed back to show that distinct ports give distinct strings.
- `LaunchConfig`: how a setting is chosen. The system property comes first, then the environment
  variable, then a default.
- `MultiModuleLauncher`: 32-bit counter arithmetic, name normalisation, the file join, the task
  list, the run arguments, `main`, and the class `LauncherProcess`, which holds the static counter.
- `ModuleLauncher`: the artifact path, the absolute path, and the command vector.

`SERVER_PORT_SEQUENCE` is a Java `int`, and `SERVER_PORT_SEQUENCE++` wraps around from
2147483647 to -2147483648. The model writes this out (`Increment`, `Advance`, `Wrap32`). Ports
are pairwise distinct for any list of up to 2^32 names. They are exactly `c, c+1, …, c+n-1` when
the count does not overflow.

Several things the code does are easy to misread, and the model follows the code:

- The port counter is a plain static `int`, not an atomic counter. The task constructor reads and
  increments it on the calling thread, in list order, before any executor is involved. So port
  assignment is sequential and deterministic, and the model proves it in that form.
- The management domain is `"module-"` followed by the port alone; the module name plays no part
  in it. The model proves that distinct ports give distinct domains.
- Neither launcher checks that the artifact exists. The multi launcher builds only a `File`; any
  failure happens later, in `run`, where it is caught and printed.
- A "modules" setting that is present but empty does not exit: `main` goes on and launches
  whatever the tokeniser returns for it, which is nothing for a tokeniser that drops empty
  tokens. The exit happens only when both the property and the variable are absent.
- The multi launcher appends `.jar` only when the name lacks it. The single launcher always
  appends it, so `foo.jar` becomes `.../foo.jar.jar`. The model states both behaviours and the
  exact condition under which the two agree.

## Model

| member | source | states |
|---|---|---|
| `JavaStrings.EndsWith` | src/main/java/org/springframework/pipes/module/launcher/MultiModuleLauncher.java:59 | Java's `String.endsWith`: the string is at least as long as the suffix and its last characters are the suffix. Its use is stated in `NormalizeNameSuffix` and `ModuleFileShape`, and in `JavaStrings.EndsWithConcat` (a string followed by a suffix ends with that suffix). |
| `JavaStrings.NatToDecimal` | src/main/java/org/springframework/pipes/module/launcher/MultiModuleLauncher.java:85 | The decimal text of a port is non-empty, made only of digits, and has no leading zero unless the value is 0. |
| `JavaStrings.IntToDecimal` | src/main/java/org/springframework/pipes/module/launcher/MultiModuleLauncher.java:85 | The text of an `int` is non-empty and starts with '-' exactly when the value is negative. |
| `JavaStrings.NatToDecimalValue` | src/main/java/org/springframework/pipes/module/launcher/MultiModuleLauncher.java:85 | Reading the digits back gives the number they were written from. |
| `JavaStrings.IntToDecimalRoundTrip` | src/main/java/org/springframework/pipes/module/launcher/MultiModuleLauncher.java:85 | Parsing the text of any `int` gives that `int` back. |
| `JavaStrings.IntToDecimalInjective` | src/main/java/org/springframework/pipes/module/launcher/MultiModuleLauncher.java:85 | Two `int`s have the same text if and only if they are equal. |
| `LaunchConfig.Setting` | src/main/java/org/springframework/pipes/module/launcher/MultiModuleLauncher.java:38-41 | A setting is missing if and only if both the property and the variable are absent. The property wins when it is set. The variable is used only when the property is absent. |
| `LaunchConfig.ModuleHome` | src/main/java/org/springframework/pipes/module/launcher/MultiModuleLauncher.java:46-52 | The home is always defined. It is "module.home" if set, else "MODULE_HOME" if set, else "/opt/spring/modules". |
| `MultiModuleLauncher.Increment` | src/main/java/org/springframework/pipes/module/launcher/MultiModuleLauncher.java:74 | One `SERVER_PORT_SEQUENCE++` on a Java `int`: the value plus one, and -2147483648 after 2147483647. `AdvanceIsWrappedSum` states it as addition modulo 2^32. |
| `MultiModuleLauncher.Advance` | src/main/java/org/springframework/pipes/module/launcher/MultiModuleLauncher.java:74 | n post-increments in a row. Its meaning is stated in `AdvanceIsWrappedSum`, `AdvanceNoOverflow` and `AdvanceDistinct`. |
| `MultiModuleLauncher.Wrap32Equal` | src/main/java/org/springframework/pipes/module/launcher/MultiModuleLauncher.java:74 | Two integers wrap to the same `int` if and only if they differ by a multiple of 2^32. |
| `MultiModuleLauncher.AdvanceIsWrappedSum` | src/main/java/org/springframework/pipes/module/launcher/MultiModuleLauncher.java:74 | n post-increments of a Java `int` give the start value plus n, wrapped to 32 bits. |
| `MultiModuleLauncher.AdvanceNoOverflow` | src/main/java/org/springframework/pipes/module/launcher/MultiModuleLauncher.java:74 | Without overflow, n increments add exactly n. |
| `MultiModuleLauncher.AdvanceStep` | src/main/java/org/springframework/pipes/module/launcher/MultiModuleLauncher.java:74 | Incrementing after n increments is the same as n + 1 increments. |
| `MultiModuleLauncher.AdvanceDistinct` | src/main/java/org/springframework/pipes/module/launcher/MultiModuleLauncher.java:74 | Fewer than 2^32 increments never repeat a counter value. |
| `MultiModuleLauncher.NormalizeName` | src/main/java/org/springframework/pipes/module/launcher/MultiModuleLauncher.java:59 | The ternary that appends ".jar" to a name lacking it. Its properties are stated in `NormalizeNameSuffix`, `NormalizeIdempotent` and `NormalizeAbsorbsSuffix`. |
| `MultiModuleLauncher.NormalizeNameSuffix` | src/main/java/org/springframework/pipes/module/launcher/MultiModuleLauncher.java:59 | The result always ends with ".jar". It is either the name or the name plus ".jar". It equals the name if and only if the name already ends with ".jar". |
| `MultiModuleLauncher.NormalizeIdempotent` | src/main/java/org/springframework/pipes/module/launcher/MultiModuleLauncher.java:59 | Normalising twice is the same as normalising once. |
| `MultiModuleLauncher.NormalizeAbsorbsSuffix` | src/main/java/org/springframework/pipes/module/launcher/MultiModuleLauncher.java:59 | For a name without the suffix, "foo" and "foo.jar" normalise to the same file name. |
| `MultiModuleLauncher.ModuleFile` | src/main/java/org/springframework/pipes/module/launcher/MultiModuleLauncher.java:60 | `new File(new File(moduleHome), name)` as the join home + "/" + normalised name. Its shape is stated in `ModuleFileShape`. |
| `MultiModuleLauncher.ModuleFileShape` | src/main/java/org/springframework/pipes/module/launcher/MultiModuleLauncher.java:60 | The task file starts with the home plus "/", continues with the normalised name, and so ends with ".jar". |
| `MultiModuleLauncher.RunArgs` | src/main/java/org/springframework/pipes/module/launcher/MultiModuleLauncher.java:85 | The vector has exactly three strings, in this order: the JMX domain, the server port, the bus location. |
| `MultiModuleLauncher.RunArgsRoundTrip` | src/main/java/org/springframework/pipes/module/launcher/MultiModuleLauncher.java:85 | The task's port and file can be decoded from its argument vector, so the vector loses nothing. |
| `MultiModuleLauncher.DomainArgInjective` | src/main/java/org/springframework/pipes/module/launcher/MultiModuleLauncher.java:85 | Two tasks have the same domain argument, and the same port argument, if and only if they have the same port. |
| `MultiModuleLauncher.ModuleFiles` | src/main/java/org/springframework/pipes/module/launcher/MultiModuleLauncher.java:58-60 | One file per name in the list, in the same order. |
| `MultiModuleLauncher.TaskSequence` | src/main/java/org/springframework/pipes/module/launcher/MultiModuleLauncher.java:72-75 | One task per file, in order. Each task takes the counter's current value and the next task sees it incremented once. |
| `MultiModuleLauncher.TaskSequenceAt` | src/main/java/org/springframework/pipes/module/launcher/MultiModuleLauncher.java:72-75 | Task i holds the i-th file and the counter advanced i times. |
| `MultiModuleLauncher.TaskSequenceAppend` | src/main/java/org/springframework/pipes/module/launcher/MultiModuleLauncher.java:72-75 | Building tasks for a + b is building them for a and then for b, with the counter carried over. |
| `MultiModuleLauncher.PlannedTasks` | src/main/java/org/springframework/pipes/module/launcher/MultiModuleLauncher.java:58-60 | There is exactly one task per name in the list, duplicates included. |
| `MultiModuleLauncher.PlannedTaskAt` | src/main/java/org/springframework/pipes/module/launcher/MultiModuleLauncher.java:58-60 | Task i is built from the i-th name's file. Its port is the counter advanced i times. |
| `MultiModuleLauncher.PlannedTasksAppend` | src/main/java/org/springframework/pipes/module/launcher/MultiModuleLauncher.java:66-75 | Launching a and then b is the same as launching a + b. The counter carries over between calls and is never reset. |
| `MultiModuleLauncher.PlannedPortsDistinct` | src/main/java/org/springframework/pipes/module/launcher/MultiModuleLauncher.java:58-75 | For up to 2^32 names, the ports are pairwise distinct. Two entries with the same name share a file but get different ports. |
| `MultiModuleLauncher.PlannedPortsConsecutive` | src/main/java/org/springframework/pipes/module/launcher/MultiModuleLauncher.java:58-75 | Without overflow, task i gets port c + i and the i-th name's file. |
| `MultiModuleLauncher.PlannedDomainsDistinct` | src/main/java/org/springframework/pipes/module/launcher/MultiModuleLauncher.java:85 | No two planned tasks share a management domain. |
| `MultiModuleLauncher.PlanLaunch` | src/main/java/org/springframework/pipes/module/launcher/MultiModuleLauncher.java:37-54 | `main` as a value. An exit is always status 1 with the fixed message, and a launch happens only when "modules" or "MODULES" is set. The full behaviour is stated in `PlanExitsIffNoModules` and `PlanLaunchedTasks`. |
| `MultiModuleLauncher.PlanExitsIffNoModules` | src/main/java/org/springframework/pipes/module/launcher/MultiModuleLauncher.java:38-45 | `main` exits with status 1 and the fixed message, and builds no task, if and only if neither "modules" nor "MODULES" is set. A missing home never causes an exit. |
| `MultiModuleLauncher.PlanLaunchedTasks` | src/main/java/org/springframework/pipes/module/launcher/MultiModuleLauncher.java:37-54 | When the list is found, task i comes from the i-th token of the property, or else of the variable, under the resolved home. Its port is the counter advanced i times. The counter ends advanced n times. |
| `MultiModuleLauncher.EmptyModuleListLaunchesNothing` | src/main/java/org/springframework/pipes/module/launcher/MultiModuleLauncher.java:38-53 | A module list that is set but tokenises to nothing does not exit. It launches no task and leaves the counter unchanged. |
| `MultiModuleLauncher.FreshProcessPorts` | src/main/java/org/springframework/pipes/module/launcher/MultiModuleLauncher.java:66 | In a fresh process the tasks get ports 8080, 8081, … in list order. |
| `MultiModuleLauncher.PlanIgnoresModulesVariable` | src/main/java/org/springframework/pipes/module/launcher/MultiModuleLauncher.java:38-41 | Once the "modules" property is set, the value of "MODULES" does not affect the plan. |
| `MultiModuleLauncher.LauncherProcess.constructor` | src/main/java/org/springframework/pipes/module/launcher/MultiModuleLauncher.java:66 | A fresh process starts the port counter at 8080. |
| `MultiModuleLauncher.LauncherProcess.NewModuleLaunchTask` | src/main/java/org/springframework/pipes/module/launcher/MultiModuleLauncher.java:64-75 | Building a task stores the file and the current counter value as its port (the `ModuleLaunchTask` datatype holds the two fields set by the constructor) and increments the counter once. |
| `MultiModuleLauncher.LauncherProcess.LaunchModules` | src/main/java/org/springframework/pipes/module/launcher/MultiModuleLauncher.java:56-62 | The loop hands out exactly the planned tasks, in list order, and leaves the counter advanced once per name. |
| `MultiModuleLauncher.LauncherProcess.Launch` | src/main/java/org/springframework/pipes/module/launcher/MultiModuleLauncher.java:37-54 | `main` produces the plan of its inputs. On exit the counter is unchanged; otherwise it holds the plan's next value. |
| `ModuleLauncher.ArtifactPath` | src/main/java/org/springframework/pipes/module/launcher/ModuleLauncher.java:49 | The path starts with the home plus "/" and ends with the name plus ".jar". It is exactly 5 characters longer than home and name together, so ".jar" is always appended. |
| `ModuleLauncher.AbsolutePath` | src/main/java/org/springframework/pipes/module/launcher/ModuleLauncher.java:50 | An absolute path is kept unchanged. A relative path is joined to the working directory with one "/", and with none extra when the working directory is "/" itself. The result ends with the path and starts with "/" when the working directory does. |
| `ModuleLauncher.PlanLaunch` | src/main/java/org/springframework/pipes/module/launcher/ModuleLauncher.java:33-52 | `main` as a value. An exit is always status 1 with the fixed message, and a spawn is always a three-element command starting with "java", "-jar". The full behaviour is stated in `PlanExitsIffNoModule` and `SpawnCommand`. |
| `ModuleLauncher.RootWorkingDirectory` | src/main/java/org/springframework/pipes/module/launcher/ModuleLauncher.java:50 | Under the root working directory a relative artifact gets one leading "/", as `File.getAbsolutePath` gives it, not two. |
| `ModuleLauncher.PlanExitsIffNoModule` | src/main/java/org/springframework/pipes/module/launcher/ModuleLauncher.java:34-41 | `main` exits with status 1 and the fixed message, and builds no process, if and only if neither "module" nor "MODULE" is set. |
| `ModuleLauncher.SpawnCommand` | src/main/java/org/springframework/pipes/module/launcher/ModuleLauncher.java:49-52 | Otherwise exactly one process is started, with the command ["java", "-jar", path]. The path ends with home + "/" + name + ".jar", is exactly that when the home is absolute, and is absolute when the home or the working directory is. |
| `ModuleLauncher.DefaultHomeCommand` | src/main/java/org/springframework/pipes/module/launcher/ModuleLauncher.java:42-50 | With no home configured, the command is ["java", "-jar", "/opt/spring/modules/" + name + ".jar"] for any working directory. |
| `ModuleLauncher.PlanIgnoresModuleVariable` | src/main/java/org/springframework/pipes/module/launcher/ModuleLauncher.java:34-37 | Once the "module" property is set, the value of "MODULE" does not affect the plan. |
| `ModuleLauncher.SuffixAlwaysAppended` | src/main/java/org/springframework/pipes/module/launcher/ModuleLauncher.java:49 | A name already ending with ".jar" produces a path ending with ".jar.jar". |
| `ModuleLauncher.SuffixDiffersFromMultiModuleLauncher` | src/main/java/org/springframework/pipes/module/launcher/ModuleLauncher.java:49 | The single and multi launchers give the same path if and only if the name does not already end with ".jar". |

## Left out

- Comma tokenisation (`StringUtils.tokenizeToStringArray`, MultiModuleLauncher.java:53): its code is not part of this model. The tokeniser is a function parameter `tokenize`, with no assumption about trimming or empty tokens.
- `JarFileArchive`, `getMainClass`, `ParentLastURLClassLoader`, `DefaultResourceLoader` and `SpringApplicationBuilder.run`: foreign library calls whose behaviour is not visible. Only the arguments given to `run` are modelled.
- `Executors.newSingleThreadExecutor().execute` and the thread-context class-loader swap: concurrency and thread-local state. A task handed to an executor appears as an element of the list that `LaunchModules` returns. The counter is touched only on the calling thread, so it is modelled as sequential state.
- The `catch`/`printStackTrace` in `run`: logging around foreign calls.
- `ProcessBuilder.start`, `inheritIO`, the shutdown hook, `process.destroy` and `waitFor`: operating-system process I/O and signal handling. The model stops at the command vector.
- `System.getProperty` and `System.getenv` become the input maps. `System.err.println` and `System.exit(1)` become the `Exit(1, message)` result.
- MultiModuleLauncher.ModuleFile: does not model `java.io.File` normalisation. The join is plain concatenation with "/". So a home of "/" gives "//x.jar" where Java gives "/x.jar", a home or name with duplicate or trailing separators keeps them where Java collapses them, and a name starting with "/" gives "home//name.jar" where Java gives "home/name.jar". For a home that is not "/" and names and homes without redundant separators, the two agree.
- ModuleLauncher.AbsolutePath: models the join of `getAbsolutePath`, including the root working directory, but not `File`'s normalisation of the path itself (duplicate or trailing separators in the home or the working directory are kept). The working directory is a parameter, because `getAbsolutePath` depends on it.
