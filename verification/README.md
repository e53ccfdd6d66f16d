# Gradle launcher: execution-strategy decision

A Dafny model of how Gradle's command-line launcher decides where an
invocation runs (`BuildActionsFactory` in the launcher). Given the daemon
parameters of one invocation, the launcher picks exactly one of six actions:
stop all daemons, report daemon status, run a foreground daemon, build via a
daemon, build in the launcher's own process, or build via a single-use
daemon. On the build paths it first resolves a request context (which JVM the
build needs, and which Java version the parameter defaults are applied for),
then asks whether the current process can be reused, and on the single-use
path caps the daemon's idle timeout at two minutes.

Modules:

- `Wrappers` — `Option` (Java `null`) and `Result` (an exception).
- `Runtime` — Java versions, `Jvm` handles, daemon JVM criteria, `Int32`.
- `DaemonConfiguration` — `DaemonParameters`, `JvmArgs`, `RequestContext`,
  the foreground daemon's configuration.
- `LauncherEnvironment` — `Host`, the facts the decision reads from the
  running process and from code outside the model, and `LaunchFailure`.
- `RequestContextResolution` — `configureForRequestContext`.
- `CurrentProcessReuse` — `canUseCurrentProcess` and `isLowDefaultMemory`.
- `SingleUseSafetyNet` — the idle-timeout cap.
- `BuildActionsFactory`, `BuildActionsProperties` — `createAction` and its properties.
- `Scenarios` — concrete end-to-end invocations.

How the outside world is represented. Every call into code not in this model
is a field of `Host`: the file-system side of `Files.isSameFile`
(`isSameFile`, `None` for an `IOException`; equal paths are the same file
without asking it, as the JDK specifies), the JVM version detector (`detectJavaVersion`, `None` for a
failure), `DaemonJvmCriteria.isCompatibleWith(Jvm.current())`
(`criteriaCompatibleWithCurrent`), the agent status, the current process's
immutable JVM arguments and maximum heap size, and
`DaemonParameters.applyDefaultsFor` (`applyDefaultsFor`, which rewrites only
the JVM-argument part of the parameters). `Jvm` objects are handles
`Jvm(instance, javaHome)`: handle equality stands for Java's reference
comparison, which the second resolution branch uses, while file identity
goes through `isSameFile`. The random id of a foreground daemon is a
parameter of `CreateAction`. Java exceptions become `LaunchFailure` values.

Because `applyDefaultsFor` mutates the parameters before the daemon flag is
read, `CreateAction` threads the rewritten parameters returned by resolution
into every build path, and the reuse check reads them.

On the heap heuristic the code is narrower than a plain reading of its
intent ("an explicit `-Xmx` makes a 64m process eligible"): the `-Xmx` scan
only runs when the user declared immutable JVM arguments. The model follows
the code (`IsLowDefaultMemory`, `LowHeapWithoutImmutableArgsBlocksReuse`,
`UndeclaredMaxHeapScenario`).

## Model

| member | source | states |
|---|---|---|
| `RequestContextResolution.ConfigureForRequestContext` | platforms/core-runtime/launcher/src/main/java/org/gradle/launcher/cli/BuildActionsFactory.java:138-153 | Declared criteria win, keep the requested home and drive the defaults by the criteria's version; else a requested JVM that is not the running JVM object drives the defaults by its detected version, and a detection failure fails; else the running JVM and its version are used; every branch changes only the JVM arguments and carries criteria, effective arguments, agent flag, native-services mode and priority into the context |
| `RequestContextResolution.ResolvedContextNamesRuntime` | platforms/core-runtime/launcher/src/main/java/org/gradle/launcher/cli/BuildActionsFactory.java:140-151 | A resolved context always names a JVM or criteria |
| `RequestContextResolution.ResolvedJvmIsRequestedOrCurrent` | platforms/core-runtime/launcher/src/main/java/org/gradle/launcher/cli/BuildActionsFactory.java:144-151 | Without criteria the resolved JVM is the requested one if any, the running JVM otherwise |
| `RequestContextResolution.SameHomeOtherObjectIsDetected` | platforms/core-runtime/launcher/src/main/java/org/gradle/launcher/cli/BuildActionsFactory.java:144-147 | A different JVM object for the running JVM's own home still goes through version detection, whose failure fails resolution |
| `RequestContextResolution.ResolutionIgnoresDispatchSettings` | platforms/core-runtime/launcher/src/main/java/org/gradle/launcher/cli/BuildActionsFactory.java:138-153 | Resolution does not depend on the dispatch flags or the idle timeout |
| `CurrentProcessReuse.JvmCompatible` | platforms/core-runtime/launcher/src/main/java/org/gradle/launcher/cli/BuildActionsFactory.java:182-193 | With a Java home: file identity with the current process's home, the same path always matching and an I/O error on two different paths being a failure and not `false`; else with criteria: the criteria's verdict on the running JVM; else compatible |
| `CurrentProcessReuse.JavaAgentStateMatches` | platforms/core-runtime/launcher/src/main/java/org/gradle/launcher/cli/BuildActionsFactory.java:195-196 | A request needing the agent matches only a process running with it; a request not needing it always matches |
| `CurrentProcessReuse.ImmutableJvmArgsMatch` | platforms/core-runtime/launcher/src/main/java/org/gradle/launcher/cli/BuildActionsFactory.java:198-206 | Vacuous without user-defined immutable arguments; otherwise element-by-element, in-order equality of the process's immutable arguments with the single-use arguments |
| `CurrentProcessReuse.FindMaxHeapArg` | platforms/core-runtime/launcher/src/main/java/org/gradle/launcher/cli/BuildActionsFactory.java:215-219 | The scan finds a hit exactly when some argument starts with `-Xmx` |
| `CurrentProcessReuse.IsLowDefaultMemory` | platforms/core-runtime/launcher/src/main/java/org/gradle/launcher/cli/BuildActionsFactory.java:210-222 | Low exactly when the process's max heap is `64m` and it is not the case that immutable arguments were declared and one of the single-use arguments starts with `-Xmx` |
| `CurrentProcessReuse.CanUseCurrentProcess` | platforms/core-runtime/launcher/src/main/java/org/gradle/launcher/cli/BuildActionsFactory.java:177-208 | Fails exactly when the Java-home comparison fails; otherwise reuse holds iff compatible, agent state matches, immutable arguments match and the memory is not the low default |
| `CurrentProcessReuse.EachCheckIsNecessary` | platforms/core-runtime/launcher/src/main/java/org/gradle/launcher/cli/BuildActionsFactory.java:207 | Falsifying any one of the four checks rules reuse out |
| `CurrentProcessReuse.LowHeapWithoutImmutableArgsBlocksReuse` | platforms/core-runtime/launcher/src/main/java/org/gradle/launcher/cli/BuildActionsFactory.java:213-221 | A 64m process is never reused when no immutable arguments were declared |
| `CurrentProcessReuse.MaxHeapOverrideLiftsHeuristic` | platforms/core-runtime/launcher/src/main/java/org/gradle/launcher/cli/BuildActionsFactory.java:214-218 | Any declared `-Xmx`, whatever its value, lifts the memory heuristic |
| `SingleUseSafetyNet.ClampIdleTimeout` | platforms/core-runtime/launcher/src/main/java/org/gradle/launcher/cli/BuildActionsFactory.java:254-257 | The capped timeout is at most both the configured timeout and 120000, and equals one of them |
| `SingleUseSafetyNet.ClampIsGreatestLowerBound` | platforms/core-runtime/launcher/src/main/java/org/gradle/launcher/cli/BuildActionsFactory.java:254-257 | The capped timeout is the largest value within both bounds, i.e. the minimum |
| `SingleUseSafetyNet.ApplySingleUseSafetyNet` | platforms/core-runtime/launcher/src/main/java/org/gradle/launcher/cli/BuildActionsFactory.java:250-257 | Timeouts within two minutes are untouched, larger ones become exactly 120000, and no other parameter changes |
| `SingleUseSafetyNet.SafetyNetIdempotent` | platforms/core-runtime/launcher/src/main/java/org/gradle/launcher/cli/BuildActionsFactory.java:254-257 | Capping twice is capping once |
| `BuildActionsFactory.CreateAction` | platforms/core-runtime/launcher/src/main/java/org/gradle/launcher/cli/BuildActionsFactory.java:106-136 | Stop iff `stop`; status iff not stop and `status`; foreground iff neither and `foreground`; otherwise after resolution: daemon build iff enabled, in-process iff not enabled and reuse holds, single-use iff not enabled and reuse fails, failure iff resolution or the reuse comparison fails; payloads are the defaulted parameters, the context, and for single use the capped parameters |
| `BuildActionsProperties.AdministrativeActionsIgnoreHost` | platforms/core-runtime/launcher/src/main/java/org/gradle/launcher/cli/BuildActionsFactory.java:114-125 | Stop, status and foreground never fail and do not depend on the host |
| `BuildActionsProperties.ResolutionFailureIsFatal` | platforms/core-runtime/launcher/src/main/java/org/gradle/launcher/cli/BuildActionsFactory.java:127-130 | A resolution failure fails the build whether or not daemons are enabled |
| `BuildActionsProperties.DaemonPathIgnoresCurrentProcess` | platforms/core-runtime/launcher/src/main/java/org/gradle/launcher/cli/BuildActionsFactory.java:127-130 | With daemons enabled, file identity, agent, start-up arguments, heap and the criteria verdict do not affect the action |
| `BuildActionsProperties.InProcessExactlyWhenAllChecksPass` | platforms/core-runtime/launcher/src/main/java/org/gradle/launcher/cli/BuildActionsFactory.java:127-133 | Without daemons, the in-process build is chosen iff all four checks pass, stated on the host's facts |
| `BuildActionsProperties.FailedCheckSendsToSingleUse` | platforms/core-runtime/launcher/src/main/java/org/gradle/launcher/cli/BuildActionsFactory.java:131-135 | When the JVM comparison succeeds but any one check fails, the build goes to a single-use daemon with a timeout of at most two minutes |
| `BuildActionsProperties.SingleUseParametersCapped` | platforms/core-runtime/launcher/src/main/java/org/gradle/launcher/cli/BuildActionsFactory.java:250-257 | The single-use daemon's parameters differ from the resolved ones only in a capped idle timeout |
| `BuildActionsProperties.ForegroundDependsOnlyOnDaemonSettings` | platforms/core-runtime/launcher/src/main/java/org/gradle/launcher/cli/BuildActionsFactory.java:120-124 | Two invocations that choose the foreground daemon and agree on base directory, idle timeout, check interval, agent flag and native-services mode get the same action, whatever their runtime request, daemon flag, JVM arguments, priority or host |
| `BuildActionsProperties.RunningJvmIsCompatible` | platforms/core-runtime/launcher/src/main/java/org/gradle/launcher/cli/BuildActionsFactory.java:149-151 | A request naming no criteria and no other JVM resolves and passes the JVM check on every host |
| `BuildActionsProperties.PlainBuildRunsInProcess` | platforms/core-runtime/launcher/src/main/java/org/gradle/launcher/cli/BuildActionsFactory.java:127-133 | On any host, a daemonless build naming no other JVM, with matching agent state, no declared immutable arguments and a heap other than 64m runs in this process |
| `Scenarios.StopScenario` | platforms/core-runtime/launcher/src/main/java/org/gradle/launcher/cli/BuildActionsFactory.java:114-115 | With every flag set, stop is chosen |
| `Scenarios.InProcessScenario` | platforms/core-runtime/launcher/src/main/java/org/gradle/launcher/cli/BuildActionsFactory.java:127-133 | Running JVM requested, no immutable arguments, 512m heap: in-process build |
| `Scenarios.LowHeapScenario` | platforms/core-runtime/launcher/src/main/java/org/gradle/launcher/cli/BuildActionsFactory.java:131-135 | Same on a 64m heap: single-use daemon with a ten-minute timeout capped to 120000 |
| `Scenarios.MaxHeapOverrideScenario` | platforms/core-runtime/launcher/src/main/java/org/gradle/launcher/cli/BuildActionsFactory.java:213-221 | Declared, matching `-Xmx1g` immutable arguments make a 64m process reusable |
| `Scenarios.UndeclaredMaxHeapScenario` | platforms/core-runtime/launcher/src/main/java/org/gradle/launcher/cli/BuildActionsFactory.java:213-221 | The same `-Xmx1g` without declared immutable arguments leaves the 64m process unreusable |
| `Scenarios.CriteriaScenario` | platforms/core-runtime/launcher/src/main/java/org/gradle/launcher/cli/BuildActionsFactory.java:138-143 | Daemons enabled with criteria "Java 21, any vendor": a daemon build whose context carries those criteria, defaults applied for 21 |

## Left out

- Service-registry construction and teardown (constructor, `createGlobalClientServices`, `runBuildAndCloseServices`, `CompositeStoppable`, lines 85-98, 155-175, 224-248, 259-301): container wiring over classes outside the model; each action is a variant of `BuildAction` carrying the parameters and context its executor receives.
- Command-line conversion (`convertParameters`, `configureCommandLineParser`, lines 101-112): the model starts from converted `DaemonParameters`; the start parameter and properties are not modelled.
- `System.setProperties`, the agent initializer and the global services of the in-process path (lines 224-247): process-global side effects.
- `UUID.randomUUID` (line 122): the session id is a parameter of `CreateAction`.
- The build start time, client metadata and build-action parameters (lines 279-301), and the info logging of lines 201-204: I/O and environment.
- `Files.isSameFile`, the JVM version detector, `CurrentProcess` and `AgentStatus`: foreign calls, represented as fields of `Host`; both the running JVM and the current process's JVM are `Host.current`.
- The internals of `applyDefaultsFor` and `DaemonJvmCriteria.isCompatibleWith` are not part of this model: both are uninterpreted `Host` functions, and `applyDefaultsFor` is taken to rewrite only the JVM arguments.
- `Runtime.CriteriaJavaVersion`: maps a language version to the Java version of the same major number; the enum's collapsing of unknown future versions is not modelled.
- The file-collection factory and standard input handed to the foreground daemon and daemon clients: plumbing with no effect on the decision.
- `UpdateDaemonJvm.java` (a task that calls a properties-file writer not in this model) and `DefaultProjectDependencyMetadata.java` (a value object): no decision logic.
