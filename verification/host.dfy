/** The facts the launcher reads from the process it runs in and from code
    outside this model, gathered in one record so that every decision is a
    function of its inputs. */
module LauncherEnvironment {
  import opened Wrappers
  import opened Runtime
  import opened DaemonConfiguration

  /** Why resolving an invocation failed. */
  datatype LaunchFailure =
    | VersionDetectionFailed(jvm: Jvm)
    | JavaHomeComparisonFailed(currentHome: Path, requestedHome: Path)

  /** The launcher's process and its collaborators.
      - `current`: the running JVM (`Jvm.current()`, also the current process's JVM);
      - `currentVersion`: `JavaVersion.current()`;
      - `agentInstrumentationEnabled`: whether this process runs with the instrumentation agent;
      - `currentImmutableJvmArgs`, `currentMaxHeapSize`: this process's start-up JVM
        arguments and maximum heap size (`None` when it has none);
      - `detectJavaVersion`: the version detector, `None` when detection fails;
      - `isSameFile`: file identity of two distinct paths, as the file system
        reports it, `None` when looking them up raises an I/O error;
      - `criteriaCompatibleWithCurrent`: whether a criterion accepts the running JVM;
      - `applyDefaultsFor`: the defaults `DaemonParameters` applies for a Java version. */
  datatype Host = Host(
    current: Jvm,
    currentVersion: JavaVersion,
    agentInstrumentationEnabled: bool,
    currentImmutableJvmArgs: seq<string>,
    currentMaxHeapSize: Option<string>,
    detectJavaVersion: Jvm -> Option<JavaVersion>,
    isSameFile: (Path, Path) -> Option<bool>,
    criteriaCompatibleWithCurrent: JvmCriteria -> bool,
    applyDefaultsFor: (JvmArgs, JavaVersion) -> JvmArgs)

  /** `Files.isSameFile`: two equal paths are the same file without any I/O;
      otherwise the file system is asked. */
  function IsSameFile(host: Host, a: Path, b: Path): Option<bool> {
    if a == b then Some(true) else host.isSameFile(a, b)
  }
}
