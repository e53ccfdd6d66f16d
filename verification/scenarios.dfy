/** End-to-end invocations of the dispatch on concrete parameters and hosts. */
module Scenarios {
  import opened Wrappers
  import opened Runtime
  import opened DaemonConfiguration
  import opened LauncherEnvironment
  import opened RequestContextResolution
  import opened BuildActionsFactory

  const Jdk17: Jvm := Jvm(0, "/opt/jdk-17")

  /** A launcher on JDK 17 whose collaborators behave plainly: detection reports
      17, paths are the same file when equal, criteria accept version 17, and
      defaults leave the arguments alone. */
  function LauncherHost(agent: bool, immutableArgs: seq<string>, maxHeap: Option<string>): Host {
    Host(Jdk17, JavaVersion(17), agent, immutableArgs, maxHeap,
         (j: Jvm) => Some(JavaVersion(17)),
         (a: Path, b: Path) => Some(a == b),
         (c: JvmCriteria) => c.javaVersion == 17,
         (args: JvmArgs, v: JavaVersion) => args)
  }

  /** Parameters with no flag set, no runtime requested and a ten-minute idle timeout. */
  function PlainParameters(args: JvmArgs): DaemonParameters {
    DaemonParameters(false, false, false, false, None, None, "/home/u/.gradle/daemon",
                     600000, 10000, args, false, NotSet, Normal)
  }

  /** `--stop` wins over every other setting. */
  lemma StopScenario(args: JvmArgs, host: Host)
    ensures CreateAction(PlainParameters(args).(stop := true, status := true, foreground := true, enabled := true), host, "id")
         == Success(StopAllDaemons(PlainParameters(args).(stop := true, status := true, foreground := true, enabled := true)))
  {
  }

  /** Running JVM requested, no immutable arguments, a 512m heap: the build runs
      in this process. */
  lemma InProcessScenario()
    ensures
      var p := PlainParameters(JvmArgs([], [], false)).(requestedJvmBasedOnJavaHome := Some(Jdk17));
      CreateAction(p, LauncherHost(true, [], Some("512m")), "id") == Success(BuildInProcess(p))
  {
  }

  /** The same on the 64m default heap: a single-use daemon, with the ten-minute
      idle timeout capped at two minutes. */
  lemma LowHeapScenario()
    ensures
      var p := PlainParameters(JvmArgs([], [], false)).(requestedJvmBasedOnJavaHome := Some(Jdk17));
      CreateAction(p, LauncherHost(true, [], Some("64m")), "id")
        == Success(BuildInSingleUseDaemon(p.(idleTimeout := 120000), ContextFor(Some(Jdk17), p)))
  {
  }

  /** A declared `-Xmx` among matching immutable arguments makes the 64m process
      reusable. */
  lemma MaxHeapOverrideScenario()
    ensures
      var p := PlainParameters(JvmArgs(["-Xmx1g"], ["-Xmx1g"], true));
      CreateAction(p, LauncherHost(true, ["-Xmx1g"], Some("64m")), "id") == Success(BuildInProcess(p))
  {
  }

  /** Without user-declared immutable arguments the same `-Xmx` is not looked
      for, and the 64m process is not reused. */
  lemma UndeclaredMaxHeapScenario()
    ensures
      var p := PlainParameters(JvmArgs(["-Xmx1g"], ["-Xmx1g"], false));
      CreateAction(p, LauncherHost(true, ["-Xmx1g"], Some("64m")), "id")
        == Success(BuildInSingleUseDaemon(p.(idleTimeout := 120000), ContextFor(Some(Jdk17), p)))
  {
  }

  /** Daemons enabled with criteria "Java 21, any vendor": a daemon build whose
      context carries those criteria and whose defaults follow version 21. */
  lemma CriteriaScenario()
    ensures
      var c := JvmCriteria(21, None, VendorSpecific);
      var p := PlainParameters(JvmArgs([], [], false)).(enabled := true, requestedJvmCriteria := Some(c));
      && CreateAction(p, LauncherHost(false, [], None), "id") == Success(BuildWithDaemon(p, ContextFor(None, p)))
      && ConfigureForRequestContext(p, LauncherHost(false, [], None)).value.defaultsVersion == JavaVersion(21)
  {
  }
}
