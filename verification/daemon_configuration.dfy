/** The daemon parameters the launcher's command line has been converted to,
    and the request context derived from them. */
module DaemonConfiguration {
  import opened Wrappers
  import opened Runtime

  /** How native integrations are requested for the daemon. */
  datatype NativeServicesMode = Enabled | Disabled | NotSet

  /** The scheduling priority of a daemon process. */
  datatype DaemonPriority = Low | Normal

  /** The JVM-argument state of the daemon parameters: the effective arguments of
      a (persistent) daemon, the effective arguments of a single-use daemon, and
      whether the user declared JVM arguments that can only be applied at JVM
      start-up. This is the part `applyDefaultsFor` may rewrite. */
  datatype JvmArgs = JvmArgs(effective: seq<string>, effectiveSingleUse: seq<string>, userDefinedImmutable: bool)

  /** The daemon parameters of one invocation. */
  datatype DaemonParameters = DaemonParameters(
    stop: bool,
    status: bool,
    foreground: bool,
    enabled: bool,
    requestedJvmCriteria: Option<JvmCriteria>,
    requestedJvmBasedOnJavaHome: Option<Jvm>,
    baseDir: Path,
    idleTimeout: Int32,
    periodicCheckInterval: Int32,
    jvmArgs: JvmArgs,
    applyInstrumentationAgent: bool,
    nativeServicesMode: NativeServicesMode,
    priority: DaemonPriority)

  /** What the build requires of the JVM that runs it. */
  datatype RequestContext = RequestContext(
    jvm: Option<Jvm>,
    jvmCriteria: Option<JvmCriteria>,
    daemonOpts: seq<string>,
    applyInstrumentationAgent: bool,
    nativeServicesMode: NativeServicesMode,
    priority: DaemonPriority)

  /** The configuration of a daemon that runs in the launcher's own process. */
  datatype ForegroundDaemonConfiguration = ForegroundDaemonConfiguration(
    uid: string,
    baseDir: Path,
    idleTimeout: Int32,
    periodicCheckInterval: Int32,
    applyInstrumentationAgent: bool,
    nativeServicesMode: NativeServicesMode)

  /** A context carries the parameters' criteria, effective JVM arguments,
      agent flag, native-services mode and priority. */
  predicate CarriesParameters(ctx: RequestContext, p: DaemonParameters) {
    && ctx.jvmCriteria == p.requestedJvmCriteria
    && ctx.daemonOpts == p.jvmArgs.effective
    && ctx.applyInstrumentationAgent == p.applyInstrumentationAgent
    && ctx.nativeServicesMode == p.nativeServicesMode
    && ctx.priority == p.priority
  }
}
