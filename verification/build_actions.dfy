/** The launcher's choice of how an invocation runs: one of six actions. */
module BuildActionsFactory {
  import opened Wrappers
  import opened Runtime
  import opened DaemonConfiguration
  import opened LauncherEnvironment
  import opened RequestContextResolution
  import opened CurrentProcessReuse
  import opened SingleUseSafetyNet

  /** The six actions, each with the data its executor is handed. */
  datatype BuildAction =
    | StopAllDaemons(params: DaemonParameters)
    | ReportDaemonStatus(params: DaemonParameters)
    | ForegroundDaemon(conf: ForegroundDaemonConfiguration)
    | BuildWithDaemon(params: DaemonParameters, context: RequestContext)
    | BuildInProcess(params: DaemonParameters)
    | BuildInSingleUseDaemon(params: DaemonParameters, context: RequestContext)

  /** One of the administrative flags is set. */
  predicate IsAdministrative(p: DaemonParameters) {
    p.stop || p.status || p.foreground
  }

  /** The configuration of a foreground daemon for session `uid`. */
  function ForegroundConfiguration(p: DaemonParameters, uid: string): ForegroundDaemonConfiguration {
    ForegroundDaemonConfiguration(uid, p.baseDir, p.idleTimeout, p.periodicCheckInterval, p.applyInstrumentationAgent, p.nativeServicesMode)
  }

  /** Whether the resolved request may run in this process; `None` when the
      request cannot be resolved or the reuse check fails. */
  function ReuseVerdict(p: DaemonParameters, host: Host): Option<bool> {
    match ConfigureForRequestContext(p, host)
    case Failure(_) => None
    case Success(res) =>
      match CanUseCurrentProcess(res.params, res.context, host)
      case Failure(_) => None
      case Success(b) => Some(b)
  }

  /** The dispatch: stop, then status, then foreground; otherwise the request
      context is resolved (applying defaults) and the build runs in a daemon when
      daemons are enabled, in this process when it can be reused, and in a
      single-use daemon otherwise. `uid` is the foreground session's fresh id. */
  function CreateAction(p: DaemonParameters, host: Host, uid: string): (r: Result<BuildAction, LaunchFailure>)
    // Administrative precedence: stop > status > foreground, whatever else is set.
    ensures r.Success? && r.value.StopAllDaemons? <==> p.stop
    ensures r.Success? && r.value.ReportDaemonStatus? <==> !p.stop && p.status
    ensures r.Success? && r.value.ForegroundDaemon? <==> !p.stop && !p.status && p.foreground
    ensures IsAdministrative(p) ==> r.Success?
    ensures r.Success? && r.value.StopAllDaemons? ==> r.value.params == p
    ensures r.Success? && r.value.ReportDaemonStatus? ==> r.value.params == p
    ensures r.Success? && r.value.ForegroundDaemon? ==> r.value.conf == ForegroundConfiguration(p, uid)
    // The build paths all resolve the request context first.
    ensures r.Success? && r.value.BuildWithDaemon? <==>
      !IsAdministrative(p) && p.enabled && ConfigureForRequestContext(p, host).Success?
    ensures r.Success? && r.value.BuildInProcess? <==>
      !IsAdministrative(p) && !p.enabled && ReuseVerdict(p, host) == Some(true)
    ensures r.Success? && r.value.BuildInSingleUseDaemon? <==>
      !IsAdministrative(p) && !p.enabled && ReuseVerdict(p, host) == Some(false)
    ensures r.Failure? <==>
      !IsAdministrative(p) && (ConfigureForRequestContext(p, host).Failure? || (!p.enabled && ReuseVerdict(p, host).None?))
    // Payloads: the defaulted parameters and the resolved context; the single-use
    // daemon gets the idle-timeout cap.
    ensures r.Success? && (r.value.BuildWithDaemon? || r.value.BuildInProcess?) ==>
      r.value.params == ConfigureForRequestContext(p, host).value.params
    ensures r.Success? && (r.value.BuildWithDaemon? || r.value.BuildInSingleUseDaemon?) ==>
      r.value.context == ConfigureForRequestContext(p, host).value.context
    ensures r.Success? && r.value.BuildInSingleUseDaemon? ==>
      r.value.params == ApplySingleUseSafetyNet(ConfigureForRequestContext(p, host).value.params)
  {
    if p.stop then
      Success(StopAllDaemons(p))
    else if p.status then
      Success(ReportDaemonStatus(p))
    else if p.foreground then
      Success(ForegroundDaemon(ForegroundConfiguration(p, uid)))
    else
      match ConfigureForRequestContext(p, host)
      case Failure(e) => Failure(e)
      case Success(res) =>
        if res.params.enabled then
          Success(BuildWithDaemon(res.params, res.context))
        else
          match CanUseCurrentProcess(res.params, res.context, host)
          case Failure(e) => Failure(e)
          case Success(true) => Success(BuildInProcess(res.params))
          case Success(false) => Success(BuildInSingleUseDaemon(ApplySingleUseSafetyNet(res.params), res.context))
  }
}

/** Properties of the dispatch that relate several invocations or name the
    reuse checks one by one. */
module BuildActionsProperties {
  import opened Wrappers
  import opened Runtime
  import opened DaemonConfiguration
  import opened LauncherEnvironment
  import opened RequestContextResolution
  import opened CurrentProcessReuse
  import opened SingleUseSafetyNet
  import opened BuildActionsFactory

  /** Administrative actions never consult the host: two hosts give the same
      action, and it never fails. */
  lemma AdministrativeActionsIgnoreHost(p: DaemonParameters, h1: Host, h2: Host, uid: string)
    requires IsAdministrative(p)
    ensures CreateAction(p, h1, uid).Success?
    ensures CreateAction(p, h1, uid) == CreateAction(p, h2, uid)
  {
  }

  /** Resolution happens before the daemon flag is read: when it fails, every
      build path fails, with daemons enabled or not. */
  lemma ResolutionFailureIsFatal(p: DaemonParameters, host: Host, uid: string, enabled: bool)
    requires !IsAdministrative(p)
    requires ConfigureForRequestContext(p, host).Failure?
    ensures CreateAction(p.(enabled := enabled), host, uid) == Failure(ConfigureForRequestContext(p, host).error)
  {
  }

  /** With daemons enabled, the current process's Java home, agent, start-up
      arguments, heap and criteria verdict play no part. */
  lemma DaemonPathIgnoresCurrentProcess(p: DaemonParameters, host: Host, uid: string,
                                        sameFile: (Path, Path) -> Option<bool>, agent: bool,
                                        immutableArgs: seq<string>, maxHeap: Option<string>,
                                        compatible: JvmCriteria -> bool)
    requires !IsAdministrative(p) && p.enabled
    ensures
      var host' := host.(isSameFile := sameFile, agentInstrumentationEnabled := agent,
                         currentImmutableJvmArgs := immutableArgs, currentMaxHeapSize := maxHeap,
                         criteriaCompatibleWithCurrent := compatible);
      CreateAction(p, host', uid) == CreateAction(p, host, uid)
  {
  }

  /** A build without daemons runs in this process exactly when the resolved
      request passes all four checks, stated on the host's facts. */
  lemma InProcessExactlyWhenAllChecksPass(p: DaemonParameters, host: Host, uid: string)
    requires !IsAdministrative(p) && !p.enabled
    requires ConfigureForRequestContext(p, host).Success?
    ensures
      var res := ConfigureForRequestContext(p, host).value;
      var args := res.params.jvmArgs;
      CreateAction(p, host, uid) == Success(BuildInProcess(res.params)) <==>
        && JvmCompatible(res.context, host) == Success(true)
        && (host.agentInstrumentationEnabled || !p.applyInstrumentationAgent)
        && (args.userDefinedImmutable ==> host.currentImmutableJvmArgs == args.effectiveSingleUse)
        && (host.currentMaxHeapSize == Some(LowDefaultMaxHeapSize) ==>
              args.userDefinedImmutable && exists i :: 0 <= i < |args.effectiveSingleUse| && StartsWith(args.effectiveSingleUse[i], MaxHeapFlag))
  {
  }

  /** When the JVM comparison succeeds but any one check fails, the build goes
      to a single-use daemon with the capped idle timeout. */
  lemma FailedCheckSendsToSingleUse(p: DaemonParameters, host: Host, uid: string)
    requires !IsAdministrative(p) && !p.enabled
    requires ConfigureForRequestContext(p, host).Success?
    requires
      var res := ConfigureForRequestContext(p, host).value;
      && JvmCompatible(res.context, host).Success?
      && (|| JvmCompatible(res.context, host) == Success(false)
          || (p.applyInstrumentationAgent && !host.agentInstrumentationEnabled)
          || (res.params.jvmArgs.userDefinedImmutable && host.currentImmutableJvmArgs != res.params.jvmArgs.effectiveSingleUse)
          || IsLowDefaultMemory(res.params, host))
    ensures
      var res := ConfigureForRequestContext(p, host).value;
      var r := CreateAction(p, host, uid);
      && r == Success(BuildInSingleUseDaemon(ApplySingleUseSafetyNet(res.params), res.context))
      && r.value.params.idleTimeout <= MaxSingleUseIdleTimeout
  {
  }

  /** A single-use daemon's parameters differ from the resolved ones at most in
      the idle timeout, which never exceeds two minutes and is unchanged when
      already within it. */
  lemma SingleUseParametersCapped(p: DaemonParameters, host: Host, uid: string)
    requires CreateAction(p, host, uid).Success?
    requires CreateAction(p, host, uid).value.BuildInSingleUseDaemon?
    ensures
      var q := CreateAction(p, host, uid).value.params;
      var resolved := ConfigureForRequestContext(p, host).value.params;
      && q.idleTimeout <= MaxSingleUseIdleTimeout
      && q.(idleTimeout := resolved.idleTimeout) == resolved
      && (resolved.idleTimeout <= MaxSingleUseIdleTimeout ==> q == resolved)
  {
  }

  /** A foreground daemon depends only on the session id, base directory, idle
      timeout, check interval, agent flag and native-services mode: two
      invocations that choose it and agree on those get the same action, whatever
      their requested runtime, daemon flag, JVM arguments, priority or host. */
  lemma ForegroundDependsOnlyOnDaemonSettings(p1: DaemonParameters, p2: DaemonParameters, h1: Host, h2: Host, uid: string)
    requires !p1.stop && !p1.status && p1.foreground
    requires !p2.stop && !p2.status && p2.foreground
    requires p1.baseDir == p2.baseDir && p1.idleTimeout == p2.idleTimeout && p1.periodicCheckInterval == p2.periodicCheckInterval
    requires p1.applyInstrumentationAgent == p2.applyInstrumentationAgent && p1.nativeServicesMode == p2.nativeServicesMode
    ensures CreateAction(p1, h1, uid) == CreateAction(p2, h2, uid)
    ensures CreateAction(p1, h1, uid).value.conf.uid == uid
  {
  }

  /** A request that names no other JVM passes the JVM check on every host: the
      context's JVM is the running one, whose home is the same path. */
  lemma RunningJvmIsCompatible(p: DaemonParameters, host: Host)
    requires p.requestedJvmCriteria.None?
    requires p.requestedJvmBasedOnJavaHome.None? || p.requestedJvmBasedOnJavaHome == Some(host.current)
    ensures ConfigureForRequestContext(p, host).Success?
    ensures JvmCompatible(ConfigureForRequestContext(p, host).value.context, host) == Success(true)
  {
  }

  /** On any host, a build without daemons that names no other JVM, whose agent
      state matches, that declares no immutable JVM arguments and whose process
      is not on the 64m default heap runs in this process. */
  lemma PlainBuildRunsInProcess(p: DaemonParameters, host: Host, uid: string)
    requires !IsAdministrative(p) && !p.enabled
    requires p.requestedJvmCriteria.None?
    requires p.requestedJvmBasedOnJavaHome.None? || p.requestedJvmBasedOnJavaHome == Some(host.current)
    requires host.agentInstrumentationEnabled || !p.applyInstrumentationAgent
    requires !host.applyDefaultsFor(p.jvmArgs, host.currentVersion).userDefinedImmutable
    requires host.currentMaxHeapSize != Some(LowDefaultMaxHeapSize)
    ensures CreateAction(p, host, uid) == Success(BuildInProcess(ConfigureForRequestContext(p, host).value.params))
  {
  }
}
