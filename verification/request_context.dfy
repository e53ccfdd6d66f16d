/** Resolution of the request context: which JVM the build must run under,
    and for which Java version the parameter defaults are applied. */
module RequestContextResolution {
  import opened Wrappers
  import opened Runtime
  import opened DaemonConfiguration
  import opened LauncherEnvironment

  /** The parameters after `applyDefaultsFor`, the version the defaults were
      applied for, and the resolved context. */
  datatype Resolution = Resolution(params: DaemonParameters, defaultsVersion: JavaVersion, context: RequestContext)

  /** The parameters with the defaults for version `v` applied: only the JVM
      arguments change. */
  function WithDefaultsFor(p: DaemonParameters, v: JavaVersion, host: Host): DaemonParameters {
    p.(jvmArgs := host.applyDefaultsFor(p.jvmArgs, v))
  }

  /** The context every branch builds: the chosen JVM, with everything else
      taken from the parameters. */
  function ContextFor(jvm: Option<Jvm>, p: DaemonParameters): RequestContext {
    RequestContext(jvm, p.requestedJvmCriteria, p.jvmArgs.effective, p.applyInstrumentationAgent, p.nativeServicesMode, p.priority)
  }

  /** No criteria were declared, and a Java home was requested that is not the
      running JVM object (a reference comparison, not file identity). */
  predicate RequestsOtherJvm(p: DaemonParameters, host: Host) {
    p.requestedJvmCriteria.None? && p.requestedJvmBasedOnJavaHome.Some? && p.requestedJvmBasedOnJavaHome.value != host.current
  }

  /** The three ordered branches of request-context resolution. */
  function ConfigureForRequestContext(p: DaemonParameters, host: Host): (r: Result<Resolution, LaunchFailure>)
    // Whatever branch fires, only the JVM arguments are rewritten, by the defaults
    // for the chosen version, and the context carries the rewritten parameters.
    ensures r.Success? ==> r.value.params == WithDefaultsFor(p, r.value.defaultsVersion, host)
    ensures r.Success? ==> CarriesParameters(r.value.context, r.value.params)
    // 1. Declared criteria win: the requested home (possibly none) is kept, and the
    //    defaults follow the criteria's version.
    ensures p.requestedJvmCriteria.Some? ==>
      && r.Success?
      && r.value.defaultsVersion == CriteriaJavaVersion(p.requestedJvmCriteria.value)
      && r.value.context.jvm == p.requestedJvmBasedOnJavaHome
    // 2. Another JVM was requested: its detected version drives the defaults, and a
    //    detection failure fails the resolution.
    ensures RequestsOtherJvm(p, host) ==>
      var home := p.requestedJvmBasedOnJavaHome.value;
      && (r.Success? <==> host.detectJavaVersion(home).Some?)
      && (r.Success? ==> r.value.defaultsVersion == host.detectJavaVersion(home).value && r.value.context.jvm == Some(home))
      && (r.Failure? ==> r.error == VersionDetectionFailed(home))
    // 3. Otherwise the running JVM and its version are used.
    ensures p.requestedJvmCriteria.None? && !RequestsOtherJvm(p, host) ==>
      && r.Success?
      && r.value.defaultsVersion == host.currentVersion
      && r.value.context.jvm == Some(host.current)
  {
    if p.requestedJvmCriteria.Some? then
      var v := CriteriaJavaVersion(p.requestedJvmCriteria.value);
      var q := WithDefaultsFor(p, v, host);
      Success(Resolution(q, v, ContextFor(q.requestedJvmBasedOnJavaHome, q)))
    else if p.requestedJvmBasedOnJavaHome.Some? && p.requestedJvmBasedOnJavaHome.value != host.current then
      var home := p.requestedJvmBasedOnJavaHome.value;
      match host.detectJavaVersion(home)
      case None => Failure(VersionDetectionFailed(home))
      case Some(v) =>
        var q := WithDefaultsFor(p, v, host);
        Success(Resolution(q, v, ContextFor(Some(home), q)))
    else
      var v := host.currentVersion;
      var q := WithDefaultsFor(p, v, host);
      Success(Resolution(q, v, ContextFor(Some(host.current), q)))
  }

  /** A resolved context always names a JVM or criteria, so the reuse check's
      "no preference" case is never reached after resolution. */
  lemma ResolvedContextNamesRuntime(p: DaemonParameters, host: Host)
    requires ConfigureForRequestContext(p, host).Success?
    ensures
      var ctx := ConfigureForRequestContext(p, host).value.context;
      ctx.jvm.Some? || ctx.jvmCriteria.Some?
  {
  }

  /** Without criteria, the resolved JVM is the requested one when a Java home
      was requested, and the running JVM otherwise. */
  lemma ResolvedJvmIsRequestedOrCurrent(p: DaemonParameters, host: Host)
    requires p.requestedJvmCriteria.None?
    requires ConfigureForRequestContext(p, host).Success?
    ensures
      var jvm := ConfigureForRequestContext(p, host).value.context.jvm;
      jvm == if p.requestedJvmBasedOnJavaHome.Some? then p.requestedJvmBasedOnJavaHome else Some(host.current)
  {
  }

  /** The comparison with the running JVM is by object, not by installation: a
      second `Jvm` object for the running JVM's own home still goes through
      version detection, and a detection failure fails the resolution. */
  lemma SameHomeOtherObjectIsDetected(p: DaemonParameters, host: Host)
    requires p.requestedJvmCriteria.None?
    requires p.requestedJvmBasedOnJavaHome == Some(Jvm(host.current.instance + 1, host.current.javaHome))
    requires host.detectJavaVersion(p.requestedJvmBasedOnJavaHome.value).None?
    ensures ConfigureForRequestContext(p, host) == Failure(VersionDetectionFailed(p.requestedJvmBasedOnJavaHome.value))
  {
  }

  /** Resolution reads neither the dispatch flags nor the timeouts: changing them
      changes the resolved parameters in those fields only. */
  lemma ResolutionIgnoresDispatchSettings(p: DaemonParameters, host: Host, stop: bool, status: bool, foreground: bool, enabled: bool, idle: Int32)
    ensures
      var p' := p.(stop := stop, status := status, foreground := foreground, enabled := enabled, idleTimeout := idle);
      var r := ConfigureForRequestContext(p, host);
      var r' := ConfigureForRequestContext(p', host);
      && (r.Failure? <==> r'.Failure?)
      && (r.Failure? ==> r.error == r'.error)
      && (r.Success? ==>
            && r'.value.context == r.value.context
            && r'.value.defaultsVersion == r.value.defaultsVersion
            && r'.value.params == r.value.params.(stop := stop, status := status, foreground := foreground, enabled := enabled, idleTimeout := idle))
  {
  }
}
