/** Whether the launcher's own JVM may run the build instead of a daemon. */
module CurrentProcessReuse {
  import opened Wrappers
  import opened Runtime
  import opened DaemonConfiguration
  import opened LauncherEnvironment

  /** The JVM argument that sets the maximum heap size. */
  const MaxHeapFlag: string := "-Xmx"

  /** The client VM's default maximum heap size, too small for most builds. */
  const LowDefaultMaxHeapSize: string := "64m"

  /** Java's `String.startsWith`. */
  predicate StartsWith(s: string, prefix: string) {
    |prefix| <= |s| && s[..|prefix|] == prefix
  }

  /** The JVM the context asks for is the running one. With a Java home, this is
      file identity with the current process's Java home: the same path always
      matches, and an I/O error while comparing two different paths is a failure
      rather than `false`; with criteria only, it is what the criteria say of the
      running JVM; with neither, any JVM will do. */
  function JvmCompatible(ctx: RequestContext, host: Host): (r: Result<bool, LaunchFailure>)
    ensures ctx.jvm.Some? && ctx.jvm.value.javaHome == host.current.javaHome ==> r == Success(true)
    ensures ctx.jvm.Some? && ctx.jvm.value.javaHome != host.current.javaHome ==>
      var same := host.isSameFile(host.current.javaHome, ctx.jvm.value.javaHome);
      && (r.Success? <==> same.Some?)
      && (r.Success? ==> r.value == same.value)
      && (r.Failure? ==> r.error == JavaHomeComparisonFailed(host.current.javaHome, ctx.jvm.value.javaHome))
    ensures ctx.jvm.None? && ctx.jvmCriteria.Some? ==> r == Success(host.criteriaCompatibleWithCurrent(ctx.jvmCriteria.value))
    ensures ctx.jvm.None? && ctx.jvmCriteria.None? ==> r == Success(true)
  {
    if ctx.jvm.Some? then
      match IsSameFile(host, host.current.javaHome, ctx.jvm.value.javaHome)
      case None => Failure(JavaHomeComparisonFailed(host.current.javaHome, ctx.jvm.value.javaHome))
      case Some(same) => Success(same)
    else if ctx.jvmCriteria.Some? then
      Success(host.criteriaCompatibleWithCurrent(ctx.jvmCriteria.value))
    else
      Success(true)
  }

  /** The agent state matches unless the request needs the instrumentation agent
      and this process runs without it. */
  function JavaAgentStateMatches(ctx: RequestContext, host: Host): (r: bool)
    ensures ctx.applyInstrumentationAgent && !host.agentInstrumentationEnabled ==> !r
    ensures !ctx.applyInstrumentationAgent ==> r
    ensures host.agentInstrumentationEnabled ==> r
  {
    host.agentInstrumentationEnabled || !ctx.applyInstrumentationAgent
  }

  /** Without user-defined immutable JVM arguments there is nothing to match;
      with them, this process's immutable arguments must be the single-use
      arguments, element by element and in order. */
  function ImmutableJvmArgsMatch(p: DaemonParameters, host: Host): (r: bool)
    ensures !p.jvmArgs.userDefinedImmutable ==> r
    ensures p.jvmArgs.userDefinedImmutable ==>
      var current := host.currentImmutableJvmArgs;
      var required := p.jvmArgs.effectiveSingleUse;
      (r <==> |current| == |required| && forall i :: 0 <= i < |current| ==> current[i] == required[i])
  {
    if p.jvmArgs.userDefinedImmutable then host.currentImmutableJvmArgs == p.jvmArgs.effectiveSingleUse else true
  }

  /** Scans the arguments in order and stops at the first one that sets the
      maximum heap size. */
  function FindMaxHeapArg(args: seq<string>): (found: bool)
    ensures found <==> exists i :: 0 <= i < |args| && StartsWith(args[i], MaxHeapFlag)
  {
    if |args| == 0 then false
    else if StartsWith(args[0], MaxHeapFlag) then true
    else
      var rest := FindMaxHeapArg(args[1..]);
      assert forall i :: 1 <= i < |args| ==> args[i] == args[1..][i - 1];
      rest
  }

  /** This process runs with the client VM's 64m default heap and the request
      does not override it. The override only counts when the user declared
      immutable JVM arguments; otherwise an `-Xmx` is not looked for at all. */
  function IsLowDefaultMemory(p: DaemonParameters, host: Host): (low: bool)
    ensures low <==>
      && host.currentMaxHeapSize == Some(LowDefaultMaxHeapSize)
      && !(p.jvmArgs.userDefinedImmutable && exists i :: 0 <= i < |p.jvmArgs.effectiveSingleUse| && StartsWith(p.jvmArgs.effectiveSingleUse[i], MaxHeapFlag))
  {
    if p.jvmArgs.userDefinedImmutable && FindMaxHeapArg(p.jvmArgs.effectiveSingleUse) then false
    else host.currentMaxHeapSize == Some(LowDefaultMaxHeapSize)
  }

  /** The current process may run the build when its JVM is compatible, the agent
      state matches, the immutable arguments match and it is not running on the
      low default heap. Only the JVM comparison can fail. */
  function CanUseCurrentProcess(p: DaemonParameters, ctx: RequestContext, host: Host): (r: Result<bool, LaunchFailure>)
    ensures r.Failure? <==> JvmCompatible(ctx, host).Failure?
    ensures r.Failure? ==> r.error == JvmCompatible(ctx, host).error
    ensures r == Success(true) <==>
      && JvmCompatible(ctx, host) == Success(true)
      && (host.agentInstrumentationEnabled || !ctx.applyInstrumentationAgent)
      && (p.jvmArgs.userDefinedImmutable ==> host.currentImmutableJvmArgs == p.jvmArgs.effectiveSingleUse)
      && !IsLowDefaultMemory(p, host)
  {
    match JvmCompatible(ctx, host)
    case Failure(e) => Failure(e)
    case Success(compatibleJvm) =>
      Success(compatibleJvm && JavaAgentStateMatches(ctx, host) && ImmutableJvmArgsMatch(p, host) && !IsLowDefaultMemory(p, host))
  }

  /** Falsifying any one of the four checks, whatever the others say, rules
      reuse out. */
  lemma EachCheckIsNecessary(p: DaemonParameters, ctx: RequestContext, host: Host)
    requires
      || JvmCompatible(ctx, host) == Success(false)
      || (ctx.applyInstrumentationAgent && !host.agentInstrumentationEnabled)
      || (p.jvmArgs.userDefinedImmutable && host.currentImmutableJvmArgs != p.jvmArgs.effectiveSingleUse)
      || IsLowDefaultMemory(p, host)
    ensures CanUseCurrentProcess(p, ctx, host) != Success(true)
  {
  }

  /** A 64m process is never reused when the request declares no immutable JVM
      arguments, even if an `-Xmx` appears among its single-use arguments. */
  lemma LowHeapWithoutImmutableArgsBlocksReuse(p: DaemonParameters, ctx: RequestContext, host: Host)
    requires host.currentMaxHeapSize == Some(LowDefaultMaxHeapSize)
    requires !p.jvmArgs.userDefinedImmutable
    ensures CanUseCurrentProcess(p, ctx, host) != Success(true)
  {
  }

  /** Any `-Xmx` among user-declared immutable arguments, whatever its value,
      lifts the memory heuristic. */
  lemma MaxHeapOverrideLiftsHeuristic(p: DaemonParameters, host: Host, i: nat)
    requires p.jvmArgs.userDefinedImmutable
    requires i < |p.jvmArgs.effectiveSingleUse| && StartsWith(p.jvmArgs.effectiveSingleUse[i], MaxHeapFlag)
    ensures !IsLowDefaultMemory(p, host)
  {
  }
}
