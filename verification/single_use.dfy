/** The safety net applied before a single-use daemon is started: a daemon
    nobody stops must not linger, so its idle timeout is capped. */
module SingleUseSafetyNet {
  import opened Runtime
  import opened DaemonConfiguration

  /** Two minutes, in milliseconds. */
  const MaxSingleUseIdleTimeout: Int32 := 2 * 60 * 1000

  /** The idle timeout capped at two minutes: the smaller of the configured
      timeout and the cap. */
  function ClampIdleTimeout(t: Int32): (r: Int32)
    ensures r <= t && r <= MaxSingleUseIdleTimeout
    ensures r == t || r == MaxSingleUseIdleTimeout
  {
    if t > MaxSingleUseIdleTimeout then MaxSingleUseIdleTimeout else t
  }

  /** The parameters with the idle timeout capped; nothing else changes. */
  function ApplySingleUseSafetyNet(p: DaemonParameters): (q: DaemonParameters)
    ensures q.idleTimeout <= MaxSingleUseIdleTimeout
    ensures p.idleTimeout <= MaxSingleUseIdleTimeout ==> q == p
    ensures p.idleTimeout > MaxSingleUseIdleTimeout ==> q.idleTimeout == MaxSingleUseIdleTimeout
    ensures q.(idleTimeout := p.idleTimeout) == p
  {
    p.(idleTimeout := ClampIdleTimeout(p.idleTimeout))
  }

  /** Capping twice is capping once. */
  lemma SafetyNetIdempotent(p: DaemonParameters)
    ensures ApplySingleUseSafetyNet(ApplySingleUseSafetyNet(p)) == ApplySingleUseSafetyNet(p)
  {
  }

  /** The cap is the largest timeout within both the configured one and the cap. */
  lemma ClampIsGreatestLowerBound(t: Int32, b: Int32)
    requires b <= t && b <= MaxSingleUseIdleTimeout
    ensures b <= ClampIdleTimeout(t)
  {
  }
}
