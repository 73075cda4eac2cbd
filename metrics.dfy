/** The runtime figures the load balancer and the brain read per provider. */
module Metrics {
  /** `ProviderMetrics`; `averageLatency` is a duration in nanoseconds. Connection counts are
      counts, so they are natural numbers. */
  datatype ProviderMetrics = ProviderMetrics(
    successRate: real,
    errorRate: real,
    timeoutRate: real,
    activeConnections: nat,
    maxConnections: int,
    averageLatency: int)

  /** `Duration.Milliseconds`: whole milliseconds, truncated toward zero. */
  function Milliseconds(d: int): (ms: int)
    ensures d >= 0 ==> 0 <= ms && ms * 1_000_000 <= d < (ms + 1) * 1_000_000
    ensures d < 0 ==> ms <= 0 && (ms - 1) * 1_000_000 < d <= ms * 1_000_000
  {
    if d >= 0 then d / 1_000_000 else -((-d) / 1_000_000)
  }

  /** The collector's fixed answer for every provider. */
  function CollectorDefaults(provider: string): ProviderMetrics
  {
    ProviderMetrics(0.98, 0.01, 0.01, 1, 100, 800_000_000)
  }
}
