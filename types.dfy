/** Record types shared by the inference gateway and the dashboard session. */
module Types {

  /** A value that may be absent (an optional property, or `undefined`). */
  datatype Option<+T> = None | Some(value: T)

  /** The two interchangeable analysis back ends. */
  datatype Engine = Cerebras | NvidiaLocal

  /** Timing figures attached to every inference result. `vramUsage` is
      reported by the local back end only, `networkLatency` by the cloud one. */
  datatype LatencyStats = LatencyStats(
    engine: Engine,
    ttft: real,
    tps: real,
    totalDuration: real,
    vramUsage: Option<real>,
    networkLatency: Option<real>)

  /** The values the analysis prompt is built from: the selected symbol, the
      running reference price and the risk score at the moment the cycle starts.
      The prompt's wording and number formatting are not modelled. */
  datatype Scenario = Scenario(asset: string, price: real, riskScore: real)

  /** One entry of the intelligence stream. */
  datatype RiskReport = RiskReport(
    timestamp: string,
    engine: Engine,
    scenario: Scenario,
    analysis: string,
    threatLevel: string,
    confidenceScore: real,
    latency: LatencyStats)

  /** The engine the toggle switches to from `e`. */
  function Other(e: Engine): (o: Engine)
    ensures o != e
  {
    if e == Cerebras then NvidiaLocal else Cerebras
  }

  function Min(a: int, b: int): (m: int)
  {
    if a <= b then a else b
  }
}
