/** The inference gateway (`callEngine`): one call to either back end,
    normalised into a single result record whatever happened on the wire.

    The HTTP exchange and the JSON parsing are not modelled; what they
    produced is the `Outcome` parameter. With those abstracted the gateway
    is a total function: credential resolution, the local/cloud branches,
    field defaulting and the mapping of every failure to a result. */
module Inference {
  import opened Types

  /** The fields of the back end's JSON reply, each `None` when missing. */
  datatype Reply = Reply(
    analysis: Option<string>,
    threatLevel: Option<string>,
    confidence: Option<real>,
    completionTokens: Option<real>)

  /** Why the exchange did not yield a reply. */
  datatype Failure =
    | Unreachable(reason: string)            // the request itself rejected
    | HttpError(bodyMessage: Option<string>)  // non-2xx; `error.message` of the body, if any
    | Malformed(reason: string)              // the body or its embedded JSON did not parse

  /** What the single outbound request produced. */
  datatype Outcome = Failed(failure: Failure) | Ok(reply: Reply)

  /** The normalised result every call returns. */
  datatype EngineResult = EngineResult(
    analysis: string,
    threatLevel: string,
    confidence: real,
    stats: LatencyStats)

  const LocalOffline := "[LOCAL OFFLINE] Connect to Ollama (llama3) at port 11434."
  const KeyMissing := "[CEREBRAS KEY MISSING] Provide an API key via CEREBRAS_API_KEY env var or the settings dashboard."
  const CloudErrorPrefix := "[CEREBRAS ERROR] "
  const CloudErrorDefault := "Cerebras API Error"
  const LocalDefaultAnalysis := "Local micro-structure analysis complete."
  const CloudDefaultAnalysis := "Cerebras WSE-3 accelerated insight generated."

  /** JavaScript truthiness of an optional string: present and non-empty. */
  predicate Present(s: Option<string>) { s.Some? && s.value != "" }

  /** JavaScript truthiness of an optional number: present and not zero. */
  predicate NonZero(x: Option<real>) { x.Some? && x.value != 0.0 }

  /** `s || d` for an optional string: the value when it is truthy, the
      default otherwise; a non-empty default never yields an empty result. */
  function StringOr(s: Option<string>, d: string): (r: string)
    ensures Present(s) ==> r == s.value
    ensures !Present(s) ==> r == d
    ensures d != "" ==> r != ""
  {
    if Present(s) then s.value else d
  }

  /** `x || d` for an optional number: the value when it is truthy, the
      default otherwise; a non-zero default never yields 0. */
  function NumberOr(x: Option<real>, d: real): (r: real)
    ensures NonZero(x) ==> r == x.value
    ensures !NonZero(x) ==> r == d
    ensures d != 0.0 ==> r != 0.0
  {
    if NonZero(x) then x.value else d
  }

  /** The credential the cloud call uses: the process-configured key when it
      is set and non-empty, otherwise whatever the UI supplied. */
  function ResolveKey(envKey: Option<string>, manualKey: Option<string>): (key: Option<string>)
    ensures Present(envKey) ==> key == envKey
    ensures !Present(envKey) ==> key == manualKey
    ensures Present(key) <==> Present(envKey) || Present(manualKey)
  {
    if Present(envKey) then envKey else manualKey
  }

  /** Whether a call would issue its outbound request: always for the local
      back end, and for the cloud back end only once a credential resolves. */
  predicate SendsRequest(engine: Engine, envKey: Option<string>, manualKey: Option<string>) {
    engine == NvidiaLocal || Present(ResolveKey(envKey, manualKey))
  }

  /** The stats of every failed or skipped call: nothing measured. */
  function ZeroStats(engine: Engine): (s: LatencyStats)
    ensures s.engine == engine
    ensures s.totalDuration == 0.0 && s.ttft == 0.0 && s.tps == 0.0
    ensures s.vramUsage == None && s.networkLatency == None
  {
    LatencyStats(engine, 0.0, 0.0, 0.0, None, None)
  }

  /** The text a failed cloud call reports after its prefix: the error's own
      message, or for an HTTP error the body's message with a fixed fallback. */
  function CloudFailureMessage(f: Failure): (msg: string)
    ensures f.HttpError? && Present(f.bodyMessage) ==> msg == f.bodyMessage.value
    ensures f.HttpError? && !Present(f.bodyMessage) ==> msg == CloudErrorDefault
    ensures f.Unreachable? ==> msg == f.reason
    ensures f.Malformed? ==> msg == f.reason
  {
    match f
    case Unreachable(reason) => reason
    case HttpError(bodyMessage) => StringOr(bodyMessage, CloudErrorDefault)
    case Malformed(reason) => reason
  }

  /** Tokens per second the cloud call reports: the reported completion
      tokens over the elapsed seconds when tokens are reported, a fixed 3500
      otherwise. The division by a zero elapsed time is taken to give 0. */
  function CloudTps(completionTokens: Option<real>, elapsed: int): (tps: real)
    ensures !NonZero(completionTokens) ==> tps == 3500.0
    ensures NonZero(completionTokens) && elapsed != 0 ==>
              tps * ((elapsed as real) / 1000.0) == completionTokens.value
    ensures NonZero(completionTokens) && elapsed == 0 ==> tps == 0.0
  {
    if NonZero(completionTokens) then
      if elapsed == 0 then 0.0 else completionTokens.value / ((elapsed as real) / 1000.0)
    else 3500.0
  }

  /** The default threat level and confidence each back end fills in. */
  function DefaultThreat(engine: Engine): (level: string)
    ensures engine == NvidiaLocal ==> level == "Medium"
    ensures engine == Cerebras ==> level == "Low"
  {
    if engine == NvidiaLocal then "Medium" else "Low"
  }

  function DefaultConfidence(engine: Engine): (confidence: real)
    ensures engine == NvidiaLocal ==> confidence == 85.0
    ensures engine == Cerebras ==> confidence == 99.0
  {
    if engine == NvidiaLocal then 85.0 else 99.0
  }

  /** One call of the gateway. `elapsed` is the wall-clock time the exchange
      took in milliseconds; `outcome` is what the request produced, and is
      ignored when no request is sent. */
  function CallEngine(engine: Engine, envKey: Option<string>, manualKey: Option<string>,
                      outcome: Outcome, elapsed: int): (r: EngineResult)
    // the result is always labelled with the engine that was asked
    ensures r.stats.engine == engine
    // confidence 0 is the signal of a skipped or failed call, and only of that
    ensures r.confidence == 0.0 <==> !(SendsRequest(engine, envKey, manualKey) && outcome.Ok?)
    // cloud with no credential: an informational stub, whatever the outcome
    ensures !SendsRequest(engine, envKey, manualKey) ==>
              r == EngineResult(KeyMissing, "Low", 0.0, ZeroStats(Cerebras))
    // any local failure: the fixed offline text
    ensures engine == NvidiaLocal && outcome.Failed? ==>
              r == EngineResult(LocalOffline, "Critical", 0.0, ZeroStats(NvidiaLocal))
    // any cloud failure once a credential resolved: the error's message
    ensures engine == Cerebras && SendsRequest(engine, envKey, manualKey) && outcome.Failed? ==>
              r == EngineResult(CloudErrorPrefix + CloudFailureMessage(outcome.failure), "Critical", 0.0, ZeroStats(Cerebras))
    // a reply: its fields where present, the back end's defaults where not
    ensures SendsRequest(engine, envKey, manualKey) && outcome.Ok? ==>
              var reply := outcome.reply;
              && (Present(reply.analysis) ==> r.analysis == reply.analysis.value)
              && (!Present(reply.analysis) ==>
                    r.analysis == if engine == NvidiaLocal then LocalDefaultAnalysis else CloudDefaultAnalysis)
              && (Present(reply.threatLevel) ==> r.threatLevel == reply.threatLevel.value)
              && (!Present(reply.threatLevel) ==> r.threatLevel == DefaultThreat(engine))
              && (NonZero(reply.confidence) ==> r.confidence == reply.confidence.value)
              && (!NonZero(reply.confidence) ==> r.confidence == DefaultConfidence(engine))
              && r.stats.totalDuration == elapsed as real
    // the placeholder figures each back end reports on success
    ensures engine == NvidiaLocal && outcome.Ok? ==>
              r.stats.ttft == 142.0 && r.stats.tps == 68.0 &&
              r.stats.vramUsage == Some(14.1) && r.stats.networkLatency == None
    ensures engine == Cerebras && SendsRequest(engine, envKey, manualKey) && outcome.Ok? ==>
              && r.stats.ttft == 0.8 && r.stats.networkLatency == Some(42.0) && r.stats.vramUsage == None
              && (!NonZero(outcome.reply.completionTokens) ==> r.stats.tps == 3500.0)
  {
    match engine
    case NvidiaLocal =>
      (match outcome
       case Ok(reply) =>
         EngineResult(
           StringOr(reply.analysis, LocalDefaultAnalysis),
           StringOr(reply.threatLevel, "Medium"),
           NumberOr(reply.confidence, 85.0),
           LatencyStats(NvidiaLocal, 142.0, 68.0, elapsed as real, Some(14.1), None))
       case Failed(_) =>
         EngineResult(LocalOffline, "Critical", 0.0, ZeroStats(NvidiaLocal)))
    case Cerebras =>
      if !Present(ResolveKey(envKey, manualKey)) then
        EngineResult(KeyMissing, "Low", 0.0, ZeroStats(Cerebras))
      else
        match outcome
        case Ok(reply) =>
          EngineResult(
            StringOr(reply.analysis, CloudDefaultAnalysis),
            StringOr(reply.threatLevel, "Low"),
            NumberOr(reply.confidence, 99.0),
            LatencyStats(Cerebras, 0.8, CloudTps(reply.completionTokens, elapsed), elapsed as real, None, Some(42.0)))
        case Failed(f) =>
          EngineResult(CloudErrorPrefix + CloudFailureMessage(f), "Critical", 0.0, ZeroStats(Cerebras))
  }

  /** The process-configured credential wins whatever the UI supplied: two
      calls that differ only in the manual key give the same result. */
  lemma EnvKeyOverridesManual(engine: Engine, envKey: Option<string>, manual1: Option<string>,
                              manual2: Option<string>, outcome: Outcome, elapsed: int)
    requires Present(envKey)
    ensures CallEngine(engine, envKey, manual1, outcome, elapsed)
         == CallEngine(engine, envKey, manual2, outcome, elapsed)
  {
  }

  /** Without a request nothing about the exchange can reach the result:
      every outcome and every elapsed time give the same stub. */
  lemma NoRequestNoEffect(envKey: Option<string>, manualKey: Option<string>,
                          o1: Outcome, o2: Outcome, t1: int, t2: int)
    requires !SendsRequest(Cerebras, envKey, manualKey)
    ensures CallEngine(Cerebras, envKey, manualKey, o1, t1) == CallEngine(Cerebras, envKey, manualKey, o2, t2)
    ensures CallEngine(Cerebras, envKey, manualKey, o1, t1).threatLevel == "Low"
  {
  }
}
