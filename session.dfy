/** The dashboard session: the state the dashboard component keeps, and the
    transitions that change it. These are the asset reset, the one-second
    tick, the two halves of an analysis cycle, the engine toggle and the edit
    of the manually entered key. Timers and rendering are not modelled. Each
    transition is a method, and random draws and clock labels come in as
    parameters. */
module Session {
  import opened Types
  import opened Inference
  import opened Window
  import opened Market
  import opened Risk

  datatype ApiStatus = Connected | Error | Idle

  /** What an analysis cycle captures when it starts: the prompt's values, the
      engine and the manual key of that moment. */
  datatype Request = Request(scenario: Scenario, engine: Engine, manualKey: string)

  /** How the awaited gateway call ended: it returned after `elapsed`
      milliseconds with what the exchange produced, or it threw. */
  datatype Completion = Returned(outcome: Outcome, elapsed: int) | Threw

  /** The status a returned call leaves: connected exactly when the result's
      confidence is positive, that is exactly after a request that got a
      reply which does not report a negative confidence. */
  function StatusAfter(engine: Engine, envKey: Option<string>, manualKey: Option<string>,
                       outcome: Outcome, elapsed: int): (s: ApiStatus)
    ensures s != Idle
    ensures s == Connected <==>
              && SendsRequest(engine, envKey, manualKey) && outcome.Ok?
              && !(NonZero(outcome.reply.confidence) && outcome.reply.confidence.value < 0.0)
    // connected only after a request that got a reply
    ensures s == Connected ==> SendsRequest(engine, envKey, manualKey) && outcome.Ok?
    // and after every such reply whose confidence is absent or not negative
    ensures (&& SendsRequest(engine, envKey, manualKey) && outcome.Ok?
             && (outcome.reply.confidence.Some? ==> outcome.reply.confidence.value >= 0.0))
            ==> s == Connected
  {
    if CallEngine(engine, envKey, manualKey, outcome, elapsed).confidence > 0.0 then Connected else Error
  }

  /** The report a returned call adds to the intelligence stream. */
  function MakeReport(timestamp: string, req: Request, res: EngineResult): (report: RiskReport)
    ensures report.engine == req.engine && report.scenario == req.scenario
    ensures report.analysis == res.analysis && report.threatLevel == res.threatLevel
    ensures report.confidenceScore == res.confidence && report.latency == res.stats
    ensures report.timestamp == timestamp
  {
    RiskReport(timestamp, req.engine, req.scenario, res.analysis, res.threatLevel, res.confidence, res.stats)
  }

  /** The chart's indices run consecutively and end just below the counter. */
  ghost predicate Consecutive(chart: seq<ChartPoint>, counter: int) {
    forall i :: 0 <= i < |chart| ==> chart[i].time == counter - |chart| + i
  }

  /** Appending the point under the current counter and advancing the
      counter keeps the indices consecutive. */
  lemma PushBackConsecutive(chart: seq<ChartPoint>, counter: int, v: real)
    requires Consecutive(chart, counter)
    ensures Consecutive(PushBack(chart, ChartPoint(counter, v), ChartCap), counter + 1)
  {
    var r := PushBack(chart, ChartPoint(counter, v), ChartCap);
    forall i | 0 <= i < |r| ensures r[i].time == counter + 1 - |r| + i {
      if i < |r| - 1 {
        assert r[i] == chart[|chart| + 1 - |r| + i];
      }
    }
  }

  class Dashboard {
    /** The process-configured credential, fixed for the session. */
    const envKey: Option<string>

    var engine: Engine
    var reports: seq<RiskReport>
    var isProcessing: bool
    var riskScore: real
    var selectedAsset: string
    var apiStatus: ApiStatus
    /** The key typed into the settings panel. */
    var manualKey: string
    /** The key persisted in client-local storage. */
    var storedKey: Option<string>
    /** The running reference price; the displayed price mirrors it. */
    var lastPrice: real
    var chart: seq<ChartPoint>
    var chartCounter: int
    var ticks: seq<Tick>
    var perfHistory: seq<PerfPoint>
    /** Every finished analysis so far, for the latency series. */
    ghost var runs: seq<Run>

    ghost predicate Valid()
      reads this
    {
      && selectedAsset in Assets
      && lastPrice > 0.0
      && |chart| <= ChartCap
      && |ticks| <= TickCap
      && |reports| <= ReportCap
      && Consecutive(chart, chartCounter)
      && MinScore <= riskScore <= MaxScore
      && perfHistory == Replay(runs)
    }

    /** The state before any effect has run. The manual key starts from the
        stored one, or empty. */
    constructor (envKey: Option<string>, storedKey: Option<string>)
      ensures Valid()
      ensures this.envKey == envKey && this.storedKey == storedKey
      ensures manualKey == StringOr(storedKey, "")
      ensures engine == Cerebras && selectedAsset == "NVDA" && apiStatus == Idle
      ensures reports == [] && !isProcessing && riskScore == InitialScore
      ensures lastPrice == Assets["NVDA"].basePrice && chart == [] && chartCounter == InitialPoints
      ensures ticks == [] && perfHistory == [] && runs == []
    {
      this.envKey := envKey;
      this.storedKey := storedKey;
      manualKey := StringOr(storedKey, "");
      engine := Cerebras;
      selectedAsset := "NVDA";
      apiStatus := Idle;
      reports := [];
      isProcessing := false;
      riskScore := InitialScore;
      lastPrice := Assets["NVDA"].basePrice;
      chart := [];
      chartCounter := InitialPoints;
      ticks := [];
      perfHistory := [];
      runs := [];
    }

    /** The guard of an analysis cycle. A cycle already in flight makes this a
        no-op that starts nothing; otherwise it sets the flag and returns what
        the new cycle captured. */
    method BeginAnalysis() returns (req: Option<Request>)
      requires Valid()
      modifies this`isProcessing
      ensures Valid()
      ensures isProcessing
      ensures old(isProcessing) <==> req == None
      ensures old(isProcessing) ==> unchanged(this)
      ensures req.Some? ==>
                req.value == Request(Scenario(selectedAsset, lastPrice, riskScore), engine, manualKey)
    {
      if isProcessing {
        return None;
      }
      isProcessing := true;
      req := Some(Request(Scenario(selectedAsset, lastPrice, riskScore), engine, manualKey));
    }

    /** The rest of an analysis cycle, once the gateway call has ended. A
        returned call sets the status, adds the report, the latency point and
        the score update; a thrown one only sets the status to error. Either
        way the in-flight flag is cleared. `timestamp` and `pointName` are the
        clock's texts and `r` the score's draw. */
    method FinishAnalysis(req: Request, completion: Completion, timestamp: string, pointName: string, r: real)
      requires Valid()
      requires 0.0 <= r < 2.0
      modifies this`apiStatus, this`reports, this`perfHistory, this`runs, this`riskScore, this`isProcessing
      ensures Valid()
      ensures !isProcessing
      ensures completion.Threw? ==>
                && apiStatus == Error
                && reports == old(reports) && perfHistory == old(perfHistory) && runs == old(runs)
                && riskScore == old(riskScore)
      ensures completion.Returned? ==>
                var res := CallEngine(req.engine, envKey, Some(req.manualKey), completion.outcome, completion.elapsed);
                && apiStatus == StatusAfter(req.engine, envKey, Some(req.manualKey), completion.outcome, completion.elapsed)
                && reports == PushReport(MakeReport(timestamp, req, res), old(reports))
                && runs == old(runs) + [Run(pointName, req.engine, res.stats.totalDuration)]
                && perfHistory == PushPerf(old(perfHistory), pointName, req.engine, res.stats.totalDuration)
                && riskScore == NextRiskScore(old(riskScore), r, res.threatLevel)
    {
      match completion {
        case Threw =>
          apiStatus := Error;
        case Returned(outcome, elapsed) =>
          var res := CallEngine(req.engine, envKey, Some(req.manualKey), outcome, elapsed);
          Ingest(req, res, timestamp, pointName, r);
      }
      isProcessing := false;
    }

    /** The body of the `try` once the gateway returned `res`: the status from
        its confidence, the report at the head of the stream, the latency
        point at the end of the series, and the score rule. */
    method Ingest(req: Request, res: EngineResult, timestamp: string, pointName: string, r: real)
      requires Valid()
      requires 0.0 <= r < 2.0
      modifies this`apiStatus, this`reports, this`perfHistory, this`runs, this`riskScore
      ensures Valid()
      ensures apiStatus == if res.confidence > 0.0 then Connected else Error
      ensures reports == PushReport(MakeReport(timestamp, req, res), old(reports))
      ensures runs == old(runs) + [Run(pointName, req.engine, res.stats.totalDuration)]
      ensures perfHistory == PushPerf(old(perfHistory), pointName, req.engine, res.stats.totalDuration)
      ensures riskScore == NextRiskScore(old(riskScore), r, res.threatLevel)
    {
      apiStatus := if res.confidence > 0.0 then Connected else Error;
      reports := PushReport(MakeReport(timestamp, req, res), reports);
      riskScore := NextRiskScore(riskScore, r, res.threatLevel);
      AppendLatency(pointName, req.engine, res.stats.totalDuration);
    }

    /** The latency chart's update after a run of `engine` that took
        `duration`: the new point goes to the end of the series, and the run
        is recorded. */
    method AppendLatency(pointName: string, engine: Engine, duration: real)
      requires Valid()
      modifies this`perfHistory, this`runs
      ensures Valid()
      ensures runs == old(runs) + [Run(pointName, engine, duration)]
      ensures perfHistory == PushPerf(old(perfHistory), pointName, engine, duration)
    {
      perfHistory := PushPerf(perfHistory, pointName, engine, duration);
      runs := runs + [Run(pointName, engine, duration)];
    }

    /** The reset effect, run on mount and whenever the selected asset
        changes: the reference price goes back to the asset's base price, the
        chart is redrawn from the 40 `noise` draws, the counter restarts at
        40, the ticks are cleared, and an analysis cycle is started. */
    method ResetAsset(noise: seq<real>) returns (req: Option<Request>)
      requires Valid()
      requires |noise| == InitialPoints
      requires forall i :: 0 <= i < |noise| ==> IsDraw(noise[i])
      modifies this`lastPrice, this`chart, this`chartCounter, this`ticks, this`isProcessing
      ensures Valid()
      ensures lastPrice == Assets[selectedAsset].basePrice
      ensures chart == InitialChart(lastPrice, noise) && chartCounter == InitialPoints
      ensures ticks == []
      ensures isProcessing
      ensures old(isProcessing) <==> req == None
      ensures req.Some? ==>
                req.value == Request(Scenario(selectedAsset, lastPrice, riskScore), engine, manualKey)
    {
      AssetParams(selectedAsset);
      var base := Assets[selectedAsset].basePrice;
      lastPrice := base;
      chart := InitialChart(base, noise);
      chartCounter := InitialPoints;
      ticks := [];
      req := BeginAnalysis();
    }

    /** Picking an asset from the list. Picking the one already selected
        changes nothing; any other resets the session to it. */
    method SelectAsset(symbol: string, noise: seq<real>) returns (req: Option<Request>)
      requires Valid()
      requires symbol in Assets
      requires |noise| == InitialPoints
      requires forall i :: 0 <= i < |noise| ==> IsDraw(noise[i])
      modifies this`selectedAsset, this`lastPrice, this`chart, this`chartCounter, this`ticks, this`isProcessing
      ensures Valid()
      ensures symbol == old(selectedAsset) ==> unchanged(this) && req == None
      ensures symbol != old(selectedAsset) ==>
                && selectedAsset == symbol
                && lastPrice == Assets[symbol].basePrice
                && chart == InitialChart(lastPrice, noise) && chartCounter == InitialPoints
                && ticks == []
                && isProcessing
                && (old(isProcessing) <==> req == None)
                && (req.Some? ==>
                      req.value == Request(Scenario(symbol, lastPrice, riskScore), engine, manualKey))
    {
      if symbol == selectedAsset {
        req := None;
      } else {
        selectedAsset := symbol;
        req := ResetAsset(noise);
      }
    }

    /** One tick of the simulation with draw `u` and clock label `now`: the
        reference price takes a random step, the tick goes to the front of the
        tape, and the point goes to the back of the chart under the current
        counter, which then advances. */
    method Advance(u: real, now: string)
      requires Valid()
      requires IsDraw(u)
      modifies this`lastPrice, this`ticks, this`chart, this`chartCounter
      ensures Valid()
      ensures var change := PriceChange(old(lastPrice), u, Assets[selectedAsset].vol);
              && lastPrice == old(lastPrice) + change
              && ticks == PushFront(Tick(lastPrice, PercentChange(change, lastPrice), now), old(ticks), TickCap)
              && chart == PushBack(old(chart), ChartPoint(old(chartCounter), lastPrice), ChartCap)
              && chartCounter == old(chartCounter) + 1
    {
      AssetParams(selectedAsset);
      var vol := Assets[selectedAsset].vol;
      var change := PriceChange(lastPrice, u, vol);
      var newPrice := lastPrice + change;
      lastPrice := newPrice;
      ticks := PushFront(Tick(newPrice, PercentChange(change, newPrice), now), ticks, TickCap);
      PushBackConsecutive(chart, chartCounter, newPrice);
      chart := PushBack(chart, ChartPoint(chartCounter, newPrice), ChartCap);
      chartCounter := chartCounter + 1;
    }

    /** The engine button: switches to the other engine and touches nothing
        else, so price, ticks and chart carry on. */
    method ToggleEngine()
      requires Valid()
      modifies this`engine
      ensures Valid()
      ensures engine == Other(old(engine))
    {
      engine := Other(engine);
    }

    /** Editing the key field. A non-empty key is persisted; clearing the field
        leaves the persisted key as it was. */
    method SetManualKey(key: string)
      requires Valid()
      modifies this`manualKey, this`storedKey
      ensures Valid()
      ensures manualKey == key
      ensures storedKey == if key != "" then Some(key) else old(storedKey)
    {
      manualKey := key;
      if key != "" {
        storedKey := Some(key);
      }
    }

    /** The latest point of the latency chart shows each engine's most recent
        duration, and the chart never holds more than ten points. */
    lemma LatencySeriesLastKnown(e: Engine)
      requires Valid()
      ensures |perfHistory| == Min(|runs|, PerfCap) <= PerfCap
      ensures LastKnown(perfHistory, e) == LatestDuration(runs, e)
    {
      ReplayLastKnown(runs, e);
    }
  }
}
