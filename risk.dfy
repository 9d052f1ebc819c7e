/** The risk aggregator of the dashboard: the score rule driven by each
    result's threat level, the report history, and the per-engine latency
    series shown on the performance chart. */
module Risk {
  import opened Types
  import opened Window

  const ReportCap := 30
  const PerfCap := 10
  const MinScore := 5.0
  const MaxScore := 99.9
  const InitialScore := 44.8

  function RealMin(a: real, b: real): (m: real)
  {
    if a <= b then a else b
  }

  function RealMax(a: real, b: real): (m: real)
  {
    if a >= b then a else b
  }

  /** The score adjustment each threat level carries; a level outside the
      table adjusts by nothing. */
  function ThreatMultiplier(level: string): (m: real)
    ensures level == "Critical" ==> m == 12.0
    ensures level == "High" ==> m == 6.0
    ensures level == "Medium" ==> m == 2.0
    ensures level == "Low" ==> m == -4.0
    ensures level !in {"Critical", "High", "Medium", "Low"} ==> m == 0.0
  {
    if level == "Critical" then 12.0
    else if level == "High" then 6.0
    else if level == "Medium" then 2.0
    else if level == "Low" then -4.0
    else 0.0
  }

  /** The score after one result: the previous score plus the draw `r` and
      the level's multiplier, clamped to [5.0, 99.9]. */
  function NextRiskScore(prev: real, r: real, level: string): (score: real)
    ensures MinScore <= score <= MaxScore
    ensures MinScore <= prev + r + ThreatMultiplier(level) <= MaxScore ==>
              score == prev + r + ThreatMultiplier(level)
    ensures prev + r + ThreatMultiplier(level) < MinScore ==> score == MinScore
    ensures prev + r + ThreatMultiplier(level) > MaxScore ==> score == MaxScore
  {
    RealMin(MaxScore, RealMax(MinScore, prev + r + ThreatMultiplier(level)))
  }

  /** From the initial 44.8, a Critical result lands in [56.8, 58.8). */
  lemma CriticalFromInitial(r: real)
    requires 0.0 <= r < 2.0
    ensures 56.8 <= NextRiskScore(InitialScore, r, "Critical") < 58.8
  {
  }

  /** A Critical or High result never lowers a score that is in range, and a
      Low one never raises it. */
  lemma ThreatDirection(prev: real, r: real)
    requires MinScore <= prev <= MaxScore && 0.0 <= r < 2.0
    ensures NextRiskScore(prev, r, "Critical") >= prev
    ensures NextRiskScore(prev, r, "High") >= prev
    ensures NextRiskScore(prev, r, "Low") <= prev
  {
  }

  /** The score after a whole run of results, each with its draw. */
  function ScoreAfter(prev: real, draws: seq<real>, levels: seq<string>): (score: real)
    requires |draws| == |levels|
    decreases |levels|
  {
    if levels == [] then prev
    else ScoreAfter(NextRiskScore(prev, draws[0], levels[0]), draws[1..], levels[1..])
  }

  /** Any run of results, with any draws and any levels, keeps an in-range
      score in range. */
  lemma {:induction false} ScoreStaysInRange(prev: real, draws: seq<real>, levels: seq<string>)
    requires |draws| == |levels|
    requires MinScore <= prev <= MaxScore
    ensures MinScore <= ScoreAfter(prev, draws, levels) <= MaxScore
    decreases |levels|
  {
    if levels != [] {
      ScoreStaysInRange(NextRiskScore(prev, draws[0], levels[0]), draws[1..], levels[1..]);
    }
  }

  /** `[report, ...prev].slice(0, 30)`. */
  function PushReport(report: RiskReport, prev: seq<RiskReport>): (r: seq<RiskReport>)
    ensures |r| == Min(|prev| + 1, ReportCap) <= ReportCap
    ensures r[0] == report
    ensures |prev| < ReportCap ==> r == [report] + prev
    ensures |prev| >= ReportCap ==> r == [report] + prev[..ReportCap - 1]
  {
    var r := PushFront(report, prev, ReportCap);
    assert r[1..] == if |prev| < ReportCap then prev else prev[..ReportCap - 1];
    r
  }

  /** One point of the latency chart: a wall-clock label and the latest
      duration of each engine. */
  datatype PerfPoint = PerfPoint(name: string, cerebras: real, nvidia: real)

  /** The field of a point that belongs to engine `e`. */
  function Field(p: PerfPoint, e: Engine): (v: real)
    ensures e == Cerebras ==> v == p.cerebras
    ensures e == NvidiaLocal ==> v == p.nvidia
  {
    if e == Cerebras then p.cerebras else p.nvidia
  }

  /** `prev[prev.length-1]?.<engine> || 0`: the engine's value in the latest
      point, or 0 for an empty series. */
  function LastKnown(prev: seq<PerfPoint>, e: Engine): (v: real)
    ensures prev == [] ==> v == 0.0
    ensures prev != [] && e == Cerebras ==> v == prev[|prev| - 1].cerebras
    ensures prev != [] && e == NvidiaLocal ==> v == prev[|prev| - 1].nvidia
  {
    if prev == [] then 0.0 else Field(prev[|prev| - 1], e)
  }

  /** The point added after a run of `engine` that took `duration`: that
      engine's field gets the duration, the other one repeats its last value. */
  function NextPerfPoint(prev: seq<PerfPoint>, name: string, engine: Engine, duration: real): (p: PerfPoint)
    ensures p.name == name
    ensures Field(p, engine) == duration
    ensures Field(p, Other(engine)) == LastKnown(prev, Other(engine))
  {
    PerfPoint(
      name,
      if engine == Cerebras then duration else LastKnown(prev, Cerebras),
      if engine == NvidiaLocal then duration else LastKnown(prev, NvidiaLocal))
  }

  /** `[...prev, point].slice(-10)`. */
  function PushPerf(prev: seq<PerfPoint>, name: string, engine: Engine, duration: real): (r: seq<PerfPoint>)
    ensures |r| == Min(|prev| + 1, PerfCap) <= PerfCap
    ensures r[|r| - 1] == NextPerfPoint(prev, name, engine, duration)
    ensures forall i :: 0 <= i < |r| - 1 ==> r[i] == prev[|prev| + 1 - |r| + i]
  {
    PushBack(prev, NextPerfPoint(prev, name, engine, duration), PerfCap)
  }

  /** One finished analysis as the latency chart sees it. */
  datatype Run = Run(name: string, engine: Engine, duration: real)

  /** The latency series after a sequence of runs, starting from empty. */
  function Replay(runs: seq<Run>): (series: seq<PerfPoint>)
    decreases |runs|
  {
    if runs == [] then []
    else
      var last := runs[|runs| - 1];
      PushPerf(Replay(runs[..|runs| - 1]), last.name, last.engine, last.duration)
  }

  /** The duration of the most recent run of `e`, or 0 if it never ran. */
  function LatestDuration(runs: seq<Run>, e: Engine): (d: real)
    decreases |runs|
  {
    if runs == [] then 0.0
    else if runs[|runs| - 1].engine == e then runs[|runs| - 1].duration
    else LatestDuration(runs[..|runs| - 1], e)
  }

  /** Whatever the sequence of runs, the series holds at most ten points, one
      per run while it is short, and its last point shows, for each engine,
      the duration of that engine's most recent run: the engine that did not
      run keeps its last known value, and a value is 0 only before the engine
      first ran or after a run that measured 0. */
  lemma {:induction false} ReplayLastKnown(runs: seq<Run>, e: Engine)
    ensures |Replay(runs)| == Min(|runs|, PerfCap)
    ensures LastKnown(Replay(runs), e) == LatestDuration(runs, e)
    decreases |runs|
  {
    if runs != [] {
      var init := runs[..|runs| - 1];
      var last := runs[|runs| - 1];
      ReplayLastKnown(init, e);
      var p := NextPerfPoint(Replay(init), last.name, last.engine, last.duration);
      assert Replay(runs) == PushBack(Replay(init), p, PerfCap);
      if last.engine != e {
        assert e == Other(last.engine);
        assert Field(p, e) == LastKnown(Replay(init), e);
      }
    }
  }
}
