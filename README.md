# SentinelHFT dashboard core, modelled in Dafny

SentinelHFT is a browser dashboard. It simulates a price walk for one of four
instruments. Every few seconds it asks one of two text-generation back ends
for a short risk comment: the Cerebras cloud service or a local Ollama
instance ("NVIDIA local"). This project models the two parts of it that have
logic, without the browser, timers and HTTP:

- the **inference gateway** `callEngine`
  (`services/inferenceService.ts`). It resolves the credential, takes the
  local or the cloud branch, fills in defaults for missing reply fields and
  turns every failure into an ordinary result. With the HTTP exchange
  replaced by an `Outcome` value, it is the total function
  `Inference.CallEngine`.
- the **dashboard session** (`App.tsx`). This is the class
  `Session.Dashboard`, one method per state transition: the asset reset
  effect, the one-second tick, the two halves of an analysis cycle (guard,
  then ingest and cleanup), the engine toggle and the edit of the manual
  key. The methods use pure functions for the list and number updates.
  Those functions live in `Window` (the bounded `slice` windows), `Market`
  (instrument table, initial chart, price step) and `Risk` (threat
  multipliers, score clamp, report history, latency series).

Random draws (`Math.random`) are parameters in `[0, 1)`. The score's draw
`Math.random() * 2` is a parameter in `[0, 2)`. Wall-clock texts are opaque
string parameters, and the time a call took is an integer parameter
`elapsed` in milliseconds. Process configuration (`CEREBRAS_API_KEY`) is the
session constant `envKey`. The client-local key store is the field
`storedKey`. Numbers are exact reals.

How the model reads the code:

- **Analysis cycle.** `runAnalysis` is split where it awaits the gateway.
  `BeginAnalysis` is the guard: it checks the in-flight flag and sets it.
  `FinishAnalysis` is the `try`/`catch`/`finally` after the await; `Ingest` is the part of the `try` that runs once the gateway has returned, with `AppendLatency` as its latency-series setter. Any
  number of `Advance` calls may happen in between, as the one-second timer
  allows. The cycle uses the engine and key it captured at its start (the
  closure's values), while the report history, latency series and score are
  updated from their latest values (the setters' `prev`).
- **Status.** A returned call sets the status to connected exactly when
  the result's confidence is positive (`StatusAfter`). The gateway gives
  confidence 0 on exactly the skipped and failed calls (`CallEngine`),
  since a successful reply's confidence goes through `|| 85` / `|| 99` and
  can never be 0. A reply that reports a negative confidence therefore
  comes back as a success but leaves the status at error.
- **Chart indices.** The chart's indices are always consecutive and end at
  `chartCounter - 1` (`Consecutive`, part of `Dashboard.Valid`). The
  reference price always stays positive. The score always stays in
  [5.0, 99.9].

## Model

| member | source | states |
|---|---|---|
| `Inference.ResolveKey` | services/inferenceService.ts:16-17 | the environment key is used whenever it is set and non-empty, whatever the manual key is; otherwise the manual key is used; a usable key results exactly when one of the two is non-empty |
| `Inference.StringOr` | services/inferenceService.ts:39-40 | the `or`-default of an optional string: the string when it is present and non-empty, the default otherwise; a non-empty default never gives an empty result (also lines 99-100) |
| `Inference.NumberOr` | services/inferenceService.ts:41 | the `or`-default of an optional number: the number when it is present and non-zero, the default otherwise; a non-zero default never gives 0 (also line 101) |
| `Inference.DefaultThreat` | services/inferenceService.ts:40 | the threat level filled in for a missing one is Medium for the local engine (line 40) and Low for the cloud engine (line 100) |
| `Inference.DefaultConfidence` | services/inferenceService.ts:41 | the confidence filled in for a missing or zero one is 85 for the local engine (line 41) and 99 for the cloud engine (line 101) |
| `Inference.CloudTps` | services/inferenceService.ts:106 | with no reported tokens the throughput is 3500; with reported tokens and a non-zero elapsed time, throughput times elapsed seconds equals the tokens; with a zero elapsed time it is 0 |
| `Inference.ZeroStats` | services/inferenceService.ts:55 | the stats of a skipped or failed call name the engine, have zero durations and throughput, and carry no extra metric |
| `Inference.CloudFailureMessage` | services/inferenceService.ts:89-92 | a non-2xx response reports the body's `error.message` when it is present and non-empty, else "Cerebras API Error"; an unreachable endpoint or an unparseable body reports the error's own message |
| `Inference.CallEngine` | services/inferenceService.ts:4-120 | `stats.engine` is always the requested engine; confidence is 0 exactly when the call sent no request or got no reply; a cloud call without a key gives the Low "[CEREBRAS KEY MISSING]" stub whatever the outcome; any local failure gives the fixed "[LOCAL OFFLINE]" text, Critical, 0, zero stats; any cloud failure gives "[CEREBRAS ERROR] " plus the message, Critical, 0, zero stats; on a reply each present field is kept and each missing one defaulted (local "Medium"/85, cloud "Low"/99, fixed analysis texts); placeholder stats are 142/68/14.1 GB for local and 0.8/42 ms with 3500 tps when no tokens are reported for cloud |
| `Inference.EnvKeyOverridesManual` | services/inferenceService.ts:17 | with the environment key set, two calls that differ only in the manual key return the same result |
| `Inference.NoRequestNoEffect` | services/inferenceService.ts:60-67 | a cloud call with no usable key is blind to the exchange: every outcome and elapsed time give the same Low result |
| `Types.Other` | App.tsx:203 | the toggle always gives the other engine |
| `Window.FirstN` | App.tsx:104 | `slice(0, n)` keeps the first min(length, n) elements in order |
| `Window.LastN` | App.tsx:108 | `slice(-n)` for a positive `n` keeps the last min(length, n) elements in order |
| `Window.PushFront` | App.tsx:100-104 | a newest-first window grows by one up to its cap, the new element is at index 0 and the others follow in their old order |
| `Window.PushBack` | App.tsx:106-109 | an oldest-first window with a positive cap grows by one up to its cap, the new element is last and the kept elements are the newest of the old ones, in order |
| `Window.PushFrontAllKeepsNewest` | App.tsx:100-104 | after any number of pushes to the front, the window is the first `cap` of the pushed elements in newest-first order followed by the old window |
| `Window.PushBackAllKeepsNewest` | App.tsx:106-109 | for a positive cap, after any number of pushes to the back, the window is the last `cap` of the old window followed by everything pushed: the oldest are always evicted first |
| `Market.AssetsWellFormed` | App.tsx:38-43 | the table holds exactly NVDA, BTC, AAPL and TSLA, each with a positive base price and a volatility in (0, 1) |
| `Market.Perturb` | App.tsx:82 | one initial point, base + (u − 0.5)·base·0.005 for a draw u in [0, 1), lies within base ± base·0.0025 for a positive base |
| `Market.InitialChart` | App.tsx:80-83 | a reset draws exactly 40 points with indices 0..39, each within base ± base·0.0025 for a positive base |
| `Market.AssetParams` | App.tsx:38-43 | every instrument the session can select has a positive base price and a volatility in (0, 1) |
| `Market.PercentChange` | App.tsx:102 | the tick's change in percent, times the new positive price, is 100 times the change |
| `Market.PriceChange` | App.tsx:95-96 | one tick, last·(u − 0.5)·vol, moves a positive price by less than half of price·vol either way, so the new price stays positive |
| `Market.BtcReset` | App.tsx:40 | a BTC reset starts at 67432.18 and every initial point lies within 168.58045 (0.25%) of it |
| `Risk.ThreatMultiplier` | App.tsx:147 | Critical 12, High 6, Medium 2, Low −4, and 0 for any other level |
| `Risk.NextRiskScore` | App.tsx:148 | the score always lies in [5.0, 99.9] for any previous score; it is prev + r + m when that sum is in range, and the nearer bound otherwise |
| `Risk.CriticalFromInitial` | App.tsx:147-148 | from the initial 44.8, a Critical result gives a score in [56.8, 58.8) |
| `Risk.ThreatDirection` | App.tsx:147-148 | for an in-range score, Critical and High never lower it and Low never raises it |
| `Risk.ScoreStaysInRange` | App.tsx:147-148 | any sequence of results, with any draws and levels, keeps an in-range score in range |
| `Risk.PushReport` | App.tsx:136 | the new report is at index 0, the history never exceeds 30, and the previous reports follow in their old order, with the oldest dropped once 30 are held |
| `Risk.LastKnown` | App.tsx:141-142 | the previous value of an engine: 0 for an empty series, otherwise that engine's field of the last point |
| `Risk.PushPerf` | App.tsx:138-144 | the series grows by one up to 10, its last point is the new point for that run, and the points before it are the newest of the previous ones, in order |
| `Risk.NextPerfPoint` | App.tsx:139-143 | the running engine's field is the new total duration and the other engine's field is the previous last point's value, or 0 for an empty series |
| `Risk.ReplayLastKnown` | App.tsx:138-145 | after any sequence of analyses the series holds min(runs, 10) points, and its last point shows each engine's most recent duration, or 0 if that engine never ran |
| `Session.StatusAfter` | App.tsx:124 | a returned call never leaves the status idle; it is connected if and only if a request was sent, it got a reply, and that reply does not report a non-zero negative confidence; in particular every reply whose confidence is absent or non-negative gives connected |
| `Session.MakeReport` | App.tsx:126-134 | the report carries the cycle's engine and prompt values and the result's analysis, level, confidence and stats |
| `Session.Dashboard.constructor` | App.tsx:46-64 | the initial session: Cerebras, NVDA at its base price, score 44.8, idle, empty histories, counter 40, manual key from the stored one or empty |
| `Session.Dashboard.BeginAnalysis` | App.tsx:116-120 | with a cycle in flight nothing changes and nothing starts; otherwise the flag is set and the cycle captures asset, reference price, score, engine and manual key |
| `Session.Dashboard.FinishAnalysis` | App.tsx:122-153 | the flag is cleared on every path; a thrown call only sets the status to error; a returned one sets the status from the gateway's result for the captured engine and key, prepends the report, appends the latency point and applies the score rule, keeping every invariant |
| `Session.Dashboard.Ingest` | App.tsx:124-148 | with the gateway's result in hand: status connected exactly when its confidence is positive, the report prepended, the latency point appended, the score rule applied, every invariant kept |
| `Session.Dashboard.AppendLatency` | App.tsx:138-145 | the latency series takes the new point for the run and the run is recorded, so the series stays the replay of all runs |
| `Session.Dashboard.ResetAsset` | App.tsx:74-89 | reference price set to the asset's base price, 40-point chart with indices 0..39, counter 40, ticks cleared, then the analysis guard |
| `Session.Dashboard.SelectAsset` | App.tsx:301 | re-selecting the current asset changes nothing; another asset becomes selected and the session is reset to it |
| `Session.Dashboard.Advance` | App.tsx:92-110 | the reference price takes its random step and stays positive; the tick goes to the front of a tape of at most 20; the point goes under the current counter to the back of a chart of at most 60; the counter advances, so indices stay consecutive |
| `Session.PushBackConsecutive` | App.tsx:105-108 | appending the point numbered with the current counter and then advancing the counter keeps the chart's indices consecutive, ending just below the counter |
| `Session.Dashboard.ToggleEngine` | App.tsx:203 | switches to the other engine and changes nothing else (price, ticks and chart untouched) |
| `Session.Dashboard.SetManualKey` | App.tsx:66-71 | the manual key takes the new value, and it is persisted only when non-empty |
| `Session.Dashboard.LatencySeriesLastKnown` | App.tsx:138-145 | in every valid session the latency series holds at most 10 points and its last point shows each engine's most recent duration |

## Left out

- Rendering: all JSX and styling of `App.tsx` and the components `EngineToggle` and `LatencyMonitor`. They only present the state.
- The HTTP exchange and JSON parsing: `fetch`, request bodies, endpoints, model names, `response.json()` and `JSON.parse`. What they produce is the `Outcome` parameter. A reply field of an unexpected JSON type (a number where a string is expected) is not modelled, since `Reply` fields are typed.
- The prompt's wording and its `toFixed(2)` formatting. A `Scenario` records the values the prompt is built from. `callEngine` only forwards the prompt into the request body, so `CallEngine` does not take it.
- Number formatting: `toLocaleString`, `toFixed(4)` and the display precision. A `Tick` holds the exact new price and percentage change as reals. Clock texts (`toLocaleTimeString`, the millisecond suffix) are opaque string parameters.
- `setInterval` scheduling (the 1 s tick and the 4 s analysis timer), effect re-registration, teardown, and the discarding of a response that arrives after teardown. A timer firing is modelled as a call of `Advance` or `BeginAnalysis`.
- React's stale closures and batching. The guard is modelled as a plain check-then-set flag, so at most one cycle is in flight. That holds only under this reading. The 4 s timer (App.tsx:156-159) is re-registered only when the engine, asset or key changes, not when `isProcessing` does. It therefore keeps calling a `runAnalysis` whose `isProcessing` is the value of its last registration, usually `false`. So a second cycle can start while a slow first one is still waiting, and the first one's `finally` then clears the flag while the second is in flight. (a reading of App.tsx:156-159)
- `console.error` logging of cloud failures.
- The separate displayed `price` state. It is always set together with the reference price, so only `lastPrice` is kept.
- The key field's disabled state when an environment key is present, and the settings panel. These are presentation only.
- `EngineConfig` in `types.ts`. Nothing in the core uses it.
- Inference.CloudTps (and so Inference.CallEngine): when token usage is reported but the measured time is 0 ms, JavaScript's division gives Infinity tokens per second. The model gives 0 there, and the throughput figure is illustrative only.
- Risk.ThreatMultiplier: a threat level that names an inherited object property (such as "constructor") would look up a function, and the score would become NaN in JavaScript. The model treats every level outside the table as 0, because reals have no NaN.
- Session.Dashboard.FinishAnalysis: the gateway catches every failure itself, so its awaited call cannot actually reject. The `Threw` completion models the `catch` branch as written: the throw happens before any update, so only the status changes.
- IEEE-754 floating point: scores, prices and durations are exact reals.
