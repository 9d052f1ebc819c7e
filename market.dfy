/** The price simulator of the dashboard: the instrument table, the initial
    chart a reset draws, and the random walk of one tick. Random draws are
    parameters in `[0, 1)`; number formatting is not modelled. */
module Market {
  import opened Types

  /** Reference data of one instrument. */
  datatype Asset = Asset(name: string, basePrice: real, vol: real)

  /** One point of the price chart: a running index and a price. */
  datatype ChartPoint = ChartPoint(time: int, value: real)

  /** One entry of the tick tape: the new price, its change in percent of the
      new price, and the wall-clock label of the tick. */
  datatype Tick = Tick(price: real, change: real, time: string)

  /** The four instruments the dashboard offers. */
  const Assets: map<string, Asset> := map[
    "NVDA" := Asset("NVIDIA Corporation", 143.44, 0.0004),
    "BTC" := Asset("Bitcoin / USD", 67432.18, 0.0012),
    "AAPL" := Asset("Apple Inc.", 178.92, 0.0002),
    "TSLA" := Asset("Tesla, Inc.", 248.76, 0.0008)
  ]

  const ChartCap := 60
  const TickCap := 20
  const InitialPoints := 40

  predicate IsDraw(u: real) { 0.0 <= u < 1.0 }

  /** Every instrument has a positive base price and a volatility below one,
      which keeps every simulated price positive. */
  lemma AssetsWellFormed()
    ensures Assets.Keys == {"NVDA", "BTC", "AAPL", "TSLA"}
    ensures forall s :: s in Assets ==> Assets[s].basePrice > 0.0 && 0.0 < Assets[s].vol < 1.0
  {
  }

  /** What the simulation needs of the instrument it runs on. */
  lemma AssetParams(symbol: string)
    requires symbol in Assets
    ensures Assets[symbol].basePrice > 0.0 && 0.0 < Assets[symbol].vol < 1.0
  {
    AssetsWellFormed();
  }

  /** For a draw `u`, `(u - 0.5) * w` stays within half of `w` either way. */
  lemma ScaledDraw(u: real, w: real)
    requires IsDraw(u) && w > 0.0
    ensures -(w / 2.0) <= (u - 0.5) * w < w / 2.0
  {
    var d := u - 0.5;
    assert -0.5 <= d < 0.5;
    if d >= 0.0 {
      assert d * w < 0.5 * w;
    } else {
      assert d * w >= -0.5 * w;
    }
  }

  /** One initial chart price: the base perturbed by the centred draw times
      half a percent of the base, so within a quarter of a percent of a
      positive base either way. */
  function Perturb(base: real, u: real): (p: real)
    ensures base > 0.0 && IsDraw(u) ==> base - base * 0.0025 <= p < base + base * 0.0025
  {
    var w := base * 0.005;
    if base > 0.0 && IsDraw(u) then
      ScaledDraw(u, w);
      assert w / 2.0 == base * 0.0025;
      base + (u - 0.5) * w
    else
      base + (u - 0.5) * w
  }

  /** The 40 points a reset draws: indices 0..39, each price the base
      perturbed by at most a quarter of a percent of the base. */
  function InitialChart(base: real, noise: seq<real>): (chart: seq<ChartPoint>)
    requires |noise| == InitialPoints
    requires forall i :: 0 <= i < |noise| ==> IsDraw(noise[i])
    ensures |chart| == InitialPoints
    ensures forall i :: 0 <= i < |chart| ==> chart[i].time == i
    ensures base > 0.0 ==>
              forall i :: 0 <= i < |chart| ==>
                base - base * 0.0025 <= chart[i].value < base + base * 0.0025
  {
    var chart := seq(InitialPoints, i requires 0 <= i < InitialPoints => ChartPoint(i, Perturb(base, noise[i])));
    if base > 0.0 then
      assert forall i :: 0 <= i < |chart| ==>
               base - base * 0.0025 <= chart[i].value < base + base * 0.0025 by {
        forall i | 0 <= i < |chart|
          ensures base - base * 0.0025 <= chart[i].value < base + base * 0.0025
        {
          assert chart[i].value == Perturb(base, noise[i]);
        }
      }
      chart
    else
      chart
  }

  /** The change one tick applies: the reference price times the centred
      draw times the instrument's volatility. For a positive price and a
      volatility below 1 it stays under half of price times volatility either
      way, and so never drives the price to zero or below. */
  function PriceChange(last: real, u: real, vol: real): (change: real)
    ensures last > 0.0 && 0.0 < vol < 1.0 && IsDraw(u) ==>
              -(last * vol / 2.0) <= change < last * vol / 2.0 && last + change > 0.0
  {
    var w := last * vol;
    if last > 0.0 && 0.0 < vol < 1.0 && IsDraw(u) then
      ScaledDraw(u, w);
      assert last - w == last * (1.0 - vol) > 0.0;
      assert last * (u - 0.5) * vol == (u - 0.5) * w;
      last * (u - 0.5) * vol
    else
      last * (u - 0.5) * vol
  }

  /** The change of a tick in percent of the new price. */
  function PercentChange(change: real, price: real): (pct: real)
    requires price > 0.0
    ensures pct * price == change * 100.0
  {
    change / price * 100.0
  }

  /** A BTC reset starts at its base price of 67432.18 and every initial point
      lies within 0.25% of it. */
  lemma BtcReset(noise: seq<real>)
    requires |noise| == InitialPoints
    requires forall i :: 0 <= i < |noise| ==> IsDraw(noise[i])
    ensures "BTC" in Assets && Assets["BTC"].basePrice == 67432.18
    ensures forall i :: 0 <= i < InitialPoints ==>
              67432.18 - 168.58045 <= InitialChart(67432.18, noise)[i].value < 67432.18 + 168.58045
  {
    var c := InitialChart(67432.18, noise);
    assert 67432.18 * 0.0025 == 168.58045;
  }
}
