/** The foreign-flow gauge of components/foreign_flow.py: three market proxies (the EIDO
    ETF, the rupiah against the dollar and the IHSG volume) are each turned into a capped
    score, summed, and the total is mapped onto 0..100 with a three-way bias. */
module ForeignFlow {
  import opened Common

  /** What one `yf.download` call gave: an exception, or a daily frame's closes and
      volumes, oldest first. */
  datatype Download = Raised | Frame(close: seq<real>, volume: seq<real>)

  const Bullish := "Bullish (Asing Masuk)"
  const Bearish := "Bearish (Asing Keluar)"
  const Neutral := "Neutral"
  const NotAvailable := "N/A"

  const PriceCap: real := 40.0
  const PriceWeight: real := 5.0
  const VolumeCap: real := 20.0
  const VolumeWeight: real := 0.2
  const VolumeWindow: nat := 20

  /** Percentage change of the EIDO close over the last day; 0 without two closes. */
  function EidoChange(closes: seq<real>): (c: Ext)
    ensures |closes| < 2 ==> c == Fin(0.0)
    ensures |closes| >= 2 && closes[|closes| - 2] > 0.0 ==>
      c.Fin? && (c.x > 0.0 <==> closes[|closes| - 1] > closes[|closes| - 2])
  {
    if |closes| >= 2 then
      var prev, last := closes[|closes| - 2], closes[|closes| - 1];
      assert prev > 0.0 ==> ((last - prev) / prev > 0.0 <==> last > prev) by {
        if prev > 0.0 { PositiveDivisor(last - prev, prev); }
      }
      ScaleExt(FloatDiv(last - prev, prev), 100.0)
    else Fin(0.0)
  }

  /** Percentage strengthening of the rupiah over the last day: positive when USD/IDR
      falls; 0 without two closes. */
  function RupiahChange(closes: seq<real>): (c: Ext)
    ensures |closes| < 2 ==> c == Fin(0.0)
    ensures |closes| >= 2 && closes[|closes| - 2] > 0.0 ==>
      c.Fin? && (c.x > 0.0 <==> closes[|closes| - 1] < closes[|closes| - 2])
  {
    if |closes| >= 2 then
      var prev, last := closes[|closes| - 2], closes[|closes| - 1];
      assert prev > 0.0 ==> ((prev - last) / prev > 0.0 <==> last < prev) by {
        if prev > 0.0 { PositiveDivisor(prev - last, prev); }
      }
      ScaleExt(FloatDiv(prev - last, prev), 100.0)
    else Fin(0.0)
  }

  /** How far the last IHSG volume is above its 20-day mean, in percent; 0 with fewer
      than 20 days or a non-positive mean. */
  function VolumeRatio(volumes: seq<real>): (r: real)
    ensures |volumes| < VolumeWindow ==> r == 0.0
    ensures |volumes| >= VolumeWindow ==>
      var mean := Sum(volumes[|volumes| - VolumeWindow..]) / VolumeWindow as real;
      && (mean <= 0.0 ==> r == 0.0)
      && (mean > 0.0 ==> (r > 0.0 <==> volumes[|volumes| - 1] > mean))
  {
    if |volumes| >= VolumeWindow then
      var mean := Sum(volumes[|volumes| - VolumeWindow..]) / VolumeWindow as real;
      var last := volumes[|volumes| - 1];
      if mean > 0.0 then
        PositiveDivisor(last - mean, mean);
        (last - mean) / mean * 100.0
      else 0.0
    else 0.0
  }

  /** `min(cap, x * k)` for a positive change, `max(-cap, x * k)` otherwise, with Python's
      `min`/`max` on numpy infinities and NaN: +inf reaches the cap, -inf and NaN the
      floor. */
  function CappedScore(change: Ext, k: real, cap: real): (s: real)
    requires k > 0.0 && cap > 0.0
    ensures -cap <= s <= cap
    ensures change.Fin? ==> s == Clamp(-cap, cap, change.x * k)
    ensures change.PosInf? ==> s == cap
    ensures change.NegInf? || change.NaN? ==> s == -cap
    ensures ExtGt(change, 0.0) <==> s > 0.0
  {
    match change
    case Fin(x) =>
      FactorSign(x, k);
      if x > 0.0 then (if cap < x * k then cap else x * k)
      else (if -cap > x * k then -cap else x * k)
    case PosInf => cap
    case NegInf => -cap
    case NaN => -cap
  }

  /** `(total + 100) / 200 * 100`, clamped to [0, 100]. */
  function Norm(total: real): (n: real)
    ensures 0.0 <= n <= 100.0
    ensures -100.0 <= total <= 100.0 ==> n == (total + 100.0) / 2.0
  { Clamp(0.0, 100.0, (total + 100.0) / 200.0 * 100.0) }

  function BiasOf(norm: real): (b: string)
    ensures b == Bullish <==> norm > 60.0
    ensures b == Bearish <==> norm < 40.0
    ensures b == Neutral <==> 40.0 <= norm <= 60.0
  {
    if norm > 60.0 then Bullish
    else if norm < 40.0 then Bearish
    else Neutral
  }

  datatype FlowResult =
    | Flow(norm: real, bias: string, eidoChange: Ext, rupiahChange: Ext, volRatio: real)
    | Unavailable

  function Bias(r: FlowResult): string {
    if r.Flow? then r.bias else NotAvailable
  }

  function Total(eido: Ext, rupiah: Ext, volRatio: real): (t: real)
    ensures -100.0 <= t <= 100.0
  {
    CappedScore(eido, PriceWeight, PriceCap) + CappedScore(rupiah, PriceWeight, PriceCap)
      + CappedScore(Fin(volRatio), VolumeWeight, VolumeCap)
  }

  /** `get_foreign_flow` on the three downloads; any download that raises makes the
      whole gauge unavailable. */
  function GetForeignFlow(eido: Download, usdidr: Download, ihsg: Download): (r: FlowResult)
    ensures r.Unavailable? <==> eido.Raised? || usdidr.Raised? || ihsg.Raised?
    ensures r.Flow? ==>
      && r.eidoChange == EidoChange(eido.close)
      && r.rupiahChange == RupiahChange(usdidr.close)
      && r.volRatio == VolumeRatio(ihsg.volume)
      && 0.0 <= r.norm <= 100.0
      && r.norm == (Total(r.eidoChange, r.rupiahChange, r.volRatio) + 100.0) / 2.0
      && r.bias == BiasOf(r.norm)
  {
    if eido.Raised? || usdidr.Raised? || ihsg.Raised? then Unavailable
    else
      var e, u, v := EidoChange(eido.close), RupiahChange(usdidr.close), VolumeRatio(ihsg.volume);
      var norm := Norm(Total(e, u, v));
      Flow(norm, BiasOf(norm), e, u, v)
  }

  /** The bias reads the summed score directly: bullish above +20, bearish below -20. */
  lemma BiasFollowsTotal(eido: Download, usdidr: Download, ihsg: Download)
    requires GetForeignFlow(eido, usdidr, ihsg).Flow?
    ensures var r := GetForeignFlow(eido, usdidr, ihsg);
      var t := Total(r.eidoChange, r.rupiahChange, r.volRatio);
      && (r.bias == Bullish <==> t > 20.0)
      && (r.bias == Bearish <==> t < -20.0)
      && (r.bias == Neutral <==> -20.0 <= t <= 20.0)
  {}

  /** Frames too short for any change leave every score at 0: the gauge sits at 50 and
      reads neutral. */
  lemma NoDataIsNeutral(eido: Download, usdidr: Download, ihsg: Download)
    requires eido.Frame? && usdidr.Frame? && ihsg.Frame?
    requires |eido.close| < 2 && |usdidr.close| < 2 && |ihsg.volume| < VolumeWindow
    ensures GetForeignFlow(eido, usdidr, ihsg) == Flow(50.0, Neutral, Fin(0.0), Fin(0.0), 0.0)
  {}

  /** Rising EIDO, a strengthening rupiah and above-average IHSG volume can only push
      the gauge above its midpoint. */
  lemma InflowsRaiseTheGauge(eido: Download, usdidr: Download, ihsg: Download)
    requires GetForeignFlow(eido, usdidr, ihsg).Flow?
    requires var r := GetForeignFlow(eido, usdidr, ihsg);
      ExtGt(r.eidoChange, 0.0) && ExtGt(r.rupiahChange, 0.0) && r.volRatio > 0.0
    ensures GetForeignFlow(eido, usdidr, ihsg).norm > 50.0
  {}
}
