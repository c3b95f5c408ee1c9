/** The broker-summary heatmap proxy of components/indo_heatmap.py: four percentage
    factors of the last candle, each squeezed into a 0..100 heat score. */
module Heatmap {
  import opened Common
  import opened Columns
  import opened Rolling

  /** What `_safe_float` may be handed: a float, a NaN, or something `float()` rejects. */
  datatype Scalar = Num(x: real) | NotANumber | NonNumeric

  function OfFloat(x: Option<real>): Scalar {
    match x
    case Some(v) => Num(v)
    case None => NotANumber
  }

  /** `_safe_float`: a usable number, or None for NaN and for anything not convertible. */
  function SafeFloat(s: Scalar): (r: Option<real>)
    ensures r.Some? <==> s.Num?
    ensures s.Num? ==> r == Some(s.x)
    ensures OfFloat(r) == (if s.Num? then s else NotANumber)
  {
    match s
    case Num(x) => Some(x)
    case _ => None
  }

  const Low: real := -80.0
  const High: real := 80.0
  const Neutral: int := 50

  /** `_normalize(v, low, high)`: 50 for a missing value, 0 at or below `low`, 100 at or
      above `high`, and the truncated percentage of the way from `low` to `high` between. */
  function Normalize(v: Scalar, low: real, high: real): (r: int)
    ensures 0 <= r <= 100
    ensures SafeFloat(v).None? ==> r == Neutral
    ensures v.Num? && v.x <= low ==> r == 0
    ensures v.Num? && low < v.x && high <= v.x ==> r == 100
    ensures v.Num? && low < v.x < high ==>
      var share := (v.x - low) / (high - low) * 100.0;
      r as real <= share < r as real + 1.0
  {
    match SafeFloat(v)
    case None => Neutral
    case Some(x) =>
      if x <= low then 0
      else if x >= high then 100
      else
        var share := (x - low) / (high - low) * 100.0;
        assert 0.0 < share < 100.0 by { ShareBounds(x, low, high); }
        Trunc(share)
  }

  lemma ShareBounds(x: real, low: real, high: real)
    requires low < x < high
    ensures 0.0 < (x - low) / (high - low) * 100.0 < 100.0
  {
    var q := (x - low) / (high - low);
    assert q * (high - low) == x - low;
    assert (1.0 - q) * (high - low) == high - x;
    FactorSign(q, high - low);
    FactorSign(1.0 - q, high - low);
  }

  /** A larger value never gets a colder score. */
  lemma {:induction false} NormalizeMonotone(a: real, b: real, low: real, high: real)
    requires a <= b
    ensures Normalize(Num(a), low, high) <= Normalize(Num(b), low, high)
  {
    if low < a && b < high {
      var d := high - low;
      var sa, sb := (a - low) / d * 100.0, (b - low) / d * 100.0;
      assert (a - low) / d <= (b - low) / d by { DivMonotone(a - low, b - low, d); }
      assert sa <= sb;
      TruncMonotone(sa, sb);
    }
  }

  lemma DivMonotone(x: real, y: real, d: real)
    requires x <= y && d > 0.0
    ensures x / d <= y / d
  {
    var p, q := x / d, y / d;
    assert (q - p) * d == y - x;
    FactorSign(q - p, d);
  }

  lemma TruncMonotone(x: real, y: real)
    requires 0.0 <= x <= y
    ensures Trunc(x) <= Trunc(y)
  {}

  /** A zero percentage sits exactly in the middle of the default scale. */
  lemma ZeroIsNeutral()
    ensures Normalize(Num(0.0), Low, High) == Neutral
  {
    assert (0.0 - Low) / (High - Low) * 100.0 == 50.0;
  }

  /** `(x - base) / base * 100` when the baseline is a usable non-zero number, 0 when the
      baseline is zero or NaN; a NaN `x` over a usable baseline stays NaN. */
  function PctFrom(x: Option<real>, base: Option<real>): (r: Option<real>)
    ensures base.None? || base == Some(0.0) ==> r == Some(0.0)
    ensures base.Some? && base.value != 0.0 ==> (r.Some? <==> x.Some?)
    ensures x.Some? && base.Some? && x.value == base.value ==> r == Some(0.0)
    ensures x.Some? && base.Some? && base.value > 0.0 ==> (Gt(r, 0.0) <==> x.value > base.value)
  {
    if base.Some? && base.value != 0.0 then
      if x.Some? then
        assert base.value > 0.0 ==> ((x.value - base.value) / base.value > 0.0 <==> x.value - base.value > 0.0) by {
          if base.value > 0.0 { PositiveDivisor(x.value - base.value, base.value); }
        }
        Some((x.value - base.value) / base.value * 100.0)
      else None
    else Some(0.0)
  }

  // ---------------------------------------------------------------------------
  // VWAP
  // ---------------------------------------------------------------------------

  /** The running sum `cumsum()` reaches at the end, NaN entries skipped. */
  function SumDefined(xs: seq<Option<real>>): real
  {
    if |xs| == 0 then 0.0
    else SumDefined(xs[..|xs| - 1]) + (if xs[|xs| - 1].Some? then xs[|xs| - 1].value else 0.0)
  }

  /** The last entry of `xs.cumsum()`: NaN where the last value is NaN. */
  function CumSumLast(xs: seq<Option<real>>): (r: Option<real>)
    requires |xs| > 0
    ensures r.Some? <==> xs[|xs| - 1].Some?
  { if xs[|xs| - 1].Some? then Some(SumDefined(xs)) else None }

  function Mul(a: Option<real>, b: Option<real>): (r: Option<real>)
    ensures r.Some? <==> a.Some? && b.Some?
  { if a.Some? && b.Some? then Some(a.value * b.value) else None }

  function Products(closes: seq<Option<real>>, volumes: seq<Option<real>>): (p: seq<Option<real>>)
    requires |closes| == |volumes|
    ensures |p| == |closes| && forall i :: 0 <= i < |p| ==> p[i] == Mul(closes[i], volumes[i])
  { seq(|closes|, i requires 0 <= i < |closes| => Mul(closes[i], volumes[i])) }

  /** The last VWAP: cumulative price·volume over cumulative volume, NaN when either
      running sum is NaN at the last row or the cumulative volume is zero. */
  function VwapLast(closes: seq<Option<real>>, volumes: seq<Option<real>>): (r: Option<real>)
    requires |closes| == |volumes| > 0
    ensures r.Some? ==> closes[|closes| - 1].Some? && volumes[|volumes| - 1].Some?
    ensures r.Some? ==> SumDefined(volumes) != 0.0
    ensures closes[|closes| - 1].Some? && volumes[|volumes| - 1].Some? && SumDefined(volumes) != 0.0 ==>
      r == Some(SumDefined(Products(closes, volumes)) / SumDefined(volumes))
  {
    var vc := CumSumLast(volumes);
    var pv := CumSumLast(Products(closes, volumes));
    if vc.Some? && pv.Some? && vc.value != 0.0 then Some(pv.value / vc.value) else None
  }

  /** With every value present and volumes non-negative, the price·volume sum lies
      between the smallest and largest close, weighted by the total volume. */
  lemma {:induction false} WeightedSumBounds(closes: seq<Option<real>>, volumes: seq<Option<real>>, lo: real, hi: real)
    requires |closes| == |volumes|
    requires forall i :: 0 <= i < |closes| ==> closes[i].Some? && lo <= closes[i].value <= hi
    requires forall i :: 0 <= i < |volumes| ==> volumes[i].Some? && volumes[i].value >= 0.0
    ensures lo * SumDefined(volumes) <= SumDefined(Products(closes, volumes)) <= hi * SumDefined(volumes)
  {
    var n := |closes|;
    if n > 0 {
      var cs, vs := closes[..n - 1], volumes[..n - 1];
      WeightedSumBounds(cs, vs, lo, hi);
      assert Products(closes, volumes)[..n - 1] == Products(cs, vs);
      var c, v := closes[n - 1].value, volumes[n - 1].value;
      ScaleBetween(c, v, lo, hi);
    }
  }

  lemma ScaleBetween(c: real, v: real, lo: real, hi: real)
    requires lo <= c <= hi && v >= 0.0
    ensures lo * v <= c * v <= hi * v
  {
    assert c * v - lo * v == (c - lo) * v;
    assert hi * v - c * v == (hi - c) * v;
  }

  /** With every value present and positive total volume, the VWAP lies within the
      range of the closes. */
  lemma VwapWithinCloses(closes: seq<Option<real>>, volumes: seq<Option<real>>, lo: real, hi: real)
    requires |closes| == |volumes| > 0
    requires forall i :: 0 <= i < |closes| ==> closes[i].Some? && lo <= closes[i].value <= hi
    requires forall i :: 0 <= i < |volumes| ==> volumes[i].Some? && volumes[i].value >= 0.0
    requires SumDefined(volumes) > 0.0
    ensures VwapLast(closes, volumes).Some?
    ensures lo <= VwapLast(closes, volumes).value <= hi
  {
    WeightedSumBounds(closes, volumes, lo, hi);
    var s, p := SumDefined(volumes), SumDefined(Products(closes, volumes));
    var w := p / s;
    assert w * s == p;
    assert (w - lo) * s == p - lo * s;
    assert (hi - w) * s == hi * s - p;
    FactorSign(w - lo, s);
    FactorSign(hi - w, s);
  }

  // ---------------------------------------------------------------------------
  // The four factors
  // ---------------------------------------------------------------------------

  datatype HeatFactors = HeatFactors(volumeSpike: int, volatility: int, bodyStrength: int,
                                     vwapDistance: int)

  const AllNeutral := HeatFactors(Neutral, Neutral, Neutral, Neutral)

  predicate InRange(h: HeatFactors) {
    && 0 <= h.volumeSpike <= 100 && 0 <= h.volatility <= 100
    && 0 <= h.bodyStrength <= 100 && 0 <= h.vwapDistance <= 100
  }

  /** The four raw percentages before normalisation. */
  datatype Percentages = Percentages(volSpike: Option<real>, volExpansion: Option<real>,
                                     body: Option<real>, vwapDistance: Option<real>)

  function PercentagesOf(bars: seq<Bar>): (p: Percentages)
    requires |bars| > 0
    ensures var last := bars[|bars| - 1];
      && p.volSpike == PctFrom(last.volume, RollingMeanLast(Volumes(bars), 20))
      && p.volExpansion == PctFrom(Sub(last.high, last.low), RollingMeanLast(Ranges(bars), 20))
      && p.body == BodyPct(last.open, last.close)
      && p.vwapDistance == PctFrom(last.close, VwapLast(Closes(bars), Volumes(bars)))
  {
    var last := bars[|bars| - 1];
    var vols := Volumes(bars);
    Percentages(
      PctFrom(last.volume, RollingMeanLast(vols, 20)),
      PctFrom(Sub(last.high, last.low), RollingMeanLast(Ranges(bars), 20)),
      BodyPct(last.open, last.close),
      PctFrom(last.close, VwapLast(Closes(bars), vols)))
  }

  function Heat(p: Percentages): (h: HeatFactors)
    ensures InRange(h)
    ensures p.volSpike.None? ==> h.volumeSpike == Neutral
    ensures p.volExpansion.None? ==> h.volatility == Neutral
    ensures p.body.None? ==> h.bodyStrength == Neutral
    ensures p.vwapDistance.None? ==> h.vwapDistance == Neutral
  {
    HeatFactors(Normalize(OfFloat(p.volSpike), Low, High), Normalize(OfFloat(p.volExpansion), Low, High),
                Normalize(OfFloat(p.body), Low, High), Normalize(OfFloat(p.vwapDistance), Low, High))
  }

  predicate HasAllColumns(t: Table) {
    forall f :: f in Fields ==> StdName(f) in t.columns
  }

  /** `compute_heatmap_factors`: every factor 50 for fewer than 25 rows or a missing
      column, otherwise the normalised percentages of the last candle. */
  function ComputeHeatmapFactors(t: Table): (h: HeatFactors)
    ensures InRange(h)
    ensures |t.rows| < 25 || !HasAllColumns(t) ==> h == AllNeutral
    ensures |t.rows| >= 25 && HasAllColumns(t) ==>
      h == Heat(PercentagesOf(ReadBars(t, ExactColumns(t.columns))))
  {
    if |t.rows| < 25 || !HasAllColumns(t) then AllNeutral
    else Heat(PercentagesOf(ReadBars(t, ExactColumns(t.columns))))
  }

  /** A last volume equal to its 20-bar average, a range equal to its average, a doji
      and a close on the VWAP all score 50. */
  lemma AverageCandleIsNeutral(bars: seq<Bar>)
    requires |bars| > 0
    requires var last := bars[|bars| - 1];
      && last.volume.Some? && RollingMeanLast(Volumes(bars), 20) == last.volume
      && Sub(last.high, last.low).Some? && RollingMeanLast(Ranges(bars), 20) == Sub(last.high, last.low)
      && last.open.Some? && last.open == last.close
      && VwapLast(Closes(bars), Volumes(bars)) == last.close
    ensures Heat(PercentagesOf(bars)) == AllNeutral
  {
    var last := bars[|bars| - 1];
    var p := PercentagesOf(bars);
    assert p.body == Some(0.0) by {
      if last.open.value != 0.0 {
        assert (last.close.value - last.open.value) / last.open.value * 100.0 == 0.0;
      }
    }
    ZeroIsNeutral();
  }
}
