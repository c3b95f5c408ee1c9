/** The technical indicators of components/indicators.py: the column normaliser with
    its adjusted-close fallback, the whole-series recurrences (EMA, SMA, Wilder RSI,
    MACD, Bollinger bands, stochastic %K/%D) and the rule-based trend overlay used
    when the predictor cannot answer. */
module Indicators {
  import opened Common
  import opened Columns
  import opened Rolling
  import AiPredictor

  // ---------------------------------------------------------------------------
  // Column normalisation
  // ---------------------------------------------------------------------------

  const AdjCloseAliases: seq<string> := ["adjclose", "adj_close"]

  /** The adjusted-close fallback applied to a resolved map: when nothing resolved to
      Close, the first adjusted-close label present becomes Close. */
  function WithAdjClose(m: map<Field, nat>, columns: seq<string>): (r: map<Field, nat>)
    requires forall g :: g in m ==> m[g] < |columns|
    ensures forall g :: g in r ==> r[g] < |columns|
    ensures forall f :: f in m ==> f in r && r[f] == m[f]
    ensures forall f :: f != Close ==> (f in r <==> f in m)
    ensures Close !in m ==>
      (Close in r <==> LastLower(columns, "adjclose").Some? || LastLower(columns, "adj_close").Some?)
    ensures Close !in m && LastLower(columns, "adjclose").Some? ==> r[Close] == LastLower(columns, "adjclose").value
    ensures Close !in m && LastLower(columns, "adjclose").None? && LastLower(columns, "adj_close").Some? ==>
      r[Close] == LastLower(columns, "adj_close").value
  {
    if Close in m then m
    else match FirstAliasPos(columns, AdjCloseAliases)
      case None =>
        assert AdjCloseAliases[0] == "adjclose" && AdjCloseAliases[1] == "adj_close";
        m
      case Some(k) => m[Close := LastLower(columns, AdjCloseAliases[k]).value]
  }

  /** The rename map of the indicator normaliser. */
  function IndicatorColumnMap(columns: seq<string>): (m: map<Field, nat>)
    ensures forall g :: g in m ==> m[g] < |columns|
  { WithAdjClose(ColumnMap(columns), columns) }

  /** The normaliser's loops: the alias walk, then the adjusted-close walk. */
  method ResolveIndicatorColumns(columns: seq<string>) returns (m: map<Field, nat>)
    ensures m == IndicatorColumnMap(columns)
  {
    m := ResolveColumns(columns);
    if Close !in m {
      var alt := FindAlias(columns, AdjCloseAliases);
      if alt.Some? {
        m := m[Close := alt.value];
      }
    }
  }

  /** `_normalize_ohlcv_cols`: every field must resolve, then rows without open or
      close are dropped. */
  function NormalizeOhlcvCols(t: Table): (r: Normalized)
    ensures r.MissingColumn? <==> exists f :: f in Fields && f !in IndicatorColumnMap(t.columns)
    ensures r.Candles? ==> r.bars == KeepWhere(ReadBars(t, IndicatorColumnMap(t.columns)), HasOpenClose)
    ensures r.Candles? ==> forall i :: 0 <= i < |r.bars| ==> HasOpenClose(r.bars[i])
  { RequireAllThenDrop(t, IndicatorColumnMap(t.columns)) }

  // ---------------------------------------------------------------------------
  // Exponential weighting (`ewm(..., adjust=False)`)
  // ---------------------------------------------------------------------------

  /** The smoothing factor of `span=period`. */
  function Alpha(period: nat): (a: real)
    requires period >= 1
    ensures 0.0 < a <= 1.0
    ensures period == 1 ==> a == 1.0
  { 2.0 / (period as real + 1.0) }

  /** The last value of the recursion y0 = x0, y_t = (1 - a) y_{t-1} + a x_t. */
  function EwmLast(xs: seq<real>, a: real): real
    requires |xs| > 0
    decreases |xs|
  {
    if |xs| == 1 then xs[0]
    else (1.0 - a) * EwmLast(xs[..|xs| - 1], a) + a * xs[|xs| - 1]
  }

  function Ewm(xs: seq<real>, a: real): (r: seq<real>)
    ensures |r| == |xs|
    ensures forall i :: 0 <= i < |xs| ==> r[i] == EwmLast(xs[..i + 1], a)
    ensures |xs| > 0 ==> r[0] == xs[0]
    ensures forall i :: 0 < i < |xs| ==> r[i] == (1.0 - a) * r[i - 1] + a * xs[i]
  {
    var r := seq(|xs|, i requires 0 <= i < |xs| => EwmLast(xs[..i + 1], a));
    assert forall i :: 0 < i < |xs| ==> xs[..i + 1][..i] == xs[..i];
    r
  }

  /** `EMA(series, period)` */
  function Ema(xs: seq<real>, period: nat): (r: seq<real>)
    requires period >= 1
    ensures |r| == |xs|
    ensures |xs| > 0 ==> r[0] == xs[0]
    ensures forall i :: 0 < i < |xs| ==>
      r[i] == (1.0 - 2.0 / (period as real + 1.0)) * r[i - 1] + 2.0 / (period as real + 1.0) * xs[i]
  { Ewm(xs, Alpha(period)) }

  lemma MixBounds(y: real, x: real, a: real, lo: real, hi: real)
    requires 0.0 <= a <= 1.0 && lo <= y <= hi && lo <= x <= hi
    ensures lo <= (1.0 - a) * y + a * x <= hi
  {
    assert (1.0 - a) * y + a * x - lo == (1.0 - a) * (y - lo) + a * (x - lo);
    assert hi - ((1.0 - a) * y + a * x) == (1.0 - a) * (hi - y) + a * (hi - x);
    MulNonNegative(1.0 - a, y - lo);
    MulNonNegative(a, x - lo);
    MulNonNegative(1.0 - a, hi - y);
    MulNonNegative(a, hi - x);
  }

  /** An exponential average never leaves the range of its inputs. */
  lemma {:induction false} EwmBounded(xs: seq<real>, a: real, lo: real, hi: real)
    requires |xs| > 0 && 0.0 <= a <= 1.0
    requires forall i :: 0 <= i < |xs| ==> lo <= xs[i] <= hi
    ensures lo <= EwmLast(xs, a) <= hi
    decreases |xs|
  {
    if |xs| > 1 {
      EwmBounded(xs[..|xs| - 1], a, lo, hi);
      MixBounds(EwmLast(xs[..|xs| - 1], a), xs[|xs| - 1], a, lo, hi);
    }
  }

  /** Strictly positive inputs keep a strictly positive average. */
  lemma {:induction false} EwmPositive(xs: seq<real>, a: real)
    requires |xs| > 0 && 0.0 < a <= 1.0
    requires forall i :: 0 <= i < |xs| ==> xs[i] > 0.0
    ensures EwmLast(xs, a) > 0.0
    decreases |xs|
  {
    if |xs| > 1 {
      var y := EwmLast(xs[..|xs| - 1], a);
      EwmPositive(xs[..|xs| - 1], a);
      MulNonNegative(1.0 - a, y);
      MulPositive(a, xs[|xs| - 1]);
    }
  }

  /** A constant series is its own EMA. */
  lemma EmaOfConstant(xs: seq<real>, period: nat, c: real)
    requires period >= 1
    requires forall i :: 0 <= i < |xs| ==> xs[i] == c
    ensures Ema(xs, period) == xs
  {
    forall i | 0 <= i < |xs| ensures Ema(xs, period)[i] == xs[i] {
      EwmBounded(xs[..i + 1], Alpha(period), c, c);
    }
  }

  /** With span 1 the EMA is the series itself. */
  lemma EmaSpanOne(xs: seq<real>)
    ensures Ema(xs, 1) == xs
  {
    forall i | 0 <= i < |xs| ensures Ema(xs, 1)[i] == xs[i] {
      var p := xs[..i + 1];
      if |p| > 1 {
        assert EwmLast(p, 1.0) == 0.0 * EwmLast(p[..|p| - 1], 1.0) + 1.0 * p[|p| - 1];
      }
    }
  }

  // ---------------------------------------------------------------------------
  // Simple moving average
  // ---------------------------------------------------------------------------

  /** `SMA(series, period)`: undefined until the window fills. */
  function Sma(xs: seq<real>, period: nat): (r: seq<Option<real>>)
    requires period >= 1
    ensures |r| == |xs|
    ensures forall i :: 0 <= i < |xs| ==> (r[i].Some? <==> i + 1 >= period)
    ensures forall i :: 0 <= i < |xs| && i + 1 >= period ==>
      r[i] == Some(Sum(xs[i + 1 - period..i + 1]) / period as real)
  {
    LiftWindows(xs, period);
    seq(|xs|, i requires 0 <= i < |xs| => RollingMeanAt(Lift(xs), period, i))
  }

  lemma LiftWindows(xs: seq<real>, period: nat)
    requires period >= 1
    ensures forall i :: 0 <= i < |xs| && i + 1 >= period ==>
      RollingMeanAt(Lift(xs), period, i) == Some(Sum(xs[i + 1 - period..i + 1]) / period as real)
  {
    forall i | 0 <= i < |xs| && i + 1 >= period
      ensures RollingMeanAt(Lift(xs), period, i) == Some(Sum(xs[i + 1 - period..i + 1]) / period as real)
    {
      var w := Lift(xs)[i + 1 - period..i + 1];
      assert AllSome(w);
      assert Values(w) == xs[i + 1 - period..i + 1];
    }
  }

  /** A window mean stays within the window's range. */
  lemma SmaBounded(xs: seq<real>, period: nat, lo: real, hi: real, i: nat)
    requires period >= 1 && i < |xs| && i + 1 >= period
    requires forall k :: 0 <= k < |xs| ==> lo <= xs[k] <= hi
    ensures lo <= Sma(xs, period)[i].value <= hi
  {
    var w := xs[i + 1 - period..i + 1];
    SumBounds(w, lo, hi);
    QuotientBetween(Sum(w), period as real, lo, hi);
  }

  // ---------------------------------------------------------------------------
  // Wilder RSI
  // ---------------------------------------------------------------------------

  /** `series.diff()` without its undefined first entry: entry k is x[k+1] - x[k]. */
  function Deltas(xs: seq<real>): (d: seq<real>)
    requires |xs| > 0
    ensures |d| == |xs| - 1
    ensures forall k :: 0 <= k < |d| ==> d[k] == xs[k + 1] - xs[k]
  { seq(|xs| - 1, k requires 0 <= k < |xs| - 1 => xs[k + 1] - xs[k]) }

  function Ups(d: seq<real>): (u: seq<real>)
    ensures |u| == |d| && forall k :: 0 <= k < |d| ==> u[k] >= 0.0 && (u[k] > 0.0 <==> d[k] > 0.0)
  { seq(|d|, k requires 0 <= k < |d| => if d[k] > 0.0 then d[k] else 0.0) }

  function Downs(d: seq<real>): (u: seq<real>)
    ensures |u| == |d| && forall k :: 0 <= k < |d| ==> u[k] >= 0.0 && (u[k] > 0.0 <==> d[k] < 0.0)
  { seq(|d|, k requires 0 <= k < |d| => if d[k] < 0.0 then -d[k] else 0.0) }

  /** The Wilder smoothing factor `1 / period`. */
  function WilderAlpha(period: nat): (a: real)
    requires period >= 1
    ensures 0.0 < a <= 1.0
  { 1.0 / period as real }

  /** The RSI at row i >= 1 from the first i price changes. */
  function RsiAt(d: seq<real>, a: real, i: nat): (r: Option<real>)
    requires 0.0 < a <= 1.0 && 1 <= i <= |d|
    ensures r.Some? ==> 0.0 <= r.value <= 100.0
  {
    var u := Ups(d)[..i];
    var v := Downs(d)[..i];
    EwmBounded(u, a, 0.0, MaxOf(u));
    EwmBounded(v, a, 0.0, MaxOf(v));
    RsiOf(Some(EwmLast(u, a)), Some(EwmLast(v, a)))
  }

  /** `RSI(series, period)`: the first entry is undefined; afterwards the Wilder
      averages (`alpha = 1/period`) of the gains and losses so far. */
  function Rsi(xs: seq<real>, period: nat): (r: seq<Option<real>>)
    requires period >= 1
    ensures |r| == |xs|
    ensures |xs| > 0 ==> r[0].None?
    ensures forall i :: 1 <= i < |xs| ==> r[i] == RsiAt(Deltas(xs), WilderAlpha(period), i)
    ensures forall i :: 0 <= i < |xs| && r[i].Some? ==> 0.0 <= r[i].value <= 100.0
  {
    if |xs| == 0 then []
    else
      var d := Deltas(xs);
      var a := WilderAlpha(period);
      seq(|xs|, i requires 0 <= i < |xs| => if i == 0 then None else RsiAt(d, a, i))
  }

  function MaxOf(xs: seq<real>): (m: real)
    requires |xs| > 0
    ensures m in xs
    ensures forall k :: 0 <= k < |xs| ==> xs[k] <= m
    decreases |xs|
  {
    if |xs| == 1 then xs[0]
    else var m := MaxOf(xs[..|xs| - 1]); if xs[|xs| - 1] > m then xs[|xs| - 1] else m
  }

  function MinOf(xs: seq<real>): (m: real)
    requires |xs| > 0
    ensures m in xs
    ensures forall k :: 0 <= k < |xs| ==> m <= xs[k]
    decreases |xs|
  {
    if |xs| == 1 then xs[0]
    else var m := MinOf(xs[..|xs| - 1]); if xs[|xs| - 1] < m then xs[|xs| - 1] else m
  }

  /** A series that only rises has RSI 100 from its second entry on; one that only
      falls has RSI 0. */
  lemma RsiOfMonotone(xs: seq<real>, period: nat, i: nat)
    requires period >= 1 && 1 <= i < |xs|
    ensures (forall k :: 0 <= k < |xs| - 1 ==> xs[k] < xs[k + 1]) ==> Rsi(xs, period)[i] == Some(100.0)
    ensures (forall k :: 0 <= k < |xs| - 1 ==> xs[k] > xs[k + 1]) ==> Rsi(xs, period)[i] == Some(0.0)
  {
    var d := Deltas(xs);
    var a := WilderAlpha(period);
    var u := Ups(d)[..i];
    var v := Downs(d)[..i];
    assert Rsi(xs, period)[i] == RsiAt(d, a, i);
    if forall k :: 0 <= k < |xs| - 1 ==> xs[k] < xs[k + 1] {
      forall k | 0 <= k < i ensures u[k] > 0.0 && v[k] == 0.0 {
        assert d[k] == xs[k + 1] - xs[k];
      }
      EwmPositive(u, a);
      EwmBounded(v, a, 0.0, 0.0);
    }
    if forall k :: 0 <= k < |xs| - 1 ==> xs[k] > xs[k + 1] {
      forall k | 0 <= k < i ensures v[k] > 0.0 && u[k] == 0.0 {
        assert d[k] == xs[k + 1] - xs[k];
      }
      EwmPositive(v, a);
      EwmBounded(u, a, 0.0, 0.0);
    }
  }

  // ---------------------------------------------------------------------------
  // MACD
  // ---------------------------------------------------------------------------

  datatype MacdLines = MacdLines(macd: seq<real>, signal: seq<real>, hist: seq<real>)

  /** EMA12 - EMA26, its EMA9 signal, and the histogram between them. */
  function Macd(xs: seq<real>): (r: MacdLines)
    ensures |r.macd| == |xs| && |r.signal| == |xs| && |r.hist| == |xs|
    ensures forall i :: 0 <= i < |xs| ==> (r.hist[i] > 0.0 <==> r.macd[i] > r.signal[i])
  {
    var fast := Ema(xs, 12);
    var slow := Ema(xs, 26);
    var line := seq(|xs|, i requires 0 <= i < |xs| => fast[i] - slow[i]);
    var signal := Ema(line, 9);
    MacdLines(line, signal, seq(|xs|, i requires 0 <= i < |xs| => line[i] - signal[i]))
  }

  /** A flat price has a flat, zero MACD. */
  lemma MacdOfConstant(xs: seq<real>, c: real)
    requires forall i :: 0 <= i < |xs| ==> xs[i] == c
    ensures forall i :: 0 <= i < |xs| ==> Macd(xs).macd[i] == 0.0 && Macd(xs).signal[i] == 0.0 && Macd(xs).hist[i] == 0.0
  {
    EmaOfConstant(xs, 12, c);
    EmaOfConstant(xs, 26, c);
    var line := Macd(xs).macd;
    assert forall i :: 0 <= i < |xs| ==> line[i] == 0.0;
    EmaOfConstant(line, 9, 0.0);
  }

  // ---------------------------------------------------------------------------
  // Bollinger bands
  // ---------------------------------------------------------------------------

  datatype Bands = Bands(upper: seq<Option<real>>, mid: seq<Option<real>>, lower: seq<Option<real>>)

  /** One band entry: the mean shifted by `d` standard deviations, NaN if either is. */
  function Band(mean: Option<real>, std: Option<real>, d: real): (r: Option<real>)
    ensures r.Some? <==> mean.Some? && std.Some?
  {
    if mean.Some? && std.Some? then Some(mean.value + d * std.value) else None
  }

  /** `sma -/+ std_mul * std`. The rolling standard deviation is supplied: it is the
      square root of a sample variance, so only its sign is relied on. */
  function Bollinger(xs: seq<real>, period: nat, stdMul: real, stds: seq<Option<real>>): (b: Bands)
    requires period >= 1 && |stds| == |xs|
    ensures b.mid == Sma(xs, period)
    ensures |b.upper| == |xs| && |b.lower| == |xs|
    ensures forall i :: 0 <= i < |xs| ==>
      (b.upper[i].Some? <==> b.mid[i].Some? && stds[i].Some?) && (b.lower[i].Some? <==> b.upper[i].Some?)
    ensures forall i :: 0 <= i < |xs| && b.upper[i].Some? ==>
      b.upper[i].value - b.mid[i].value == b.mid[i].value - b.lower[i].value
  {
    var mid := Sma(xs, period);
    Bands(seq(|xs|, i requires 0 <= i < |xs| => Band(mid[i], stds[i], stdMul)),
          mid,
          seq(|xs|, i requires 0 <= i < |xs| => Band(mid[i], stds[i], -stdMul)))
  }

  /** With a non-negative multiplier and a non-negative deviation the lower band never
      rises above the middle one and the upper band never falls below it. */
  lemma BollingerOrdered(xs: seq<real>, period: nat, stdMul: real, stds: seq<Option<real>>, i: nat)
    requires period >= 1 && |stds| == |xs| && i < |xs| && stdMul >= 0.0
    requires NonNegative(stds[i])
    requires Bollinger(xs, period, stdMul, stds).upper[i].Some?
    ensures var b := Bollinger(xs, period, stdMul, stds);
      b.lower[i].value <= b.mid[i].value <= b.upper[i].value
  {
    var b := Bollinger(xs, period, stdMul, stds);
    MulNonNegative(stdMul, stds[i].value);
    assert b.upper[i] == Band(b.mid[i], stds[i], stdMul);
    assert b.lower[i] == Band(b.mid[i], stds[i], -stdMul);
  }

  // ---------------------------------------------------------------------------
  // Stochastic oscillator
  // ---------------------------------------------------------------------------

  /** `rolling(w).min()` at row t: undefined until the window fills or if it holds NaN. */
  function RollingMinAt(xs: seq<Option<real>>, w: nat, t: nat): (r: Option<real>)
    requires 1 <= w && t < |xs|
    ensures r.Some? <==> w <= t + 1 && AllSome(xs[t + 1 - w..t + 1])
    ensures r.Some? ==> forall k :: t + 1 - w <= k <= t ==> r.value <= xs[k].value
  {
    if t + 1 < w || !AllSome(xs[t + 1 - w..t + 1]) then None
    else
      var vs := Values(xs[t + 1 - w..t + 1]);
      assert forall k :: t + 1 - w <= k <= t ==> vs[k - (t + 1 - w)] == xs[k].value;
      Some(MinOf(vs))
  }

  function RollingMaxAt(xs: seq<Option<real>>, w: nat, t: nat): (r: Option<real>)
    requires 1 <= w && t < |xs|
    ensures r.Some? <==> w <= t + 1 && AllSome(xs[t + 1 - w..t + 1])
    ensures r.Some? ==> forall k :: t + 1 - w <= k <= t ==> xs[k].value <= r.value
  {
    if t + 1 < w || !AllSome(xs[t + 1 - w..t + 1]) then None
    else
      var vs := Values(xs[t + 1 - w..t + 1]);
      assert forall k :: t + 1 - w <= k <= t ==> vs[k - (t + 1 - w)] == xs[k].value;
      Some(MaxOf(vs))
  }

  /** `100 * (close - low_min) / (high_max - low_min)` at one row; a zero range makes
      the quotient undefined (on valid bars the close then equals the low, so the
      quotient is 0/0). */
  function PercentK(lo: Option<real>, hi: Option<real>, c: Option<real>): (k: Option<real>)
    ensures k.Some? <==> lo.Some? && hi.Some? && c.Some? && hi.value != lo.value
    ensures k.Some? && lo.value <= c.value <= hi.value ==> 0.0 <= k.value <= 100.0
  {
    if lo.Some? && hi.Some? && c.Some? && hi.value - lo.value != 0.0 then
      var x, y := c.value - lo.value, hi.value - lo.value;
      assert 0.0 <= x <= y ==> 0.0 <= 100.0 * x / y <= 100.0 by {
        if 0.0 <= x <= y { PercentInRange(x, y); }
      }
      Some(100.0 * x / y)
    else None
  }

  lemma PercentInRange(x: real, y: real)
    requires 0.0 <= x <= y && y != 0.0
    ensures 0.0 <= 100.0 * x / y <= 100.0
  {
    var q := x / y;
    assert q * y == x;
    assert 0.0 <= q <= 1.0;
    assert (100.0 * q) * y == 100.0 * x;
    QuotientOf(100.0 * q, 100.0 * x, y);
  }

  /** %K: where the close sits in the k-bar range, in percent. */
  function StochK(bars: seq<Bar>, kPeriod: nat): (k: seq<Option<real>>)
    requires kPeriod >= 1
    ensures |k| == |bars|
    ensures forall t :: 0 <= t < |bars| ==>
      k[t] == PercentK(RollingMinAt(Lows(bars), kPeriod, t), RollingMaxAt(Highs(bars), kPeriod, t), bars[t].close)
  {
    var lows, highs := Lows(bars), Highs(bars);
    seq(|bars|, t requires 0 <= t < |bars| =>
      PercentK(RollingMinAt(lows, kPeriod, t), RollingMaxAt(highs, kPeriod, t), bars[t].close))
  }

  /** %D: the d-bar mean of %K. */
  function StochD(k: seq<Option<real>>, dPeriod: nat): (d: seq<Option<real>>)
    requires dPeriod >= 1
    ensures |d| == |k|
    ensures forall t :: 0 <= t < |k| ==> d[t] == RollingMeanAt(k, dPeriod, t)
  { seq(|k|, t requires 0 <= t < |k| => RollingMeanAt(k, dPeriod, t)) }

  /** A bar whose low, high and close are present, with the close inside the range. */
  predicate ValidBar(b: Bar) {
    b.low.Some? && b.high.Some? && b.close.Some? && b.low.value <= b.close.value <= b.high.value
  }

  /** On valid bars %K lies in [0, 100], and once the window is full it is undefined
      exactly when the window's range is flat. */
  lemma StochKRange(bars: seq<Bar>, kPeriod: nat, t: nat)
    requires kPeriod >= 1 && t < |bars|
    requires forall i :: 0 <= i < |bars| ==> ValidBar(bars[i])
    ensures StochK(bars, kPeriod)[t].Some? ==> 0.0 <= StochK(bars, kPeriod)[t].value <= 100.0
    ensures kPeriod <= t + 1 ==>
      var lo, hi := RollingMinAt(Lows(bars), kPeriod, t), RollingMaxAt(Highs(bars), kPeriod, t);
      lo.Some? && hi.Some? && (StochK(bars, kPeriod)[t].None? <==> lo.value == hi.value)
  {
    var lows, highs := Lows(bars), Highs(bars);
    var lo, hi := RollingMinAt(lows, kPeriod, t), RollingMaxAt(highs, kPeriod, t);
    if kPeriod <= t + 1 {
      forall j | t + 1 - kPeriod <= j <= t ensures lows[j].Some? && highs[j].Some? {
        assert ValidBar(bars[j]);
      }
      assert AllSome(lows[t + 1 - kPeriod..t + 1]);
      assert AllSome(highs[t + 1 - kPeriod..t + 1]);
      assert ValidBar(bars[t]);
      assert lo.value <= lows[t].value && highs[t].value <= hi.value;
    }
  }

  /** On valid bars a full window with no range has its close at the low, so pandas
      divides 0 by 0 there and gives NaN, as %K does in this model. */
  lemma StochFlatWindow(bars: seq<Bar>, kPeriod: nat, t: nat)
    requires kPeriod >= 1 && kPeriod <= t + 1 && t < |bars|
    requires forall i :: 0 <= i < |bars| ==> ValidBar(bars[i])
    requires StochK(bars, kPeriod)[t].None?
    ensures RollingMinAt(Lows(bars), kPeriod, t).Some? && bars[t].close.Some?
    ensures bars[t].close.value == RollingMinAt(Lows(bars), kPeriod, t).value
  {
    StochKRange(bars, kPeriod, t);
    var lows, highs := Lows(bars), Highs(bars);
    var lo, hi := RollingMinAt(lows, kPeriod, t), RollingMaxAt(highs, kPeriod, t);
    assert ValidBar(bars[t]);
    assert lo.value <= lows[t].value && highs[t].value <= hi.value;
  }

  /** %D inherits the [0, 100] range of %K on valid bars. */
  lemma StochDRange(bars: seq<Bar>, kPeriod: nat, dPeriod: nat, t: nat)
    requires kPeriod >= 1 && dPeriod >= 1 && t < |bars|
    requires forall i :: 0 <= i < |bars| ==> ValidBar(bars[i])
    ensures StochD(StochK(bars, kPeriod), dPeriod)[t].Some? ==>
      0.0 <= StochD(StochK(bars, kPeriod), dPeriod)[t].value <= 100.0
  {
    var k := StochK(bars, kPeriod);
    forall j | 0 <= j < |k| && k[j].Some? ensures 0.0 <= k[j].value <= 100.0 {
      StochKRange(bars, kPeriod, j);
    }
    RollingMeanBounded(k, dPeriod, t, 0.0, 100.0);
  }

  // ---------------------------------------------------------------------------
  // Trend overlay
  // ---------------------------------------------------------------------------

  datatype Overlay = Overlay(trend: string, score: real)

  /** The rule-based score: 0.5, plus or minus 0.2 for the EMA cross, plus or minus
      0.15 for MACD against its signal, clamped to [0, 1]. */
  function OverlayScore(emaUp: bool, macdUp: bool): (s: real)
    ensures 0.0 <= s <= 1.0
  {
    Clamp(0.0, 1.0, 0.5 + (if emaUp then 0.2 else -0.2) + (if macdUp then 0.15 else -0.15))
  }

  /** The score updates in the order the fallback applies them. */
  method ScoreOverlay(emaUp: bool, macdUp: bool) returns (score: real)
    ensures score == OverlayScore(emaUp, macdUp)
  {
    score := 0.5;
    if emaUp {
      score := score + 0.2;
    } else {
      score := score - 0.2;
    }
    if macdUp {
      score := score + 0.15;
    } else {
      score := score - 0.15;
    }
    score := if score > 1.0 then 1.0 else score;
    score := if score < 0.0 then 0.0 else score;
  }

  function OverlayLabel(s: real): (l: string)
    ensures l == "UP" <==> s >= 0.55
    ensures l == "DOWN" <==> s < 0.55 && s <= 0.45
  { if s >= 0.55 then "UP" else if s <= 0.45 then "DOWN" else "NEUTRAL" }

  /** In exact arithmetic the four possible scores are 0.85, 0.55, 0.45 and 0.15, so
      the label is decided by the EMA cross alone and is never NEUTRAL. */
  lemma OverlayLabelFollowsEma(emaUp: bool, macdUp: bool)
    ensures OverlayLabel(OverlayScore(emaUp, macdUp)) == (if emaUp then "UP" else "DOWN")
  {}

  /** The fallback on a close series. */
  function FallbackOverlay(closes: seq<real>): (r: Overlay)
    requires |closes| > 0
    ensures r.trend == "UP" <==> Ema(closes, 20)[|closes| - 1] > Ema(closes, 50)[|closes| - 1]
    ensures r.trend == "UP" || r.trend == "DOWN"
    ensures 0.0 <= r.score <= 1.0
  {
    var last := |closes| - 1;
    var m := Macd(closes);
    var emaUp := Ema(closes, 20)[last] > Ema(closes, 50)[last];
    var s := OverlayScore(emaUp, m.macd[last] > m.signal[last]);
    OverlayLabelFollowsEma(emaUp, m.macd[last] > m.signal[last]);
    Overlay(OverlayLabel(s), s)
  }

  /** `compute_ai_trend_overlay`: the predictor's direction and up-probability, unless
      the predictor raises, in which case the rule-based fallback on the Close column. */
  function TrendOverlay(t: Table): (r: Overlay)
    requires AiPredictor.Predict(t).Raises? ==> "Close" in t.columns && AllSome(ColumnNamed(t, "Close"))
    ensures AiPredictor.Predict(t).Returned? ==>
      r == Overlay(AiPredictor.Predict(t).prediction.direction, AiPredictor.Predict(t).prediction.probUp)
    ensures AiPredictor.Predict(t).Raises? ==>
      var closes := Values(ColumnNamed(t, "Close"));
      |closes| > 0 && (r.trend == "UP" <==> Ema(closes, 20)[|closes| - 1] > Ema(closes, 50)[|closes| - 1])
    ensures r.trend in {"UP", "DOWN", "N/A"}
  {
    match AiPredictor.Predict(t)
    case Returned(p) => Overlay(p.direction, p.probUp)
    case Raises(_) => FallbackOverlay(Values(ColumnNamed(t, "Close")))
  }
}
