/** Candle features that several scorers compute identically: the 14-bar RSI proxy
    and the 20-bar volume ratio of components/reversal_premium.py and
    components/reversal_probability.py, and the guarded body percentage that
    components/reversal_probability.py and components/indo_heatmap.py share. */
module Rolling {
  import opened Common

  /** `series.diff()`: undefined at the first row and wherever a neighbour is NaN. */
  function Diffs(xs: seq<Option<real>>): (d: seq<Option<real>>)
    ensures |d| == |xs|
    ensures |xs| > 0 ==> d[0] == None
    ensures forall i :: 1 <= i < |xs| ==> d[i] == Sub(xs[i], xs[i - 1])
  { seq(|xs|, i requires 0 <= i < |xs| => if i == 0 then None else Sub(xs[i], xs[i - 1])) }

  /** `chg.clip(lower=0)` */
  function Gains(d: seq<Option<real>>): (g: seq<Option<real>>)
    ensures |g| == |d|
    ensures forall i :: 0 <= i < |d| ==> g[i].Some? == d[i].Some? && (g[i].Some? ==> g[i].value >= 0.0)
  { seq(|d|, i requires 0 <= i < |d| => if d[i].Some? then Some(if d[i].value > 0.0 then d[i].value else 0.0) else None) }

  /** `-chg.clip(upper=0)` */
  function Losses(d: seq<Option<real>>): (l: seq<Option<real>>)
    ensures |l| == |d|
    ensures forall i :: 0 <= i < |d| ==> l[i].Some? == d[i].Some? && (l[i].Some? ==> l[i].value >= 0.0)
  { seq(|d|, i requires 0 <= i < |d| => if d[i].Some? then Some(if d[i].value < 0.0 then -d[i].value else 0.0) else None) }

  predicate NonNegative(x: Option<real>) { x.Some? ==> x.value >= 0.0 }

  /** `100 - 100 / (1 + up / dn)` with pandas division: a zero average loss gives an
      infinite ratio (RSI 100) unless the average gain is zero too (0/0, NaN). */
  function RsiOf(up: Option<real>, dn: Option<real>): (r: Option<real>)
    requires NonNegative(up) && NonNegative(dn)
    ensures r.Some? ==> 0.0 <= r.value <= 100.0
    ensures r.Some? <==> up.Some? && dn.Some? && (up.value > 0.0 || dn.value > 0.0)
    ensures up.Some? && dn == Some(0.0) && up.value > 0.0 ==> r == Some(100.0)
    ensures up == Some(0.0) && dn.Some? && dn.value > 0.0 ==> r == Some(0.0)
  {
    if up.None? || dn.None? then None
    else if dn.value == 0.0 then (if up.value == 0.0 then None else Some(100.0))
    else
      var u, d := up.value, dn.value;
      var rs := u / d;
      RsiIsShare(u, d);
      Some(100.0 - 100.0 / (1.0 + rs))
  }

  /** The ratio form equals the gain's share of the total movement. */
  lemma RsiIsShare(u: real, d: real)
    requires u >= 0.0 && d > 0.0
    ensures 100.0 - 100.0 / (1.0 + u / d) == 100.0 * u / (u + d)
    ensures 0.0 <= 100.0 * u / (u + d) <= 100.0
  {
    var s := u + d;
    var q := 1.0 + u / d;
    assert q * d == s;
    QuotientOf(q, s, d);
    var f := 100.0 / q;
    assert f * q == 100.0;
    assert f * s == 100.0 * d by {
      calc {
        f * s;
        f * (q * d);
        (f * q) * d;
      }
    }
    QuotientOf(f, 100.0 * d, s);
    var g := 100.0 * u / s;
    assert (100.0 - f) * s == 100.0 * u;
    QuotientOf(100.0 - f, 100.0 * u, s);
    assert g * s == 100.0 * u;
    assert 100.0 * u <= 100.0 * s;
  }

  lemma QuotientOf(x: real, y: real, d: real)
    requires d != 0.0 && x * d == y
    ensures x == y / d
  {}

  /** The mean of a window of non-negative values is non-negative. */
  lemma RollingMeanNonNegative(xs: seq<Option<real>>, w: nat, t: nat)
    requires 1 <= w && t < |xs|
    requires forall i :: 0 <= i < |xs| ==> NonNegative(xs[i])
    ensures NonNegative(RollingMeanAt(xs, w, t))
  {
    if w <= t + 1 && AllSome(xs[t + 1 - w..t + 1]) {
      var vs := Values(xs[t + 1 - w..t + 1]);
      forall i | 0 <= i < |vs| ensures 0.0 <= vs[i] {
        assert NonNegative(xs[t + 1 - w + i]);
      }
      SumAtLeast(vs, 0.0);
    }
  }

  /** The last value of the 14-bar RSI proxy. */
  function RsiProxyLast(closes: seq<Option<real>>): (r: Option<real>)
    requires |closes| > 0
    ensures r.Some? ==> 0.0 <= r.value <= 100.0
  {
    var d := Diffs(closes);
    var g, l := Gains(d), Losses(d);
    var last := |closes| - 1;
    RollingMeanNonNegative(g, 14, last);
    RollingMeanNonNegative(l, 14, last);
    RsiOf(RollingMeanAt(g, 14, last), RollingMeanAt(l, 14, last))
  }

  /** `volume / rolling(20).mean()` at the last row, 1 when the mean is NaN or zero. */
  function VolumeRatio(volumes: seq<Option<real>>): (r: real)
    requires |volumes| > 0
    ensures RollingMeanLast(volumes, 20).None? || RollingMeanLast(volumes, 20) == Some(0.0) ==> r == 1.0
    ensures var m := RollingMeanLast(volumes, 20);
      m.Some? && m.value > 0.0 ==>
        volumes[|volumes| - 1].Some? && (r > 1.0 <==> volumes[|volumes| - 1].value > m.value)
  {
    var base := RollingMeanLast(volumes, 20);
    if base.Some? && base.value != 0.0 then
      assert volumes[|volumes| - 1] in volumes[|volumes| - 20..];
      var v := volumes[|volumes| - 1].value;
      assert base.value > 0.0 ==> (v / base.value > 1.0 <==> v > base.value) by {
        if base.value > 0.0 {
          assert (v / base.value - 1.0) * base.value == v - base.value;
          FactorSign(v / base.value - 1.0, base.value);
        }
      }
      v / base.value
    else 1.0
  }

  /** `((c - o) / o * 100) if o != 0 else 0.0`: a zero open gives 0, a NaN open or close
      gives NaN. */
  function BodyPct(o: Option<real>, c: Option<real>): (p: Option<real>)
    ensures o == Some(0.0) ==> p == Some(0.0)
    ensures p.Some? <==> o == Some(0.0) || (o.Some? && c.Some?)
    ensures o.Some? && o.value > 0.0 && c.Some? ==> (Gt(p, 0.0) <==> c.value > o.value)
  {
    if o.Some? && o.value == 0.0 then Some(0.0)
    else if o.Some? && c.Some? then
      assert o.value > 0.0 ==> ((c.value - o.value) / o.value > 0.0 <==> c.value - o.value > 0.0) by {
        if o.value > 0.0 { PositiveDivisor(c.value - o.value, o.value); }
      }
      Some((c.value - o.value) / o.value * 100.0)
    else None
  }
}
