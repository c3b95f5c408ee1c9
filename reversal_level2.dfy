/** The level-2 layer of the premium reversal engine (components/reversal_premium_level2.py):
    a capped history of probabilities and a once-per-regime alert, both kept in the
    session, plus demand and supply zones from swing lows and highs merged when
    they lie within 0.4 % of each other. */
module ReversalLevel2 {
  import opened Common
  import ReversalPremium

  const HistoryCap := 120
  const UpThreshold := 65
  const DownThreshold := 35

  datatype Side = Up | Down
  datatype Alert = StrongBuy(prob: int) | StrongSell(prob: int)

  function SideOf(a: Alert): Side {
    match a
    case StrongBuy(_) => Up
    case StrongSell(_) => Down
  }

  /** The markdown line shown for an alert. */
  function Message(a: Alert): string {
    match a
    case StrongBuy(p) => "🟢 **Reversal Signal: STRONG BUY (prob " + IntToString(p) + "%)**"
    case StrongSell(p) => "🔴 **Reversal Signal: STRONG SELL (prob " + IntToString(p) + "%)**"
  }

  // ---------------------------------------------------------------------------
  // The alert rule and its behaviour over a run of refreshes
  // ---------------------------------------------------------------------------

  /** One call of the alert rule: the alert raised, if any, and the new last direction. */
  function AlertStep(last: Option<Side>, prob: int, direction: string): (r: (Option<Alert>, Option<Side>))
    ensures r.0 == Some(StrongBuy(prob)) <==> direction == "UP" && prob >= UpThreshold && last != Some(Up)
    ensures r.0 == Some(StrongSell(prob)) <==>
      !(direction == "UP" && prob >= UpThreshold && last != Some(Up)) &&
      direction == "DOWN" && prob <= DownThreshold && last != Some(Down)
    ensures r.0.None? || r.0 == Some(StrongBuy(prob)) || r.0 == Some(StrongSell(prob))
    ensures r.0.None? ==> r.1 == last
    ensures r.0.Some? ==> r.1 == Some(SideOf(r.0.value)) && last != r.1
  {
    if direction == "UP" && prob >= UpThreshold && last != Some(Up) then (Some(StrongBuy(prob)), Some(Up))
    else if direction == "DOWN" && prob <= DownThreshold && last != Some(Down) then (Some(StrongSell(prob)), Some(Down))
    else (None, last)
  }

  datatype Reading = Reading(prob: int, direction: string)

  /** The sides of the alerts raised over successive refreshes. */
  function Alerts(last: Option<Side>, rs: seq<Reading>): seq<Side>
    decreases |rs|
  {
    if |rs| == 0 then []
    else
      var (a, next) := AlertStep(last, rs[0].prob, rs[0].direction);
      (if a.Some? then [SideOf(a.value)] else []) + Alerts(next, rs[1..])
  }

  /** The last direction remembered after successive refreshes. */
  function FinalLast(last: Option<Side>, rs: seq<Reading>): Option<Side>
    decreases |rs|
  {
    if |rs| == 0 then last
    else FinalLast(AlertStep(last, rs[0].prob, rs[0].direction).1, rs[1..])
  }

  /** Alerts alternate sides: one regime alerts once, however many refreshes it lasts,
      and the remembered direction is the side of the latest alert. */
  lemma {:induction false} AlertsAlternate(last: Option<Side>, rs: seq<Reading>)
    ensures var s := Alerts(last, rs);
      && (forall i :: 0 <= i < |s| - 1 ==> s[i] != s[i + 1])
      && (|s| > 0 && last.Some? ==> s[0] != last.value)
      && FinalLast(last, rs) == (if |s| > 0 then Some(s[|s| - 1]) else last)
    decreases |rs|
  {
    FinalLastIsLatestAlert(last, rs);
    if |rs| > 0 {
      var step := AlertStep(last, rs[0].prob, rs[0].direction);
      var next := step.1;
      AlertsAlternate(next, rs[1..]);
      var tail := Alerts(next, rs[1..]);
      if step.0.Some? {
        var x := SideOf(step.0.value);
        assert next == Some(x) && last != next;
        assert Alerts(last, rs) == [x] + tail;
        ConsAlternates(x, tail);
      } else {
        assert Alerts(last, rs) == tail;
      }
    }
  }

  lemma {:induction false} FinalLastIsLatestAlert(last: Option<Side>, rs: seq<Reading>)
    ensures var s := Alerts(last, rs);
      FinalLast(last, rs) == (if |s| > 0 then Some(s[|s| - 1]) else last)
    decreases |rs|
  {
    if |rs| > 0 {
      var step := AlertStep(last, rs[0].prob, rs[0].direction);
      FinalLastIsLatestAlert(step.1, rs[1..]);
      var tail := Alerts(step.1, rs[1..]);
      if step.0.Some? {
        assert Alerts(last, rs) == [SideOf(step.0.value)] + tail;
      } else {
        assert Alerts(last, rs) == tail;
      }
    }
  }

  lemma ConsAlternates(x: Side, tail: seq<Side>)
    requires forall i :: 0 <= i < |tail| - 1 ==> tail[i] != tail[i + 1]
    requires |tail| > 0 ==> tail[0] != x
    ensures var s := [x] + tail; forall i :: 0 <= i < |s| - 1 ==> s[i] != s[i + 1]
  {
    var s := [x] + tail;
    forall i | 0 <= i < |s| - 1 ensures s[i] != s[i + 1] {
      if i > 0 {
        assert s[i] == tail[i - 1] && s[i + 1] == tail[i];
      }
    }
  }

  /** The refresh sequence 50, 70, 72, 68, 40, 66 with the premium engine's direction
      labels raises a single STRONG BUY: 40 is above the 35 threshold and 66 repeats
      the remembered UP regime. */
  lemma ExampleRunAlertsOnce()
    ensures var probs := [50, 70, 72, 68, 40, 66];
      var rs := seq(6, i requires 0 <= i < 6 => Reading(probs[i], ReversalPremium.DirectionOf(probs[i])));
      Alerts(None, rs) == [Up]
  {
    var probs := [50, 70, 72, 68, 40, 66];
    var rs := seq(6, i requires 0 <= i < 6 => Reading(probs[i], ReversalPremium.DirectionOf(probs[i])));
    assert rs[0] == Reading(50, "NEUTRAL");
    assert rs[1] == Reading(70, "UP");
    assert rs[2] == Reading(72, "UP");
    assert rs[3] == Reading(68, "UP");
    assert rs[4] == Reading(40, "DOWN");
    assert rs[5] == Reading(66, "UP");
    assert Alerts(Some(Up), rs[5..]) == [] by {
      assert rs[5..][1..] == [];
    }
    assert Alerts(Some(Up), rs[4..]) == [] by {
      assert rs[4..][1..] == rs[5..];
    }
    assert Alerts(Some(Up), rs[3..]) == [] by {
      assert rs[3..][1..] == rs[4..];
    }
    assert Alerts(Some(Up), rs[2..]) == [] by {
      assert rs[2..][1..] == rs[3..];
    }
    assert Alerts(None, rs[1..]) == [Up] by {
      assert rs[1..][1..] == rs[2..];
    }
  }

  // ---------------------------------------------------------------------------
  // Session state
  // ---------------------------------------------------------------------------

  /** The two session entries the layer keeps across refreshes. */
  class ReversalSession {
    var history: seq<int>
    var lastDirection: Option<Side>

    ghost predicate Valid()
      reads this
    {
      |history| <= HistoryCap
    }

    /** A fresh session: the history is empty and no alert has fired. */
    constructor()
      ensures Valid() && history == [] && lastDirection == None
    {
      history := [];
      lastDirection := None;
    }

    method GetMemory() returns (h: seq<int>)
      ensures h == history
    {
      h := history;
    }

    /** Append, then drop the oldest entry once the history exceeds 120. */
    method AddHistory(prob: int)
      requires Valid()
      modifies this
      ensures Valid()
      ensures history == BoundedAppend(old(history), prob, HistoryCap)
      ensures history == LastN(old(history) + [prob], HistoryCap)
      ensures lastDirection == old(lastDirection)
    {
      BoundedAppendIsLastN(history, prob, HistoryCap);
      history := history + [prob];
      if |history| > HistoryCap {
        history := history[1..];
      }
    }

    method AutoReversalAlert(prob: int, direction: string) returns (alert: Option<Alert>)
      modifies this
      ensures (alert, lastDirection) == AlertStep(old(lastDirection), prob, direction)
      ensures history == old(history)
    {
      alert := None;
      var last := lastDirection;
      if direction == "UP" && prob >= UpThreshold && last != Some(Up) {
        alert := Some(StrongBuy(prob));
        lastDirection := Some(Up);
      } else if direction == "DOWN" && prob <= DownThreshold && last != Some(Down) {
        alert := Some(StrongSell(prob));
        lastDirection := Some(Down);
      }
    }
  }

  // ---------------------------------------------------------------------------
  // Swing zones
  // ---------------------------------------------------------------------------

  datatype Zone = Zone(lo: real, hi: real)

  datatype ZonesResult = Zones(demand: seq<Zone>, supply: seq<Zone>) | MissingColumn(name: string)

  /** NumPy `<` on two cells: false when either is NaN. */
  predicate Below(a: Option<real>, b: Option<real>) { a.Some? && b.Some? && a.value < b.value }

  /** A bar lower than both immediate neighbours. */
  predicate IsSwingLow(lows: seq<Option<real>>, i: int)
    requires 1 <= i < |lows| - 1
  { Below(lows[i], lows[i - 1]) && Below(lows[i], lows[i + 1]) }

  predicate IsSwingHigh(highs: seq<Option<real>>, i: int)
    requires 1 <= i < |highs| - 1
  { Below(highs[i - 1], highs[i]) && Below(highs[i + 1], highs[i]) }

  function DemandZone(low: real): Zone { Zone(low, low * 1.003) }

  function SupplyZone(high: real): Zone { Zone(high * 0.997, high) }

  /** The demand zones of the swing lows at positions 2 .. k-1, in position order. */
  function DemandUpTo(lows: seq<Option<real>>, k: int): (zs: seq<Zone>)
    requires k <= |lows| - 1
    decreases k
  {
    if k <= 2 then []
    else DemandUpTo(lows, k - 1) + (if IsSwingLow(lows, k - 1) then [DemandZone(lows[k - 1].value)] else [])
  }

  function SupplyUpTo(highs: seq<Option<real>>, k: int): (zs: seq<Zone>)
    requires k <= |highs| - 1
    decreases k
  {
    if k <= 2 then []
    else SupplyUpTo(highs, k - 1) + (if IsSwingHigh(highs, k - 1) then [SupplyZone(highs[k - 1].value)] else [])
  }

  /** A raw demand zone is exactly a swing low at a position in 2 .. k-1. */
  lemma {:induction false} DemandZonesAreSwingLows(lows: seq<Option<real>>, k: int, z: Zone)
    requires k <= |lows| - 1
    ensures z in DemandUpTo(lows, k) <==>
      exists i :: 2 <= i < k && IsSwingLow(lows, i) && z == DemandZone(lows[i].value)
    decreases k
  {
    if k > 2 {
      DemandZonesAreSwingLows(lows, k - 1, z);
      if IsSwingLow(lows, k - 1) && z == DemandZone(lows[k - 1].value) {
        assert z in DemandUpTo(lows, k);
      }
    }
  }

  lemma {:induction false} SupplyZonesAreSwingHighs(highs: seq<Option<real>>, k: int, z: Zone)
    requires k <= |highs| - 1
    ensures z in SupplyUpTo(highs, k) <==>
      exists i :: 2 <= i < k && IsSwingHigh(highs, i) && z == SupplyZone(highs[i].value)
    decreases k
  {
    if k > 2 {
      SupplyZonesAreSwingHighs(highs, k - 1, z);
      if IsSwingHigh(highs, k - 1) && z == SupplyZone(highs[k - 1].value) {
        assert z in SupplyUpTo(highs, k);
      }
    }
  }

  // ---------------------------------------------------------------------------
  // Clustering: sort, then merge each zone into the previous one when close
  // ---------------------------------------------------------------------------

  /** Python's tuple order. */
  predicate ZoneLe(a: Zone, b: Zone) { a.lo < b.lo || (a.lo == b.lo && a.hi <= b.hi) }

  predicate Sorted(zs: seq<Zone>) { forall i, j :: 0 <= i < j < |zs| ==> ZoneLe(zs[i], zs[j]) }

  function Insert(z: Zone, zs: seq<Zone>): (r: seq<Zone>)
    requires Sorted(zs)
    ensures |r| == |zs| + 1
    ensures Sorted(r) && multiset(r) == multiset(zs) + multiset{z}
  {
    if |zs| == 0 then [z]
    else if ZoneLe(z, zs[0]) then [z] + zs
    else
      var rest := Insert(z, zs[1..]);
      assert zs == [zs[0]] + zs[1..];
      InsertHeadSorted(zs[0], z, zs[1..], rest);
      [zs[0]] + rest
  }

  lemma InsertHeadSorted(h: Zone, z: Zone, tail: seq<Zone>, rest: seq<Zone>)
    requires ZoneLe(h, z) || !ZoneLe(z, h)
    requires forall w :: w in tail ==> ZoneLe(h, w)
    requires Sorted(rest) && multiset(rest) == multiset(tail) + multiset{z}
    ensures Sorted([h] + rest)
  {
    forall w | w in rest ensures ZoneLe(h, w) {
      assert w in multiset(rest);
      if w != z {
        assert w in multiset(tail);
      }
    }
    var r := [h] + rest;
    forall i, j | 0 <= i < j < |r| ensures ZoneLe(r[i], r[j]) {
      if i == 0 {
        assert r[j] in rest;
      } else {
        assert r[i] == rest[i - 1] && r[j] == rest[j - 1];
      }
    }
  }

  /** `sorted(zones)` */
  function SortZones(zs: seq<Zone>): (r: seq<Zone>)
    ensures |r| == |zs|
    ensures Sorted(r) && multiset(r) == multiset(zs)
  {
    if |zs| == 0 then []
    else
      assert zs == [zs[0]] + zs[1..];
      Insert(zs[0], SortZones(zs[1..]))
  }

  /** The 0.4 % test against the previous merged zone's upper bound. NumPy divides a
      nonzero gap by a zero bound to an infinity and a zero gap to NaN, so a zero bound
      never merges. */
  predicate Close(z: Zone, last: Zone) {
    last.hi != 0.0 && Abs(z.lo - last.hi) / last.hi < 0.004
  }

  function Join(a: Zone, b: Zone): (r: Zone)
    ensures r.lo <= a.lo && r.lo <= b.lo && (r.lo == a.lo || r.lo == b.lo)
    ensures r.hi >= a.hi && r.hi >= b.hi && (r.hi == a.hi || r.hi == b.hi)
  { Zone(if a.lo < b.lo then a.lo else b.lo, if a.hi > b.hi then a.hi else b.hi) }

  /** One iteration of the merge loop. */
  function MergeStep(merged: seq<Zone>, z: Zone): (r: seq<Zone>)
    requires |merged| > 0
  {
    var last := merged[|merged| - 1];
    if Close(z, last) then merged[..|merged| - 1] + [Join(last, z)] else merged + [z]
  }

  /** The merge loop over an already sorted list. */
  function Merge(zs: seq<Zone>): (r: seq<Zone>)
    requires |zs| > 0
    ensures 1 <= |r| <= |zs|
    decreases |zs|
  {
    if |zs| == 1 then [zs[0]] else MergeStep(Merge(zs[..|zs| - 1]), zs[|zs| - 1])
  }

  /** The inner `cluster` helper. */
  function Cluster(zs: seq<Zone>): (r: seq<Zone>)
    ensures |r| <= |zs|
    ensures |r| == 0 <==> |zs| == 0
  {
    if |zs| == 0 then [] else Merge(SortZones(zs))
  }

  predicate Covers(w: Zone, z: Zone) { w.lo <= z.lo && z.hi <= w.hi }

  predicate LosNondecreasing(zs: seq<Zone>) { forall i, j :: 0 <= i < j < |zs| ==> zs[i].lo <= zs[j].lo }

  /** Merging a list sorted by lower bound keeps the merged lower bounds sorted, none
      above the last input's. */
  lemma {:induction false} MergeKeepsLosSorted(zs: seq<Zone>)
    requires |zs| > 0 && LosNondecreasing(zs)
    ensures LosNondecreasing(Merge(zs))
    ensures forall w :: w in Merge(zs) ==> w.lo <= zs[|zs| - 1].lo
    decreases |zs|
  {
    if |zs| > 1 {
      var init := zs[..|zs| - 1];
      var z := zs[|zs| - 1];
      MergeKeepsLosSorted(init);
      var m := Merge(init);
      assert init[|init| - 1].lo <= z.lo;
      assert forall w :: w in m ==> w.lo <= z.lo;
      var last := m[|m| - 1];
      if Close(z, last) {
        var j := Join(last, z);
        assert j.lo == last.lo;
        assert Merge(zs) == m[..|m| - 1] + [j];
        assert forall w :: w in m[..|m| - 1] ==> w in m;
      } else {
        assert Merge(zs) == m + [z];
      }
    }
  }

  /** Every input zone lies within some merged zone. */
  lemma {:induction false} MergeCovers(zs: seq<Zone>)
    requires |zs| > 0
    ensures forall z :: z in zs ==> exists w :: w in Merge(zs) && Covers(w, z)
    decreases |zs|
  {
    if |zs| > 1 {
      var init := zs[..|zs| - 1];
      var z := zs[|zs| - 1];
      MergeCovers(init);
      var m := Merge(init);
      var last := m[|m| - 1];
      var r := Merge(zs);
      forall y | y in zs ensures exists w :: w in r && Covers(w, y) {
        if y == z {
          if Close(z, last) {
            assert r[|r| - 1] == Join(last, z) && Covers(r[|r| - 1], y);
          } else {
            assert r[|r| - 1] == z && Covers(r[|r| - 1], y);
          }
        } else {
          assert y in init;
          var w :| w in m && Covers(w, y);
          var k :| 0 <= k < |m| && m[k] == w;
          if Close(z, last) && k == |m| - 1 {
            assert r[|r| - 1] == Join(last, z) && Covers(r[|r| - 1], y);
          } else {
            assert r[k] == w;
          }
        }
      }
    } else {
      assert Merge(zs) == [zs[0]] && Covers(zs[0], zs[0]);
    }
  }

  /** Each merged zone's bounds are bounds of input zones. */
  lemma {:induction false} MergeBoundsFromInputs(zs: seq<Zone>)
    requires |zs| > 0
    ensures forall w :: w in Merge(zs) ==> (exists z :: z in zs && z.lo == w.lo) && (exists z :: z in zs && z.hi == w.hi)
    decreases |zs|
  {
    if |zs| > 1 {
      var init := zs[..|zs| - 1];
      var z := zs[|zs| - 1];
      MergeBoundsFromInputs(init);
      var m := Merge(init);
      var r := Merge(zs);
      assert forall y :: y in init ==> y in zs;
      forall w | w in r ensures (exists y :: y in zs && y.lo == w.lo) && (exists y :: y in zs && y.hi == w.hi) {
        var last := m[|m| - 1];
        if Close(z, last) {
          if w == Join(last, z) {
            assert last in m;
          } else {
            assert w in m[..|m| - 1];
            assert w in m;
          }
        } else if w != z {
          assert w in m;
        }
      }
    } else {
      assert Merge(zs) == [zs[0]] && zs[0] in zs;
    }
  }

  /** What `cluster` promises: sorted merged lower bounds, every input zone inside an
      output zone, and output bounds taken from the inputs. */
  lemma ClusterProperties(zs: seq<Zone>)
    ensures LosNondecreasing(Cluster(zs))
    ensures forall z :: z in zs ==> exists w :: w in Cluster(zs) && Covers(w, z)
    ensures forall w :: w in Cluster(zs) ==>
      (exists z :: z in zs && z.lo == w.lo) && (exists z :: z in zs && z.hi == w.hi)
  {
    if |zs| > 0 {
      var s := SortZones(zs);
      assert forall z :: z in zs <==> z in s by {
        assert forall z :: z in zs <==> z in multiset(zs);
        assert forall z :: z in s <==> z in multiset(s);
      }
      MergeKeepsLosSorted(s);
      MergeCovers(s);
      MergeBoundsFromInputs(s);
    }
  }

  // ---------------------------------------------------------------------------
  // The imperative procedures
  // ---------------------------------------------------------------------------

  /** `cluster(zones)`: sort, then walk the zones, widening the last merged zone or
      starting a new one. */
  method ClusterZones(zones: seq<Zone>) returns (merged: seq<Zone>)
    ensures merged == Cluster(zones)
  {
    if |zones| == 0 {
      return [];
    }
    var sorted := SortZones(zones);
    merged := [sorted[0]];
    assert merged == Merge(sorted[..1]);
    var i := 1;
    while i < |sorted|
      invariant 1 <= i <= |sorted|
      invariant merged == Merge(sorted[..i])
    {
      var z := sorted[i];
      MergeSnoc(sorted, i);
      ghost var before := merged;
      var last := merged[|merged| - 1];
      if Close(z, last) {
        merged := merged[..|merged| - 1] + [Join(last, z)];
      } else {
        merged := merged + [z];
      }
      assert merged == MergeStep(before, z);
      i := i + 1;
    }
    assert sorted[..|sorted|] == sorted;
    assert Cluster(zones) == Merge(sorted);
  }

  lemma MergeSnoc(zs: seq<Zone>, i: nat)
    requires 1 <= i < |zs|
    ensures Merge(zs[..i + 1]) == MergeStep(Merge(zs[..i]), zs[i])
  {
    assert zs[..i + 1][..i] == zs[..i];
  }

  /** The swing scan over positions 2 .. n-3. */
  method ScanSwings(lows: seq<Option<real>>, highs: seq<Option<real>>) returns (demand: seq<Zone>, supply: seq<Zone>)
    requires |lows| == |highs| >= 4
    ensures demand == DemandUpTo(lows, |lows| - 2)
    ensures supply == SupplyUpTo(highs, |highs| - 2)
  {
    var n := |lows|;
    demand := [];
    supply := [];
    var i := 2;
    while i < n - 2
      invariant 2 <= i <= n - 2
      invariant demand == DemandUpTo(lows, i)
      invariant supply == SupplyUpTo(highs, i)
    {
      if IsSwingLow(lows, i) {
        demand := demand + [DemandZone(lows[i].value)];
      }
      if IsSwingHigh(highs, i) {
        supply := supply + [SupplyZone(highs[i].value)];
      }
      i := i + 1;
    }
  }

  predicate HasZoneColumns(t: Table) {
    "Close" in t.columns && "High" in t.columns && "Low" in t.columns
  }

  /** Swing lows give demand zones and swing highs supply zones, each list clustered;
      tables under 30 rows give none. The close column is read but unused. */
  method DetectZones(t: Table) returns (r: ZonesResult)
    ensures "Close" !in t.columns ==> r == MissingColumn("Close")
    ensures "Close" in t.columns && "High" !in t.columns ==> r == MissingColumn("High")
    ensures "Close" in t.columns && "High" in t.columns && "Low" !in t.columns ==> r == MissingColumn("Low")
    ensures HasZoneColumns(t) && |t.rows| < 30 ==> r == Zones([], [])
    ensures HasZoneColumns(t) && |t.rows| >= 30 ==>
      var n := |t.rows|;
      r == Zones(Cluster(DemandUpTo(ColumnNamed(t, "Low"), n - 2)), Cluster(SupplyUpTo(ColumnNamed(t, "High"), n - 2)))
  {
    if "Close" !in t.columns {
      return MissingColumn("Close");
    }
    if "High" !in t.columns {
      return MissingColumn("High");
    }
    if "Low" !in t.columns {
      return MissingColumn("Low");
    }
    var highs := ColumnNamed(t, "High");
    var lows := ColumnNamed(t, "Low");
    var n := |t.rows|;
    if n < 30 {
      return Zones([], []);
    }
    var demand, supply := ScanSwings(lows, highs);
    var d := ClusterZones(demand);
    var s := ClusterZones(supply);
    r := Zones(d, s);
  }
}
