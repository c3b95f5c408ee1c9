/** Market-mood figures of components/sentiment.py: the daily IHSG change, a sector
    score from the peers' daily changes, the foreign ETF change with its fallback
    order, and the mood label read off a change. */
module Sentiment {
  import opened Common

  /** What one `yf.download` call gave: an exception, or the daily closes (NaN as None). */
  datatype Download = Raised | Closes(closes: seq<Option<real>>)

  predicate IsSome(x: Option<real>) { x.Some? }

  /** `df["Close"].dropna()`: the defined closes, each once, in their original order. */
  function DropNa(xs: seq<Option<real>>): (r: seq<real>)
    ensures |r| == |KeptPositions(xs, IsSome)| <= |xs|
    ensures forall j :: 0 <= j < |r| ==> Some(r[j]) == xs[KeptPositions(xs, IsSome)[j]]
    ensures forall i :: 0 <= i < |r| ==> Some(r[i]) in xs
    ensures AllSome(xs) ==> r == Values(xs)
  {
    var kept := KeepWhere(xs, IsSome);
    KeepWhereMembers(xs, IsSome);
    assert AllSome(kept);
    assert AllSome(xs) ==> kept == xs by {
      if AllSome(xs) { KeepWhereAll(xs, IsSome); }
    }
    var r := Values(kept);
    assert forall i :: 0 <= i < |r| ==> Some(r[i]) == kept[i];
    r
  }

  /** The percentage change between the last two of `cs`; None with fewer than two
      values or a zero earlier one. */
  function LastChange(cs: seq<real>): (c: Option<real>)
    ensures c.Some? <==> |cs| >= 2 && cs[|cs| - 2] != 0.0
    ensures c.Some? && cs[|cs| - 2] > 0.0 ==> (c.value > 0.0 <==> cs[|cs| - 1] > cs[|cs| - 2])
  {
    if |cs| < 2 then None
    else
      var prev, last := cs[|cs| - 2], cs[|cs| - 1];
      if prev == 0.0 then None
      else
        assert prev > 0.0 ==> ((last - prev) / prev > 0.0 <==> last > prev) by {
          if prev > 0.0 { PositiveDivisor(last - prev, prev); }
        }
        Some((last - prev) / prev * 100.0)
  }

  /** The percentage change between the last two defined closes; None when the download
      raised, fewer than two closes are defined, or the earlier one is zero. */
  function DailyChange(d: Download): (c: Option<real>)
    ensures c.Some? <==> d.Closes? && |DropNa(d.closes)| >= 2 && DropNa(d.closes)[|DropNa(d.closes)| - 2] != 0.0
    ensures c.Some? ==>
      var cs := DropNa(d.closes);
      var prev, last := cs[|cs| - 2], cs[|cs| - 1];
      prev > 0.0 ==> (c.value > 0.0 <==> last > prev)
  {
    match d
    case Raised => None
    case Closes(xs) => LastChange(DropNa(xs))
  }

  /** `get_ihsg_sentiment` on the downloaded IHSG frame. */
  function IhsgSentiment(ihsg: Download): (c: Option<real>)
    ensures c.None? <==> ihsg.Raised? || |DropNa(ihsg.closes)| < 2 || DropNa(ihsg.closes)[|DropNa(ihsg.closes)| - 2] == 0.0
  { DailyChange(ihsg) }

  // ---------------------------------------------------------------------------
  // Sector sentiment
  // ---------------------------------------------------------------------------

  /** `SECTOR_MAP`, in its declaration order. */
  const SectorMap: seq<(string, seq<string>)> := [
    ("Finance", ["BBRI.JK", "BBCA.JK", "BMRI.JK", "BBNI.JK"]),
    ("Telco", ["TLKM.JK", "ISAT.JK"]),
    ("Consumer", ["UNVR.JK", "ICBP.JK", "INDF.JK"]),
    ("Retail", ["AMRT.JK", "MAPI.JK"]),
    ("Energy", ["PGAS.JK", "MEDC.JK"])
  ]

  const Unknown := "Unknown"
  const NeutralScore: int := 50

  /** The position of the first entry from `from` on whose list holds `s`. */
  function FirstSectorFrom(s: string, from: nat): (r: Option<nat>)
    requires from <= |SectorMap|
    ensures r.Some? ==> from <= r.value < |SectorMap| && s in SectorMap[r.value].1
    ensures r.Some? ==> forall j :: from <= j < r.value ==> s !in SectorMap[j].1
    ensures r.None? <==> forall j :: from <= j < |SectorMap| ==> s !in SectorMap[j].1
    decreases |SectorMap| - from
  {
    if from == |SectorMap| then None
    else if s in SectorMap[from].1 then Some(from)
    else FirstSectorFrom(s, from + 1)
  }

  /** The sector of a symbol, matched after upper-casing it. */
  function SectorOf(symbol: string): Option<nat>
  { FirstSectorFrom(Upper(symbol), 0) }

  /** The search loop of `get_sector_sentiment`, stopping at the first sector that lists
      the upper-cased symbol. */
  method FindSector(symbol: string) returns (sector: Option<nat>)
    ensures sector == SectorOf(symbol)
    ensures sector.Some? ==> Upper(symbol) in SectorMap[sector.value].1
    ensures sector.None? ==> forall j :: 0 <= j < |SectorMap| ==> Upper(symbol) !in SectorMap[j].1
  {
    var s := Upper(symbol);
    sector := None;
    var i := 0;
    while i < |SectorMap|
      invariant 0 <= i <= |SectorMap|
      invariant FirstSectorFrom(s, i) == FirstSectorFrom(s, 0)
    {
      if s in SectorMap[i].1 {
        sector := Some(i);
        return;
      }
      i := i + 1;
    }
  }

  /** The changes that count, in peer order: one per peer whose daily change is defined. */
  function PeerChanges(peers: seq<string>, fetch: string -> Download): (r: seq<real>)
    ensures |r| <= |peers|
    ensures forall x :: x in r ==> exists p :: p in peers && DailyChange(fetch(p)) == Some(x)
    ensures (forall p :: p in peers ==> DailyChange(fetch(p)).None?) ==> r == []
  {
    var r := Defined(peers, PeerChange(fetch));
    assert forall x :: x in r ==> exists p :: p in peers && DailyChange(fetch(p)) == Some(x) by {
      forall x | x in r ensures exists p :: p in peers && DailyChange(fetch(p)) == Some(x) {
        var i :| 0 <= i < |peers| && PeerChange(fetch)(peers[i]) == Some(x);
      }
    }
    r
  }

  /** A peer's daily change, as a function of its name. */
  function PeerChange(fetch: string -> Download): string -> Option<real> {
    p => DailyChange(fetch(p))
  }

  /** The j-th change comes from the j-th peer whose change is defined, so no peer
      with a defined change is skipped and the peer order is kept. */
  lemma PeerChangesInOrder(peers: seq<string>, fetch: string -> Download)
    ensures var r, idx := PeerChanges(peers, fetch), KeptPositions(peers, HasValue(PeerChange(fetch)));
      && |r| == |idx|
      && forall j :: 0 <= j < |r| ==> Some(r[j]) == DailyChange(fetch(peers[idx[j]]))
  {
    DefinedInOrder(peers, PeerChange(fetch));
  }

  /** The peer loop: every peer is fetched in turn and its change kept when defined. */
  method PeerScores(peers: seq<string>, fetch: string -> Download) returns (scores: seq<real>)
    ensures scores == PeerChanges(peers, fetch)
  {
    scores := [];
    for i := 0 to |peers|
      invariant scores == PeerChanges(peers[..i], fetch)
    {
      assert peers[..i + 1][..i] == peers[..i];
      var c := DailyChange(fetch(peers[i]));
      if c.Some? {
        scores := scores + [c.value];
      }
    }
    assert peers[..|peers|] == peers;
  }

  /** Python's `round(x)` to an integer: halves go to the even neighbour. */
  function RoundHalfEven(x: real): (r: int)
    ensures (r as real) - 0.5 <= x <= (r as real) + 0.5
    ensures x - (x.Floor as real) < 0.5 ==> r == x.Floor
    ensures x - (x.Floor as real) > 0.5 ==> r == x.Floor + 1
  {
    var f := x.Floor;
    var frac := x - f as real;
    if frac < 0.5 then f
    else if frac > 0.5 then f + 1
    else if f % 2 == 0 then f
    else f + 1
  }

  lemma RoundMonotone(x: real, y: real)
    requires x <= y
    ensures RoundHalfEven(x) <= RoundHalfEven(y)
  {
    if x.Floor < y.Floor {
      assert RoundHalfEven(x) <= x.Floor + 1 <= y.Floor <= RoundHalfEven(y);
    }
  }

  function Mean(xs: seq<real>): real
    requires |xs| > 0
  { Sum(xs) / |xs| as real }

  /** `max(0, min(round((avg + 3) * 10), 100))` */
  function SectorScore(avg: real): (r: int)
    ensures 0 <= r <= 100
    ensures avg <= -3.0 ==> r == 0
    ensures avg >= 7.0 ==> r == 100
  {
    assert avg <= -3.0 ==> RoundHalfEven((avg + 3.0) * 10.0) <= 0 by {
      if avg <= -3.0 { RoundMonotone((avg + 3.0) * 10.0, 0.0); }
    }
    assert avg >= 7.0 ==> RoundHalfEven((avg + 3.0) * 10.0) >= 100 by {
      if avg >= 7.0 { RoundMonotone(100.0, (avg + 3.0) * 10.0); }
    }
    ClampInt(0, 100, RoundHalfEven((avg + 3.0) * 10.0))
  }

  /** A higher average peer change never lowers the score. */
  lemma SectorScoreMonotone(a: real, b: real)
    requires a <= b
    ensures SectorScore(a) <= SectorScore(b)
  {
    RoundMonotone((a + 3.0) * 10.0, (b + 3.0) * 10.0);
  }

  /** A flat sector (average change 0) scores 30, not the 50 given when no peer could
      be read. */
  lemma FlatSectorScoresThirty()
    ensures SectorScore(0.0) == 30
  {
    assert (0.0 + 3.0) * 10.0 == 30.0;
  }

  datatype SectorSentiment = SectorSentiment(sector: string, score: int)

  /** What `get_sector_sentiment` returns for a symbol, given what each peer's download
      yields. */
  function SectorSentimentOf(symbol: string, fetch: string -> Download): (r: SectorSentiment)
    ensures 0 <= r.score <= 100
    ensures SectorOf(symbol).None? <==> r.sector == Unknown
    ensures SectorOf(symbol).None? ==> r.score == NeutralScore
    ensures SectorOf(symbol).Some? ==>
      var entry := SectorMap[SectorOf(symbol).value];
      var changes := PeerChanges(entry.1, fetch);
      && r.sector == entry.0
      && (|changes| == 0 ==> r.score == NeutralScore)
      && (|changes| > 0 ==> r.score == SectorScore(Mean(changes)))
  {
    match SectorOf(symbol)
    case None => SectorSentiment(Unknown, NeutralScore)
    case Some(i) =>
      var changes := PeerChanges(SectorMap[i].1, fetch);
      if |changes| == 0 then SectorSentiment(SectorMap[i].0, NeutralScore)
      else SectorSentiment(SectorMap[i].0, SectorScore(Mean(changes)))
  }

  /** `get_sector_sentiment`, with the downloads supplied by `fetch`. */
  method GetSectorSentiment(symbol: string, fetch: string -> Download) returns (r: SectorSentiment)
    ensures r == SectorSentimentOf(symbol, fetch)
  {
    var sector := FindSector(symbol);
    if sector.None? {
      return SectorSentiment(Unknown, NeutralScore);
    }
    var name := SectorMap[sector.value].0;
    var scores := PeerScores(SectorMap[sector.value].1, fetch);
    if |scores| == 0 {
      return SectorSentiment(name, NeutralScore);
    }
    r := SectorSentiment(name, SectorScore(Mean(scores)));
  }

  /** Upper-casing makes the lookup case-insensitive, and a listed peer always finds
      its own sector. */
  lemma LowerCaseSymbolFindsFinance()
    ensures SectorSentimentOf("bbri.jk", (s: string) => Raised) == SectorSentiment("Finance", NeutralScore)
  {
    assert Upper("bbri.jk") == "BBRI.JK";
    assert "BBRI.JK" in SectorMap[0].1;
  }

  // ---------------------------------------------------------------------------
  // Foreign flow and mood
  // ---------------------------------------------------------------------------

  /** `get_foreign_flow`: the EIDO change when defined, else the FXI change, else 0. */
  function ForeignFlow(eido: Download, fxi: Download): (r: real)
    ensures DailyChange(eido).Some? ==> r == DailyChange(eido).value
    ensures DailyChange(eido).None? && DailyChange(fxi).Some? ==> r == DailyChange(fxi).value
    ensures DailyChange(eido).None? && DailyChange(fxi).None? ==> r == 0.0
  {
    match DailyChange(eido)
    case Some(c) => c
    case None =>
      match DailyChange(fxi)
      case Some(c) => c
      case None => 0.0
  }

  const Bullish := "Bullish"
  const Bearish := "Bearish"
  const Neutral := "Neutral"

  /** `interpret_sentiment`: moves beyond one percent either way are a mood. */
  function InterpretSentiment(value: Option<real>): (m: string)
    ensures m == Unknown <==> value.None?
    ensures m == Bullish <==> value.Some? && value.value > 1.0
    ensures m == Bearish <==> value.Some? && value.value < -1.0
    ensures m == Neutral <==> value.Some? && -1.0 <= value.value <= 1.0
  {
    match value
    case None => Unknown
    case Some(v) => if v > 1.0 then Bullish else if v < -1.0 then Bearish else Neutral
  }

  /** With neither ETF readable the foreign flow reads neutral, never unknown. */
  lemma NoForeignDataIsNeutral(eido: Download, fxi: Download)
    requires DailyChange(eido).None? && DailyChange(fxi).None?
    ensures InterpretSentiment(Some(ForeignFlow(eido, fxi))) == Neutral
  {}
}
