/** The OHLCV column-name resolver shared by the dashboard's four normalisers: each
    standard field has an ordered list of lower-case aliases, the table's labels are
    looked up case-insensitively, and the first alias present wins. */
module Columns {
  import opened Common

  datatype Field = Open | High | Low | Close | Volume

  /** The order in which the alias table is walked. */
  const Fields: seq<Field> := [Open, High, Low, Close, Volume]

  function Aliases(f: Field): seq<string> {
    match f
    case Open => ["open", "o"]
    case High => ["high", "h"]
    case Low => ["low", "l"]
    case Close => ["close", "c", "price", "last"]
    case Volume => ["volume", "vol", "qty"]
  }

  /** The capitalised name a field is renamed to. */
  function StdName(f: Field): string {
    match f
    case Open => "Open"
    case High => "High"
    case Low => "Low"
    case Close => "Close"
    case Volume => "Volume"
  }

  /** Python's `repr` of a list of plain strings: `['a', 'b']`. */
  function ListRepr(items: seq<string>): (r: string)
    ensures |r| >= 2 && r[0] == '[' && r[|r| - 1] == ']'
    ensures |items| == 0 <==> r == "[]"
  { "[" + QuotedItems(items) + "]" }

  /** The quoted items separated by `, `; it is empty only for no items. */
  function QuotedItems(items: seq<string>): (r: string)
    ensures |items| == 0 <==> |r| == 0
    decreases |items|
  {
    if |items| == 0 then ""
    else if |items| == 1 then "'" + items[0] + "'"
    else QuotedItems(items[..|items| - 1]) + ", '" + items[|items| - 1] + "'"
  }

  function StdNames(fs: seq<Field>): (r: seq<string>)
    ensures |r| == |fs| && forall i :: 0 <= i < |fs| ==> r[i] == StdName(fs[i])
  { seq(|fs|, i requires 0 <= i < |fs| => StdName(fs[i])) }

  /** The dictionary `{c.lower(): c for c in columns}`, read at `key`: later columns
      overwrite earlier ones, so it is the last column whose lower-cased label is `key`. */
  function LastLower(columns: seq<string>, key: string): (r: Option<nat>)
    ensures r.Some? ==> r.value < |columns| && Lower(columns[r.value]) == key
    ensures r.Some? ==> forall j :: r.value < j < |columns| ==> Lower(columns[j]) != key
    ensures r.None? ==> forall j :: 0 <= j < |columns| ==> Lower(columns[j]) != key
    decreases |columns|
  {
    if |columns| == 0 then None
    else if Lower(columns[|columns| - 1]) == key then Some(|columns| - 1)
    else LastLower(columns[..|columns| - 1], key)
  }

  /** Position of the first alias that some label lower-cases to. */
  function FirstAliasPos(columns: seq<string>, aliases: seq<string>): (r: Option<nat>)
    ensures r.Some? ==> r.value < |aliases| && LastLower(columns, aliases[r.value]).Some?
    ensures r.Some? ==> forall q :: 0 <= q < r.value ==> LastLower(columns, aliases[q]).None?
    ensures r.None? ==> forall q :: 0 <= q < |aliases| ==> LastLower(columns, aliases[q]).None?
  {
    if |aliases| == 0 then None
    else if LastLower(columns, aliases[0]).Some? then Some(0)
    else match FirstAliasPos(columns, aliases[1..])
      case None => None
      case Some(k) => Some(k + 1)
  }

  /** The column chosen for `f`, if any alias of it is present. */
  function Lookup(columns: seq<string>, f: Field): (r: Option<nat>)
    ensures r.Some? ==> r.value < |columns|
  {
    match FirstAliasPos(columns, Aliases(f))
    case None => None
    case Some(k) => LastLower(columns, Aliases(f)[k])
  }

  /** The map the nested alias loop holds after visiting the fields `fs`. */
  function MapFields(columns: seq<string>, fs: seq<Field>): (m: map<Field, nat>)
    ensures forall f :: f in m <==> f in fs && Lookup(columns, f).Some?
    ensures forall f :: f in m ==> Lookup(columns, f) == Some(m[f])
    decreases |fs|
  {
    if |fs| == 0 then map[]
    else
      var f := fs[|fs| - 1];
      var m := MapFields(columns, fs[..|fs| - 1]);
      match Lookup(columns, f)
      case None => m
      case Some(c) => m[f := c]
  }

  /** The resolved field-to-column map of a header. */
  function ColumnMap(columns: seq<string>): (m: map<Field, nat>)
    ensures forall f :: f in m ==> m[f] < |columns|
  {
    MapFields(columns, Fields)
  }

  /** The nested alias loop: for each standard field, the first alias found among the
      lower-cased labels is recorded and the search for that field stops. */
  method ResolveColumns(columns: seq<string>) returns (colMap: map<Field, nat>)
    ensures colMap == ColumnMap(columns)
  {
    colMap := map[];
    var i := 0;
    while i < |Fields|
      invariant 0 <= i <= |Fields|
      invariant colMap == MapFields(columns, Fields[..i])
    {
      var std := Fields[i];
      var poss := Aliases(std);
      var found := FindAlias(columns, poss);
      if found.Some? {
        colMap := colMap[std := found.value];
      }
      MapFieldsSnoc(columns, Fields, i);
      i := i + 1;
    }
    assert Fields[..|Fields|] == Fields;
  }

  /** The inner alias loop for one field: the column of the first alias present. */
  method FindAlias(columns: seq<string>, poss: seq<string>) returns (found: Option<nat>)
    ensures found == match FirstAliasPos(columns, poss)
                     case None => None
                     case Some(k) => LastLower(columns, poss[k])
  {
    found := None;
    var j := 0;
    while j < |poss|
      invariant 0 <= j <= |poss|
      invariant forall q :: 0 <= q < j ==> LastLower(columns, poss[q]).None?
    {
      var hit := LastLower(columns, poss[j]);
      if hit.Some? {
        AliasFoundAt(columns, poss, j);
        found := hit;
        return;
      }
      j := j + 1;
    }
  }

  lemma MapFieldsSnoc(columns: seq<string>, fs: seq<Field>, i: nat)
    requires i < |fs|
    ensures MapFields(columns, fs[..i + 1]) ==
      match Lookup(columns, fs[i])
      case None => MapFields(columns, fs[..i])
      case Some(c) => MapFields(columns, fs[..i])[fs[i] := c]
  {
    assert fs[..i + 1][..i] == fs[..i];
  }

  lemma {:induction false} AliasFoundAt(columns: seq<string>, aliases: seq<string>, j: nat)
    requires j < |aliases| && LastLower(columns, aliases[j]).Some?
    requires forall q :: 0 <= q < j ==> LastLower(columns, aliases[q]).None?
    ensures FirstAliasPos(columns, aliases) == Some(j)
  {
    if j > 0 {
      AliasFoundAt(columns, aliases[1..], j - 1);
    }
  }

  /** The first-alias search, restated over labels: it hits exactly when some alias is
      some label lower-cased, and then no earlier alias is. */
  lemma AliasHits(columns: seq<string>, al: seq<string>)
    ensures FirstAliasPos(columns, al).Some? <==>
      exists q, j :: 0 <= q < |al| && 0 <= j < |columns| && Lower(columns[j]) == al[q]
    ensures FirstAliasPos(columns, al).Some? ==>
      var k := FirstAliasPos(columns, al).value;
      forall p, j :: 0 <= p < k && 0 <= j < |columns| ==> Lower(columns[j]) != al[p]
  {
    match FirstAliasPos(columns, al)
    case None =>
      forall q, j | 0 <= q < |al| && 0 <= j < |columns| ensures Lower(columns[j]) != al[q] {
        assert LastLower(columns, al[q]).None?;
      }
    case Some(k) =>
      var c := LastLower(columns, al[k]).value;
      assert Lower(columns[c]) == al[k];
      forall p, j | 0 <= p < k && 0 <= j < |columns| ensures Lower(columns[j]) != al[p] {
        assert LastLower(columns, al[p]).None?;
      }
  }

  /** A field resolves exactly when one of its aliases equals some label lower-cased.
      It then resolves to a column labelled by the first such alias in list order, and
      to the last column carrying that label. */
  lemma ColumnMapResolves(columns: seq<string>, f: Field)
    ensures f in ColumnMap(columns) <==>
      exists q, j :: 0 <= q < |Aliases(f)| && 0 <= j < |columns| && Lower(columns[j]) == Aliases(f)[q]
    ensures f in ColumnMap(columns) ==>
      var c := ColumnMap(columns)[f];
      exists q :: 0 <= q < |Aliases(f)| && Lower(columns[c]) == Aliases(f)[q] &&
        (forall p, j :: 0 <= p < q && 0 <= j < |columns| ==> Lower(columns[j]) != Aliases(f)[p]) &&
        (forall j :: c < j < |columns| ==> Lower(columns[j]) != Aliases(f)[q])
  {
    var al := Aliases(f);
    assert f in Fields;
    assert f in ColumnMap(columns) <==> FirstAliasPos(columns, al).Some?;
    AliasHits(columns, al);
    if f in ColumnMap(columns) {
      var k := FirstAliasPos(columns, al).value;
      assert ColumnMap(columns)[f] == LastLower(columns, al[k]).value;
    }
  }

  /** Every field's first alias is its own name lower-cased, so a column already
      carrying the standard name is the one chosen for that field. */
  lemma StandardLabelResolves(columns: seq<string>, f: Field, j: nat)
    requires j < |columns| && columns[j] == StdName(f)
    requires forall i, k :: 0 <= i < k < |columns| ==> Lower(columns[i]) != Lower(columns[k])
    ensures f in ColumnMap(columns) && ColumnMap(columns)[f] == j
  {
    var a := Aliases(f)[0];
    assert Lower(columns[j]) == a by {
      match f
      case Open => assert Lower("Open") == "open";
      case High => assert Lower("High") == "high";
      case Low => assert Lower("Low") == "low";
      case Close => assert Lower("Close") == "close";
      case Volume => assert Lower("Volume") == "volume";
    }
    var hit := LastLower(columns, a);
    assert hit.Some?;
    assert Lower(columns[hit.value]) == Lower(columns[j]);
    assert hit.value == j;
    assert FirstAliasPos(columns, Aliases(f)) == Some(0);
    assert f in Fields;
  }

  // ---------------------------------------------------------------------------
  // Reading a table through a resolved column map
  // ---------------------------------------------------------------------------

  /** Columns found under their exact standard label (`col in df.columns`). */
  function ExactColumns(columns: seq<string>): (m: map<Field, nat>)
    ensures forall f :: f in m <==> StdName(f) in columns
    ensures forall f :: f in m ==> m[f] < |columns| && columns[m[f]] == StdName(f)
  {
    map f | f in Fields && IndexOf(columns, StdName(f)).Some? :: IndexOf(columns, StdName(f)).value
  }

  /** One row seen through the standard names; NaN where the value is missing or the
      field has no column. */
  datatype Bar = Bar(open: Option<real>, high: Option<real>, low: Option<real>,
                     close: Option<real>, volume: Option<real>)

  function FieldOf(b: Bar, f: Field): Option<real> {
    match f
    case Open => b.open
    case High => b.high
    case Low => b.low
    case Close => b.close
    case Volume => b.volume
  }

  /** The columns of a run of bars, one series per field; `Ranges` is `High - Low`. */
  function Closes(bars: seq<Bar>): (r: seq<Option<real>>)
    ensures |r| == |bars| && forall i :: 0 <= i < |bars| ==> r[i] == bars[i].close
  { seq(|bars|, i requires 0 <= i < |bars| => bars[i].close) }

  function Volumes(bars: seq<Bar>): (r: seq<Option<real>>)
    ensures |r| == |bars| && forall i :: 0 <= i < |bars| ==> r[i] == bars[i].volume
  { seq(|bars|, i requires 0 <= i < |bars| => bars[i].volume) }

  function Lows(bars: seq<Bar>): (r: seq<Option<real>>)
    ensures |r| == |bars| && forall i :: 0 <= i < |bars| ==> r[i] == bars[i].low
  { seq(|bars|, i requires 0 <= i < |bars| => bars[i].low) }

  function Highs(bars: seq<Bar>): (r: seq<Option<real>>)
    ensures |r| == |bars| && forall i :: 0 <= i < |bars| ==> r[i] == bars[i].high
  { seq(|bars|, i requires 0 <= i < |bars| => bars[i].high) }

  function Ranges(bars: seq<Bar>): (r: seq<Option<real>>)
    ensures |r| == |bars| && forall i :: 0 <= i < |bars| ==> r[i] == Sub(bars[i].high, bars[i].low)
  { seq(|bars|, i requires 0 <= i < |bars| => Sub(bars[i].high, bars[i].low)) }

  function CellOf(t: Table, m: map<Field, nat>, i: nat, f: Field): (r: Option<real>)
    requires i < |t.rows| && forall g :: g in m ==> m[g] < |t.columns|
    ensures f !in m ==> r == None
  { if f in m then t.rows[i][m[f]] else None }

  /** The frame after renaming: row `i` read through the columns chosen for each field. */
  function ReadBars(t: Table, m: map<Field, nat>): (bars: seq<Bar>)
    requires forall g :: g in m ==> m[g] < |t.columns|
    ensures |bars| == |t.rows|
    ensures forall i, f :: 0 <= i < |bars| ==> FieldOf(bars[i], f) == CellOf(t, m, i, f)
  {
    seq(|t.rows|, i requires 0 <= i < |t.rows| =>
      Bar(CellOf(t, m, i, Open), CellOf(t, m, i, High), CellOf(t, m, i, Low),
          CellOf(t, m, i, Close), CellOf(t, m, i, Volume)))
  }

  /** The fields among `fs` that the map does not resolve, in the order of `fs`. */
  function MissingOf(m: map<Field, nat>, fs: seq<Field>): (r: seq<Field>)
    ensures forall f :: f in r <==> f in fs && f !in m
    ensures |r| == 0 <==> forall f :: f in fs ==> f in m
  {
    if |fs| == 0 then []
    else (if fs[0] in m then [] else [fs[0]]) + MissingOf(m, fs[1..])
  }

  /** The position in `fs` of the first field the map does not resolve: the field a
      check that walks `fs` in order and raises on the first gap reports. */
  function FirstMissing(m: map<Field, nat>, fs: seq<Field>): (r: Option<nat>)
    ensures r.None? <==> forall f :: f in fs ==> f in m
    ensures r.Some? ==> r.value < |fs| && fs[r.value] !in m
    ensures r.Some? ==> forall k :: 0 <= k < r.value ==> fs[k] in m
  {
    if |fs| == 0 then None
    else if fs[0] !in m then Some(0)
    else match FirstMissing(m, fs[1..])
      case None => None
      case Some(k) => Some(k + 1)
  }

  /** A field's position in the walk order of `Fields`. */
  function FieldRank(f: Field): (k: nat)
    ensures k < |Fields| && Fields[k] == f
  {
    match f
    case Open => 0
    case High => 1
    case Low => 2
    case Close => 3
    case Volume => 4
  }

  /** The field the fail-safe loop raises on: the first one, in walk order, that the
      column map leaves unresolved. */
  function FirstGap(m: map<Field, nat>): (r: Option<Field>)
    ensures r.None? <==> forall f :: f in Fields ==> f in m
    ensures r.Some? ==> r.value !in m
    ensures r.Some? ==> forall g :: FieldRank(g) < FieldRank(r.value) ==> g in m
  {
    match FirstMissing(m, Fields)
    case None => None
    case Some(k) =>
      forall g | FieldRank(g) < k ensures g in m {
        assert Fields[FieldRank(g)] in m;
      }
      Some(Fields[k])
  }

  predicate HasOpenClose(b: Bar) { b.open.Some? && b.close.Some? }

  datatype Normalized = Candles(bars: seq<Bar>) | MissingColumn(field: Field)

  /** The strict normalisation tail: raise on the first of Open, High, Low, Close,
      Volume that the map leaves unresolved, otherwise drop the rows whose open or
      close is NaN. */
  function RequireAllThenDrop(t: Table, m: map<Field, nat>): (r: Normalized)
    requires forall g :: g in m ==> m[g] < |t.columns|
    ensures r.MissingColumn? <==> exists f :: f in Fields && f !in m
    ensures r.MissingColumn? ==> r.field !in m && forall g :: FieldRank(g) < FieldRank(r.field) ==> g in m
    ensures r.Candles? ==> r.bars == KeepWhere(ReadBars(t, m), HasOpenClose)
    ensures r.Candles? ==> |r.bars| <= |t.rows| && forall i :: 0 <= i < |r.bars| ==> HasOpenClose(r.bars[i])
    ensures r.Candles? ==> forall i :: 0 <= i < |t.rows| && CellOf(t, m, i, Open).Some? && CellOf(t, m, i, Close).Some? ==>
      ReadBars(t, m)[i] in r.bars
  {
    match FirstGap(m)
    case Some(f) => MissingColumn(f)
    case None =>
      KeepWhereMembers(ReadBars(t, m), HasOpenClose);
      Candles(KeepWhere(ReadBars(t, m), HasOpenClose))
  }
}
