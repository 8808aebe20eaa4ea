/** The ingestion rules shared by ManoDataDocumentSO.ParseGoogleSheet and
    GameDataDocumentSO.ParseGoogleSheet, stated as functions: a value range is a
    grid of text cells whose row 0 holds the column names, row 1 the type tags
    and rows 2.. the data. Each data row either starts a logical row or
    continues the last one, whose values then grow by "|" + value. */
module Ingestion {
  import opened DataModel
  import opened Strings

  type Grid = seq<seq<string>>

  /** A cell of a data row; a row shorter than the schema reads "" past its end. */
  function Cell(r: seq<string>, c: int): string
  {
    if 0 <= c < |r| then r[c] else ""
  }

  /** Column c of the schema: a header cell with no type cell is a "string" column. */
  function ColumnAt(names: seq<string>, types: seq<string>, c: int): Column
    requires 0 <= c < |names|
  {
    Column(names[c], if c < |types| then types[c] else "string")
  }

  function SchemaOf(names: seq<string>, types: seq<string>): seq<Column>
  {
    seq(|names|, c requires 0 <= c < |names| => ColumnAt(names, types, c))
  }

  function NameSet(names: seq<string>): set<string>
  {
    set c | 0 <= c < |names| :: names[c]
  }

  predicate Distinct(names: seq<string>)
  {
    forall i, j :: 0 <= i < j < |names| ==> names[i] != names[j]
  }

  /** The state of the row loop: the id of the last logical row started, the
      carry-forward buffer (one slot per column) and the rows built so far. */
  datatype Scan = Scan(lastId: string, lastValues: seq<string>, rows: seq<Row>)

  /** A data row starts a new logical row iff its first cell is non-empty and
      differs from the id of the last logical row. */
  predicate StartsRow(r: seq<string>, lastId: string)
  {
    |r| > 0 && r[0] != "" && r[0] != lastId
  }

  /** The value map of a new logical row after its first n columns. */
  function NewRowValues(names: seq<string>, r: seq<string>, n: nat): map<string, string>
    requires n <= |names|
  {
    if n == 0 then map[] else NewRowValues(names, r, n - 1)[names[n - 1] := Cell(r, n - 1)]
  }

  /** The value a continuation row contributes to column c: its own cell when
      non-empty, otherwise the carried-forward value. */
  function Carried(lastValues: seq<string>, r: seq<string>, c: int): string
    requires 0 <= c < |lastValues|
  {
    if Cell(r, c) != "" then Cell(r, c) else lastValues[c]
  }

  function ValueOf(m: map<string, string>, k: string): string
  {
    if k in m then m[k] else ""
  }

  /** The value map of the open logical row after a continuation row has been
      folded into its first n columns. */
  function Appended(names: seq<string>, m: map<string, string>, lastValues: seq<string>, r: seq<string>, n: nat): map<string, string>
    requires n <= |names| <= |lastValues|
  {
    if n == 0 then m
    else
      var m' := Appended(names, m, lastValues, r, n - 1);
      m'[names[n - 1] := ValueOf(m', names[n - 1]) + "|" + Carried(lastValues, r, n - 1)]
  }

  function NextLastValues(lastValues: seq<string>, r: seq<string>): seq<string>
  {
    seq(|lastValues|, c requires 0 <= c < |lastValues| => Carried(lastValues, r, c))
  }

  /** The carried-forward values after the first n columns of a continuation
      row have been read: columns before n carried, the rest as they were. */
  function CarriedUpTo(lastValues: seq<string>, r: seq<string>, n: nat): (lv: seq<string>)
    requires n <= |lastValues|
    ensures |lv| == |lastValues|
    ensures n == 0 ==> lv == lastValues
    ensures n == |lastValues| ==> lv == NextLastValues(lastValues, r)
  {
    seq(|lastValues|, c requires 0 <= c < |lastValues| => if c < n then Carried(lastValues, r, c) else lastValues[c])
  }

  /** Reading column n carries that column and nothing else. */
  lemma CarriedUpToNext(lastValues: seq<string>, r: seq<string>, n: nat)
    requires n < |lastValues|
    ensures CarriedUpTo(lastValues, r, n + 1) == CarriedUpTo(lastValues, r, n)[n := Carried(lastValues, r, n)]
  {
  }

  /** One data row. Rows with no cells are skipped; a continuation row with no
      logical row open is dropped. */
  function Step(names: seq<string>, s: Scan, r: seq<string>): Scan
    requires |s.lastValues| == |names|
  {
    if |r| == 0 then s
    else if StartsRow(r, s.lastId) then
      Scan(r[0], seq(|names|, c => Cell(r, c)), s.rows + [Row(r[0], NewRowValues(names, r, |names|))])
    else if s.rows != [] then
      var last := s.rows[|s.rows| - 1];
      Scan(s.lastId, NextLastValues(s.lastValues, r),
           s.rows[..|s.rows| - 1] + [Row(last.id, Appended(names, last.values, s.lastValues, r, |names|))])
    else s
  }

  function InitialScan(names: seq<string>): Scan
  {
    Scan("", seq(|names|, _ => ""), [])
  }

  /** The row loop from a given state over the data rows, left to right. */
  function FoldFrom(names: seq<string>, s: Scan, data: Grid): (r: Scan)
    requires |s.lastValues| == |names|
    ensures |r.lastValues| == |names|
  {
    if data == [] then s else Step(names, FoldFrom(names, s, data[..|data| - 1]), data[|data| - 1])
  }

  function Fold(names: seq<string>, data: Grid): (r: Scan)
    ensures |r.lastValues| == |names|
  {
    FoldFrom(names, InitialScan(names), data)
  }

  /** Folding one more data row is one more Step. */
  lemma FoldSnoc(names: seq<string>, data: Grid, r: seq<string>)
    ensures Fold(names, data + [r]) == Step(names, Fold(names, data), r)
  {
    assert (data + [r])[..|data|] == data;
  }

  /** The table ParseGoogleSheet builds from a value range, if any. */
  function SheetTable(name: string, values: Grid): Option<Table>
  {
    if |values| < 2 then None
    else Some(NewTable(name, "Default").(schema := SchemaOf(values[0], values[1]), rows := Fold(values[0], values[2..]).rows))
  }

  // ---------------------------------------------------------------------
  // The payload of LoadDataFromJSON, already parsed.

  /** One entry of "valueRanges": the range string and its grid ("values"
      absent reads as an empty grid). */
  datatype ValueRange = ValueRange(range: string, values: Grid)

  /** What the parsed payload holds: a "valueRanges" batch, a bare "values"
      grid, or neither key. */
  datatype Envelope = Batch(valueRanges: seq<ValueRange>) | Single(values: Grid) | Unrecognised

  /** rawJson: null or empty, text that does not parse, or a parsed payload. */
  datatype RawJson = Missing | Malformed | Parsed(envelope: Envelope)

  /** The table name of a range: the text before the first '!', quotes removed. */
  function SheetNameOf(range: string): string
  {
    RemoveChar(BeforeFirst(range, '!'), '\'')
  }

  function Listed(t: Option<Table>): seq<Table>
  {
    if t.Some? then [t.value] else []
  }

  function BatchTables(ranges: seq<ValueRange>): seq<Table>
  {
    if ranges == [] then []
    else
      var last := ranges[|ranges| - 1];
      BatchTables(ranges[..|ranges| - 1]) + Listed(SheetTable(SheetNameOf(last.range), last.values))
  }

  function EnvelopeTables(e: Envelope): seq<Table>
  {
    match e
    case Batch(rs) => BatchTables(rs)
    case Single(v) => Listed(SheetTable("ImportedSheet", v))
    case Unrecognised => []
  }

  /** The document after LoadDataFromJSON: unchanged when rawJson is missing or
      does not parse, otherwise rebuilt from the payload alone. */
  function Reloaded(doc: Option<Document>, raw: RawJson, now: string): Option<Document>
  {
    if raw.Parsed? then Some(Document(EnvelopeTables(raw.envelope), ["Default"], now)) else doc
  }

  // ---------------------------------------------------------------------
  // What the rules guarantee.

  lemma {:induction false} NewRowValuesKeys(names: seq<string>, r: seq<string>, n: nat)
    requires n <= |names|
    ensures NewRowValues(names, r, n).Keys == set c | 0 <= c < n :: names[c]
  {
    if n > 0 {
      NewRowValuesKeys(names, r, n - 1);
      var prev := set c | 0 <= c < n - 1 :: names[c];
      var here := set c | 0 <= c < n :: names[c];
      assert here == prev + {names[n - 1]};
    }
  }

  /** With distinct column names, a new row holds cell c under column c's name. */
  lemma {:induction false} NewRowValuesAt(names: seq<string>, r: seq<string>, n: nat, c: int)
    requires n <= |names| && Distinct(names) && 0 <= c < n
    ensures names[c] in NewRowValues(names, r, n)
    ensures NewRowValues(names, r, n)[names[c]] == Cell(r, c)
  {
    if c < n - 1 {
      NewRowValuesAt(names, r, n - 1, c);
    }
  }

  lemma {:induction false} AppendedKeys(names: seq<string>, m: map<string, string>, lastValues: seq<string>, r: seq<string>, n: nat)
    requires n <= |names| <= |lastValues|
    requires forall c :: 0 <= c < n ==> names[c] in m
    ensures Appended(names, m, lastValues, r, n).Keys == m.Keys
  {
    if n > 0 {
      AppendedKeys(names, m, lastValues, r, n - 1);
    }
  }

  /** With distinct column names, a continuation row appends "|" + its carried
      value to column c, whatever the other columns do. */
  lemma {:induction false} AppendedAt(names: seq<string>, m: map<string, string>, lastValues: seq<string>, r: seq<string>, n: nat, c: int)
    requires n <= |names| <= |lastValues| && Distinct(names) && 0 <= c < n
    ensures names[c] in Appended(names, m, lastValues, r, n)
    ensures Appended(names, m, lastValues, r, n)[names[c]] == ValueOf(m, names[c]) + "|" + Carried(lastValues, r, c)
  {
    if c < n - 1 {
      AppendedAt(names, m, lastValues, r, n - 1, c);
    } else {
      AppendedUntouched(names, m, lastValues, r, n - 1, names[c]);
    }
  }

  lemma {:induction false} AppendedUntouched(names: seq<string>, m: map<string, string>, lastValues: seq<string>, r: seq<string>, n: nat, k: string)
    requires n <= |names| <= |lastValues|
    requires forall c :: 0 <= c < n ==> names[c] != k
    ensures ValueOf(Appended(names, m, lastValues, r, n), k) == ValueOf(m, k)
  {
    if n > 0 {
      AppendedUntouched(names, m, lastValues, r, n - 1, k);
    }
  }

  /** The shape every scan keeps: each row's keys are exactly the column names,
      ids are non-empty, adjacent rows have different ids and lastId is the id
      of the last row ("" before any). */
  predicate Shaped(names: seq<string>, s: Scan)
  {
    && (s.rows == [] ==> s.lastId == "")
    && (s.rows != [] ==> s.lastId == s.rows[|s.rows| - 1].id)
    && (forall k :: 0 <= k < |s.rows| ==> s.rows[k].id != "" && s.rows[k].values.Keys == NameSet(names))
    && (forall k :: 0 <= k < |s.rows| - 1 ==> s.rows[k].id != s.rows[k + 1].id)
  }

  /** One data row keeps the shape. */
  lemma StepShaped(names: seq<string>, s: Scan, r: seq<string>)
    requires |s.lastValues| == |names| && Shaped(names, s)
    ensures Shaped(names, Step(names, s, r))
  {
    if |r| > 0 && StartsRow(r, s.lastId) {
      StartShaped(names, s, r);
    } else if |r| > 0 && s.rows != [] {
      ContinueShaped(names, s, r);
    }
  }

  lemma StartShaped(names: seq<string>, s: Scan, r: seq<string>)
    requires |s.lastValues| == |names| && Shaped(names, s) && StartsRow(r, s.lastId)
    ensures Shaped(names, Step(names, s, r))
  {
    NewRowValuesKeys(names, r, |names|);
    var rows := Step(names, s, r).rows;
    assert rows == s.rows + [Row(r[0], NewRowValues(names, r, |names|))];
    assert forall k :: 0 <= k < |s.rows| ==> rows[k] == s.rows[k];
  }

  lemma ContinueShaped(names: seq<string>, s: Scan, r: seq<string>)
    requires |s.lastValues| == |names| && Shaped(names, s) && |r| > 0 && !StartsRow(r, s.lastId) && s.rows != []
    ensures Shaped(names, Step(names, s, r))
  {
    var n := |s.rows| - 1;
    var last := s.rows[n];
    AppendedKeys(names, last.values, s.lastValues, r, |names|);
    var rows := Step(names, s, r).rows;
    assert rows == s.rows[..n] + [Row(last.id, Appended(names, last.values, s.lastValues, r, |names|))];
    assert forall k :: 0 <= k < n ==> rows[k] == s.rows[k];
  }

  lemma {:induction false} ScanShape(names: seq<string>, data: Grid)
    ensures Shaped(names, Fold(names, data))
  {
    if data != [] {
      var pre := data[..|data| - 1];
      var r := data[|data| - 1];
      ScanShape(names, pre);
      assert pre + [r] == data;
      FoldSnoc(names, pre, r);
      StepShaped(names, Fold(names, pre), r);
    }
  }

  /** lastId is the id of the last row, or "" before any row. */
  lemma FoldLastId(names: seq<string>, data: Grid)
    ensures var s := Fold(names, data);
      (s.rows == [] ==> s.lastId == "") && (s.rows != [] ==> s.lastId == s.rows[|s.rows| - 1].id)
  {
    ScanShape(names, data);
  }

  /** The logical row holds exactly the cells of data row r, under its id. */
  predicate RowOf(names: seq<string>, row: Row, r: seq<string>)
    requires |r| > 0
  {
    row.id == r[0] &&
    forall c :: 0 <= c < |names| ==> names[c] in row.values && row.values[names[c]] == Cell(r, c)
  }

  /** A data row that starts a logical row appends one row holding its cells. */
  lemma StartStep(names: seq<string>, s: Scan, r: seq<string>)
    requires Distinct(names) && |s.lastValues| == |names| && StartsRow(r, s.lastId)
    ensures var s' := Step(names, s, r);
      |s'.rows| == |s.rows| + 1 && s'.rows[..|s.rows|] == s.rows && s'.lastId == r[0] &&
      RowOf(names, s'.rows[|s.rows|], r)
  {
    var s' := Step(names, s, r);
    assert s'.rows == s.rows + [Row(r[0], NewRowValues(names, r, |names|))];
    forall c | 0 <= c < |names|
      ensures names[c] in NewRowValues(names, r, |names|) && NewRowValues(names, r, |names|)[names[c]] == Cell(r, c)
    {
      NewRowValuesAt(names, r, |names|, c);
    }
  }

  /** Every data row carries a non-empty id in its first cell. */
  predicate Keyed(data: Grid)
  {
    forall k :: 0 <= k < |data| ==> |data[k]| > 0 && data[k][0] != ""
  }

  /** No data row repeats the id of the row before it. */
  predicate NoRepeat(data: Grid)
    requires Keyed(data)
  {
    forall k :: 0 < k < |data| ==> data[k][0] != data[k - 1][0]
  }

  /** Each of the rows holds exactly the cells of the data row at its place. */
  predicate RowsOf(names: seq<string>, rows: seq<Row>, data: Grid)
    requires Keyed(data)
  {
    |rows| == |data| && forall k :: 0 <= k < |data| ==> RowOf(names, rows[k], data[k])
  }

  /** The conditions on a grid hold for each of its prefixes. */
  lemma KeyedPrefix(data: Grid, n: nat)
    requires Keyed(data) && NoRepeat(data) && n <= |data|
    ensures Keyed(data[..n]) && NoRepeat(data[..n])
  {
  }

  /** One more data row with a fresh id adds one more row holding its cells. */
  lemma OneRowStep(names: seq<string>, s0: Scan, pre: Grid, r: seq<string>)
    requires Distinct(names) && |s0.lastValues| == |names| && Keyed(pre) && |r| > 0 && r[0] != ""
    requires s0.rows == [] ==> s0.lastId == ""
    requires s0.rows != [] ==> s0.lastId == s0.rows[|s0.rows| - 1].id
    requires pre != [] ==> r[0] != pre[|pre| - 1][0]
    requires RowsOf(names, s0.rows, pre)
    ensures Keyed(pre + [r]) && RowsOf(names, Step(names, s0, r).rows, pre + [r])
  {
    var n := |pre|;
    assert StartsRow(r, s0.lastId) by {
      if n > 0 {
        assert RowOf(names, s0.rows[n - 1], pre[n - 1]);
      }
    }
    StartStep(names, s0, r);
    var rows := Step(names, s0, r).rows;
    forall k | 0 <= k < n + 1
      ensures RowOf(names, rows[k], (pre + [r])[k])
    {
      if k < n {
        assert rows[k] == s0.rows[k];
        assert RowOf(names, s0.rows[k], pre[k]);
      }
    }
  }

  /** A grid whose data rows all carry an id, with no id repeated on the next
      row, gives one logical row per data row holding exactly its cells. */
  lemma {:induction false} OneRowPerDataRow(names: seq<string>, data: Grid)
    requires Distinct(names) && Keyed(data) && NoRepeat(data)
    ensures var rows := Fold(names, data).rows;
      |rows| == |data| && forall k :: 0 <= k < |data| ==> RowOf(names, rows[k], data[k])
  {
    if data != [] {
      var n := |data| - 1;
      var pre, r := data[..n], data[n];
      KeyedPrefix(data, n);
      OneRowPerDataRow(names, pre);
      FoldLastId(names, pre);
      assert pre + [r] == data;
      FoldSnoc(names, pre, r);
      OneRowStep(names, Fold(names, pre), pre, r);
    }
  }

  /** The folding of a grid split in two is the folding of the second part
      from the state the first part leaves. */
  lemma {:induction false} FoldFromAppend(names: seq<string>, s: Scan, a: Grid, b: Grid)
    requires |s.lastValues| == |names|
    ensures FoldFrom(names, s, a + b) == FoldFrom(names, FoldFrom(names, s, a), b)
  {
    if b != [] {
      FoldFromAppend(names, s, a, b[..|b| - 1]);
      assert (a + b)[..|a + b| - 1] == a + b[..|b| - 1];
    } else {
      assert a + b == a;
    }
  }

  /** Rows that cannot start a logical row, arriving before any has started,
      leave no trace: the scan after them is the initial one. */
  lemma {:induction false} OrphansDropped(names: seq<string>, orphans: Grid, rest: Grid)
    requires forall k :: 0 <= k < |orphans| ==> |orphans[k]| == 0 || orphans[k][0] == ""
    ensures Fold(names, orphans + rest) == Fold(names, rest)
  {
    OrphansLeaveInitial(names, orphans);
    FoldFromAppend(names, InitialScan(names), orphans, rest);
  }

  lemma {:induction false} OrphansLeaveInitial(names: seq<string>, orphans: Grid)
    requires forall k :: 0 <= k < |orphans| ==> |orphans[k]| == 0 || orphans[k][0] == ""
    ensures Fold(names, orphans) == InitialScan(names)
  {
    if orphans != [] {
      OrphansLeaveInitial(names, orphans[..|orphans| - 1]);
    }
  }

  /** The values column c takes over a logical row made of a starting row and
      its continuation rows: the starting cell, then for each continuation
      row its own cell when non-empty, else the previous value again. */
  function Trail(start: seq<string>, conts: Grid, c: int): (t: seq<string>)
    ensures |t| == |conts| + 1
  {
    if conts == [] then [Cell(start, c)]
    else
      var p := Trail(start, conts[..|conts| - 1], c);
      var x := Cell(conts[|conts| - 1], c);
      p + [if x != "" then x else p[|p| - 1]]
  }

  /** A data row continues the logical row `id`: it has cells and its first
      cell is empty or repeats the id. */
  predicate Continues(r: seq<string>, id: string)
  {
    |r| > 0 && (r[0] == "" || r[0] == id)
  }

  /** A starting row followed by continuation rows becomes one logical row
      whose column c holds the "|"-join of Trail(start, conts, c), while its id
      stays the starting row's first cell. */
  lemma {:induction false} MergedRow(names: seq<string>, pre: Grid, start: seq<string>, conts: Grid)
    requires Distinct(names)
    requires StartsRow(start, Fold(names, pre).lastId)
    requires forall j :: 0 <= j < |conts| ==> Continues(conts[j], start[0])
    ensures var before := Fold(names, pre).rows;
      var rows := Fold(names, pre + [start] + conts).rows;
      && |rows| == |before| + 1
      && rows[..|before|] == before
      && rows[|before|].id == start[0]
      && rows[|before|].values.Keys == NameSet(names)
      && forall c :: 0 <= c < |names| ==>
           names[c] in rows[|before|].values && rows[|before|].values[names[c]] == Join("|", Trail(start, conts, c))
  {
    MergedScan(names, pre, start, conts);
  }

  /** The scan right after a starting row and some of its continuation rows. */
  predicate Merged(names: seq<string>, before: seq<Row>, start: seq<string>, conts: Grid, s: Scan)
    requires |start| > 0
  {
    && s.lastId == start[0]
    && |s.lastValues| == |names|
    && (forall c :: 0 <= c < |names| ==> s.lastValues[c] == Trail(start, conts, c)[|conts|])
    && |s.rows| == |before| + 1
    && s.rows[..|before|] == before
    && s.rows[|before|].id == start[0]
    && s.rows[|before|].values.Keys == NameSet(names)
    && forall c :: 0 <= c < |names| ==> s.rows[|before|].values[names[c]] == Join("|", Trail(start, conts, c))
  }

  lemma MergedBase(names: seq<string>, s0: Scan, start: seq<string>)
    requires Distinct(names) && |s0.lastValues| == |names|
    requires StartsRow(start, s0.lastId)
    ensures Merged(names, s0.rows, start, [], Step(names, s0, start))
  {
    NewRowValuesKeys(names, start, |names|);
    forall c | 0 <= c < |names|
      ensures NewRowValues(names, start, |names|)[names[c]] == Join("|", Trail(start, [], c))
    {
      NewRowValuesAt(names, start, |names|, c);
    }
  }

  lemma MergedStep(names: seq<string>, before: seq<Row>, start: seq<string>, conts: Grid, s: Scan, r: seq<string>)
    requires Distinct(names) && |start| > 0
    requires Merged(names, before, start, conts, s)
    requires Continues(r, start[0])
    ensures Merged(names, before, start, conts + [r], Step(names, s, r))
  {
    var last := s.rows[|s.rows| - 1];
    var s' := Step(names, s, r);
    assert s' == Scan(s.lastId, NextLastValues(s.lastValues, r),
                      s.rows[..|s.rows| - 1] + [Row(last.id, Appended(names, last.values, s.lastValues, r, |names|))]);
    AppendedKeys(names, last.values, s.lastValues, r, |names|);
    var conts' := conts + [r];
    assert conts'[..|conts'| - 1] == conts;
    forall c | 0 <= c < |names|
      ensures s'.lastValues[c] == Trail(start, conts', c)[|conts'|]
      ensures s'.rows[|before|].values[names[c]] == Join("|", Trail(start, conts', c))
    {
      AppendedAt(names, last.values, s.lastValues, r, |names|, c);
      JoinSnoc("|", Trail(start, conts, c), Carried(s.lastValues, r, c));
    }
  }

  lemma {:induction false} MergedScan(names: seq<string>, pre: Grid, start: seq<string>, conts: Grid)
    requires Distinct(names)
    requires StartsRow(start, Fold(names, pre).lastId)
    requires forall j :: 0 <= j < |conts| ==> Continues(conts[j], start[0])
    ensures Merged(names, Fold(names, pre).rows, start, conts, Fold(names, pre + [start] + conts))
  {
    if conts == [] {
      MergedFirst(names, pre, start);
      assert pre + [start] + conts == pre + [start];
    } else {
      var shorter, last := conts[..|conts| - 1], conts[|conts| - 1];
      assert shorter + [last] == conts;
      MergedScan(names, pre, start, shorter);
      MergedExtend(names, pre, start, shorter, last);
    }
  }

  lemma MergedFirst(names: seq<string>, pre: Grid, start: seq<string>)
    requires Distinct(names)
    requires StartsRow(start, Fold(names, pre).lastId)
    ensures Merged(names, Fold(names, pre).rows, start, [], Fold(names, pre + [start]))
  {
    FoldSnoc(names, pre, start);
    MergedBase(names, Fold(names, pre), start);
  }

  lemma MergedExtend(names: seq<string>, pre: Grid, start: seq<string>, conts: Grid, r: seq<string>)
    requires Distinct(names) && |start| > 0
    requires Merged(names, Fold(names, pre).rows, start, conts, Fold(names, pre + [start] + conts))
    requires Continues(r, start[0])
    ensures Merged(names, Fold(names, pre).rows, start, conts + [r], Fold(names, pre + [start] + (conts + [r])))
  {
    assert pre + [start] + (conts + [r]) == pre + [start] + conts + [r];
    FoldSnoc(names, pre + [start] + conts, r);
    var s0 := Fold(names, pre + [start] + conts);
    MergedStep(names, Fold(names, pre).rows, start, conts, s0, r);
  }

  lemma {:induction false} TrailCells(start: seq<string>, conts: Grid, c: int, ch: char)
    requires ch !in Cell(start, c)
    requires forall j :: 0 <= j < |conts| ==> ch !in Cell(conts[j], c)
    ensures forall i :: 0 <= i < |conts| + 1 ==> ch !in Trail(start, conts, c)[i]
  {
    if conts != [] {
      TrailCells(start, conts[..|conts| - 1], c, ch);
    }
  }

  /** When no cell of the merged column holds '|', splitting the merged value on
      '|' (as the generated list parsers do) gives back one item per source row. */
  lemma MergedRowSplits(names: seq<string>, pre: Grid, start: seq<string>, conts: Grid, c: int)
    requires Distinct(names) && 0 <= c < |names|
    requires StartsRow(start, Fold(names, pre).lastId)
    requires forall j :: 0 <= j < |conts| ==> Continues(conts[j], start[0])
    requires '|' !in Cell(start, c) && forall j :: 0 <= j < |conts| ==> '|' !in Cell(conts[j], c)
    ensures var before := Fold(names, pre).rows;
      var rows := Fold(names, pre + [start] + conts).rows;
      |rows| == |before| + 1 && names[c] in rows[|before|].values &&
      Split(rows[|before|].values[names[c]], '|') == Trail(start, conts, c)
  {
    MergedRow(names, pre, start, conts);
    TrailCells(start, conts, c, '|');
    SplitJoin(Trail(start, conts, c), '|');
  }

  /** The worked example: under columns id, name, val the rows ["A","x","1"] and
      ["","y","2"] make one row with id "A" holding "A|A", "x|y" and "1|2". */
  lemma ContinuationExample()
    ensures SheetTable("Items", [["id", "name", "val"], ["string", "string", "string"], ["A", "x", "1"], ["", "y", "2"]])
         == Some(Table("Items", "Default",
                       [Column("id", "string"), Column("name", "string"), Column("val", "string")],
                       [Row("A", map["id" := "A|A", "name" := "x|y", "val" := "1|2"])]))
  {
    var names := ["id", "name", "val"];
    var grid := [names, ["string", "string", "string"], ["A", "x", "1"], ["", "y", "2"]];
    ExampleRows();
    assert grid[2..] == [["A", "x", "1"], ["", "y", "2"]];
    var schema := [Column("id", "string"), Column("name", "string"), Column("val", "string")];
    assert SchemaOf(names, ["string", "string", "string"]) == schema;
  }

  /** The rows of the worked example. */
  lemma ExampleRows()
    ensures Fold(["id", "name", "val"], [["A", "x", "1"], ["", "y", "2"]]).rows
         == [Row("A", map["id" := "A|A", "name" := "x|y", "val" := "1|2"])]
  {
    var names := ["id", "name", "val"];
    var start := ["A", "x", "1"];
    var conts := [["", "y", "2"]];
    assert [start] + conts == [] + [start] + conts;
    assert Fold(names, []).rows == [];
    MergedRow(names, [], start, conts);
    var rows := Fold(names, [start] + conts).rows;
    ExampleValues(rows[0].values);
    assert [start] + conts == [["A", "x", "1"], ["", "y", "2"]];
    assert rows == [Row("A", rows[0].values)];
  }

  /** The merged values of the worked example's row. */
  lemma ExampleValues(values: map<string, string>)
    requires values.Keys == NameSet(["id", "name", "val"])
    requires forall c :: 0 <= c < 3 ==>
      values[["id", "name", "val"][c]] == Join("|", Trail(["A", "x", "1"], [["", "y", "2"]], c))
    ensures values == map["id" := "A|A", "name" := "x|y", "val" := "1|2"]
  {
    var names := ["id", "name", "val"];
    assert NameSet(names) == {"id", "name", "val"} by {
      assert names[0] == "id" && names[1] == "name" && names[2] == "val";
    }
    ExampleJoins();
    assert values[names[0]] == "A|A" && values[names[1]] == "x|y" && values[names[2]] == "1|2";
  }

  lemma ExampleJoins()
    ensures Join("|", Trail(["A", "x", "1"], [["", "y", "2"]], 0)) == "A|A"
    ensures Join("|", Trail(["A", "x", "1"], [["", "y", "2"]], 1)) == "x|y"
    ensures Join("|", Trail(["A", "x", "1"], [["", "y", "2"]], 2)) == "1|2"
  {
    var conts := [["", "y", "2"]];
    assert Trail(["A", "x", "1"], conts, 0) == ["A", "A"];
    assert Trail(["A", "x", "1"], conts, 1) == ["x", "y"];
    assert Trail(["A", "x", "1"], conts, 2) == ["1", "2"];
  }

  /** A batch whose ranges all hold at least two rows yields one table per
      range, in range order, named after the range, all in group "Default". */
  lemma {:induction false} BatchTablesInOrder(ranges: seq<ValueRange>)
    requires forall k :: 0 <= k < |ranges| ==> |ranges[k].values| >= 2
    ensures |BatchTables(ranges)| == |ranges|
    ensures forall k :: 0 <= k < |ranges| ==>
      BatchTables(ranges)[k].name == SheetNameOf(ranges[k].range) && BatchTables(ranges)[k].group == "Default"
  {
    if ranges != [] {
      var n := |ranges| - 1;
      var pre, last := ranges[..n], ranges[n];
      BatchTablesInOrder(pre);
      SheetTableNamed(SheetNameOf(last.range), last.values);
      var t := SheetTable(SheetNameOf(last.range), last.values).value;
      var tables := BatchTables(ranges);
      assert tables == BatchTables(pre) + [t];
      forall k | 0 <= k < |ranges|
        ensures tables[k].name == SheetNameOf(ranges[k].range) && tables[k].group == "Default"
      {
        if k < n {
          assert tables[k] == BatchTables(pre)[k] && ranges[k] == pre[k];
        }
      }
    }
  }

  /** A grid with a header and a type row gives a table of that name in "Default". */
  lemma SheetTableNamed(name: string, values: Grid)
    requires |values| >= 2
    ensures SheetTable(name, values).Some?
    ensures SheetTable(name, values).value.name == name && SheetTable(name, values).value.group == "Default"
  {
  }

  /** Every table of a load is in group "Default", and so is the group list. */
  lemma {:induction false} ReloadedGroups(doc: Option<Document>, raw: RawJson, now: string)
    requires raw.Parsed?
    ensures var d := Reloaded(doc, raw, now);
      d.Some? && d.value.groups == ["Default"] && d.value.lastEdit == now &&
      forall t :: t in d.value.tables ==> t.group == "Default"
  {
    match raw.envelope
    case Batch(rs) => BatchGroups(rs);
    case Single(v) =>
    case Unrecognised =>
  }

  lemma {:induction false} BatchGroups(ranges: seq<ValueRange>)
    ensures forall t :: t in BatchTables(ranges) ==> t.group == "Default"
  {
    if ranges != [] {
      BatchGroups(ranges[..|ranges| - 1]);
    }
  }

  lemma {:induction false} BeforeFirstAt(a: string, c: char, b: string)
    requires c !in a
    ensures BeforeFirst(a + [c] + b, c) == a
  {
    if a != [] {
      BeforeFirstAt(a[1..], c, b);
      assert (a + [c] + b)[1..] == a[1..] + [c] + b;
    }
  }

  lemma {:induction false} RemoveCharConcat(a: string, b: string, c: char)
    ensures RemoveChar(a + b, c) == RemoveChar(a, c) + RemoveChar(b, c)
  {
    if a != [] {
      RemoveCharConcat(a[1..], b, c);
      assert (a + b)[1..] == a[1..] + b;
    } else {
      assert a + b == b;
    }
  }

  /** The range string a batch answer carries for sheet `title`, quoted or not,
      leads back to the table name `title` when the title holds neither '!' nor
      a quote. */
  lemma SheetNameRoundTrip(title: string, cells: string)
    requires '!' !in title && '\'' !in title
    ensures SheetNameOf(title + "!" + cells) == title
    ensures SheetNameOf("'" + title + "'!" + cells) == title
  {
    BeforeFirstAt(title, '!', cells);
    RemoveCharAbsent(title, '\'');
    assert title + "!" + cells == title + ['!'] + cells;
    var quoted := "'" + title + "'";
    assert '!' !in quoted;
    BeforeFirstAt(quoted, '!', cells);
    assert "'" + title + "'!" + cells == quoted + ['!'] + cells;
    RemoveCharConcat("'" + title, "'", '\'');
    RemoveCharConcat("'", title, '\'');
  }
}
