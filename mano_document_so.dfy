/** ManoDataDocumentSO: the asset holding a spreadsheet's raw payload, the
    document parsed from it, the table index and the cache of materialised
    rows; plus SelectedSheet and the editor warm-up sweep. */
module ManoDocumentAsset {
  import opened DataModel
  import opened Strings
  import opened Ingestion
  import opened Caches

  /** One sheet of the spreadsheet as offered for import and code generation. */
  class SelectedSheet {
    var sheetName: string
    var isSelected: bool
    var isGenCode: bool

    constructor (sheetName: string)
      ensures this.sheetName == sheetName && isSelected && isGenCode
    {
      this.sheetName := sheetName;
      isSelected := true;
      isGenCode := true;
    }
  }

  const TableNameSeparators: set<char> := {'_', ' ', '-'}

  /** SanitizeTableName: "" is kept; otherwise '_', ' ' and '-' are deleted. */
  function SanitizeTableName(name: string): string
  {
    if name == "" then name else Strip(name, TableNameSeparators)
  }

  /** It is the source's chain of three Replace calls, in its order. */
  lemma SanitizeTableNameIsReplaceChain(name: string)
    ensures SanitizeTableName(name) == RemoveEach(name, ['_', ' ', '-'])
  {
    RemoveEachIsStrip(name, ['_', ' ', '-']);
    assert (set c | c in ['_', ' ', '-']) == TableNameSeparators;
    if name == "" {
      assert RemoveEach(name, ['_', ' ', '-']) == Strip(name, TableNameSeparators);
    }
  }

  // ---------------------------------------------------------------------
  // The reflection search of EditorWarmup, over an explicit list of types.

  /** A type visible to the editor: its full name, its simple name and whether
      it implements IManoDataRow. */
  datatype LoadedType = LoadedType(fullName: string, name: string, isRow: bool)

  /** The first type whose full name or simple name matches. */
  function FindType(types: seq<LoadedType>, fullName: string, name: string): (r: Option<LoadedType>)
    ensures r.Some? ==> r.value in types && (r.value.fullName == fullName || r.value.name == name)
    ensures r.None? <==> forall k :: 0 <= k < |types| ==> types[k].fullName != fullName && types[k].name != name
  {
    if types == [] then None
    else if types[0].fullName == fullName || types[0].name == name then Some(types[0])
    else
      var r := FindType(types[1..], fullName, name);
      assert forall k :: 0 < k < |types| ==> types[k] == types[1..][k - 1];
      r
  }

  /** The row type EditorWarmup materialises a table's rows as, if any: the first
      matching type, provided it is a row type. */
  function RowTypeFor(types: seq<LoadedType>, ns: string, tableName: string): Option<string>
  {
    var sanitized := SanitizeTableName(tableName);
    var t := FindType(types, ns + "." + sanitized, sanitized);
    if t.Some? && t.value.isRow then Some(t.value.fullName) else None
  }

  /** The cache after pre-warming, in order, every row with a non-empty id. */
  function WarmRows(c: CacheContents, tableName: string, rowType: string, rows: seq<Row>): CacheContents
  {
    if rows == [] then c
    else
      var c' := WarmRows(c, tableName, rowType, rows[..|rows| - 1]);
      var row := rows[|rows| - 1];
      if row.id == "" then c' else PutBuilt(c', tableName, row.id, Built(rowType, row.values))
  }

  /** The cache EditorWarmup leaves: starting empty, each table in order whose
      row type resolves has its rows pre-warmed. */
  function WarmTables(types: seq<LoadedType>, ns: string, tables: seq<Table>): CacheContents
  {
    if tables == [] then map[]
    else
      var c := WarmTables(types, ns, tables[..|tables| - 1]);
      var t := tables[|tables| - 1];
      var rt := RowTypeFor(types, ns, t.name);
      if rt.Some? then WarmRows(c, t.name, rt.value, t.rows) else c
  }

  /** Warming one more table warms its rows, if its row type resolves, on top
      of the tables before it. */
  lemma WarmTablesSnoc(types: seq<LoadedType>, ns: string, tables: seq<Table>, i: nat)
    requires i < |tables|
    ensures var rt := RowTypeFor(types, ns, tables[i].name);
      var c := WarmTables(types, ns, tables[..i]);
      WarmTables(types, ns, tables[..i + 1]) == if rt.Some? then WarmRows(c, tables[i].name, rt.value, tables[i].rows) else c
  {
    assert tables[..i + 1][..i] == tables[..i];
  }

  predicate InRows(rows: seq<Row>, id: string)
  {
    exists j :: 0 <= j < |rows| && rows[j].id == id
  }

  /** Some table named t has a row with this id. */
  predicate InTables(tables: seq<Table>, t: string, id: string)
  {
    exists k :: 0 <= k < |tables| && tables[k].name == t && InRows(tables[k].rows, id)
  }

  lemma InTablesSnoc(tables: seq<Table>, t: string, id: string)
    requires tables != []
    ensures var n := |tables| - 1;
      InTables(tables, t, id) <==> InTables(tables[..n], t, id) || (tables[n].name == t && InRows(tables[n].rows, id))
  {
    var n := |tables| - 1;
    if InTables(tables, t, id) {
      var k :| 0 <= k < |tables| && tables[k].name == t && InRows(tables[k].rows, id);
      if k < n {
        assert tables[..n][k] == tables[k];
      }
    }
    if InTables(tables[..n], t, id) {
      var k :| 0 <= k < n && tables[..n][k].name == t && InRows(tables[..n][k].rows, id);
      assert tables[k] == tables[..n][k];
    }
  }

  /** Pre-warming a table's rows adds exactly its non-empty row ids and keeps
      every other entry; the added ones are built as the given row type. */
  lemma {:induction false} WarmRowsEntries(c: CacheContents, tableName: string, rowType: string, rows: seq<Row>, t: string, id: string)
    ensures var w := WarmRows(c, tableName, rowType, rows);
      (Has(w, t, id) <==> Has(c, t, id) || (t == tableName && id != "" && InRows(rows, id))) &&
      (Has(w, t, id) ==> (Has(c, t, id) && w[t][id] == c[t][id]) || (t == tableName && w[t][id].rowType == rowType))
  {
    if rows != [] {
      var n := |rows| - 1;
      WarmRowsEntries(c, tableName, rowType, rows[..n], t, id);
      assert forall j :: 0 <= j < n ==> rows[..n][j] == rows[j];
      assert InRows(rows, id) <==> InRows(rows[..n], id) || rows[n].id == id;
    }
  }

  /** After the warm-up the cache holds (t, id) exactly when some table named t
      has a row with the non-empty id and t's row type resolves. */
  lemma {:induction false} WarmTablesKeys(types: seq<LoadedType>, ns: string, tables: seq<Table>, t: string, id: string)
    ensures Has(WarmTables(types, ns, tables), t, id) <==>
      id != "" && RowTypeFor(types, ns, t).Some? && InTables(tables, t, id)
  {
    if tables != [] {
      var n := |tables| - 1;
      WarmTablesKeys(types, ns, tables[..n], t, id);
      assert forall k :: 0 <= k < n ==> tables[..n][k] == tables[k];
      InTablesSnoc(tables, t, id);
      var rt := RowTypeFor(types, ns, tables[n].name);
      if rt.Some? {
        WarmRowsEntries(WarmTables(types, ns, tables[..n]), tables[n].name, rt.value, tables[n].rows, t, id);
      }
    }
  }

  /** Every entry the warm-up leaves is built as its table's resolved row type. */
  lemma {:induction false} WarmTablesTypes(types: seq<LoadedType>, ns: string, tables: seq<Table>, t: string, id: string)
    requires Has(WarmTables(types, ns, tables), t, id)
    ensures RowTypeFor(types, ns, t).Some?
    ensures WarmTables(types, ns, tables)[t][id].rowType == RowTypeFor(types, ns, t).value
  {
    var n := |tables| - 1;
    var c := WarmTables(types, ns, tables[..n]);
    var rt := RowTypeFor(types, ns, tables[n].name);
    if rt.Some? {
      WarmRowsEntries(c, tables[n].name, rt.value, tables[n].rows, t, id);
      if Has(c, t, id) && WarmTables(types, ns, tables)[t][id] == c[t][id] {
        WarmTablesTypes(types, ns, tables[..n], t, id);
      }
    } else {
      WarmTablesTypes(types, ns, tables[..n], t, id);
    }
  }

  class ManoDataDocumentSO {
    var nameSpaceDocument: string
    var generatedCodePath: string
    var lastEdit: string
    var rawJson: RawJson
    var availableSheets: seq<SelectedSheet>
    var generatedSheets: seq<SelectedSheet>
    var document: Option<Document>
    var tableCache: map<string, Table>
    var objectCache: ObjectCache

    /** The index GetTable answers from: the stored one, or the rebuilt one
        when the stored one is empty. */
    function EffectiveIndex(): map<string, Table>
      reads this
    {
      if |tableCache| == 0 then Index(TablesOf(document)) else tableCache
    }

    /** The table index is never stale: it is the index of the document's
        tables, or empty and rebuilt on first use. */
    predicate Valid()
      reads this
    {
      EffectiveIndex() == Index(TablesOf(document))
    }

    constructor ()
      ensures nameSpaceDocument == "Mano.Data.Generated"
      ensures generatedCodePath == "Assets/Scripts/GeneratedData/"
      ensures lastEdit == "" && rawJson == Missing
      ensures availableSheets == [] && generatedSheets == []
      ensures document == Some(NewDocument())
      ensures tableCache == map[] && objectCache == map[]
      ensures Valid()
    {
      nameSpaceDocument := "Mano.Data.Generated";
      generatedCodePath := "Assets/Scripts/GeneratedData/";
      lastEdit := "";
      rawJson := Missing;
      availableSheets := [];
      generatedSheets := [];
      document := Some(NewDocument());
      tableCache := map[];
      objectCache := map[];
    }

    /** Rebuilds the document from rawJson. A missing payload returns at once;
        one that does not parse throws before anything is cleared and the
        handler only logs. The object cache is left as it is. */
    method LoadDataFromJSON(now: string)
      modifies this`document, this`tableCache, this`lastEdit
      ensures document == Reloaded(old(document), rawJson, now)
      ensures rawJson.Parsed? ==> lastEdit == now && tableCache == Index(TablesOf(document))
      ensures !rawJson.Parsed? ==> lastEdit == old(lastEdit) && tableCache == old(tableCache)
      ensures old(Valid()) ==> Valid()
    {
      if rawJson.Missing? {
        return;
      }
      if rawJson.Malformed? {
        return;
      }
      var doc := if document.Some? then document.value else NewDocument();
      document := Some(doc.(tables := [], groups := []));
      match rawJson.envelope {
        case Batch(ranges) =>
          var i := 0;
          while i < |ranges|
            invariant 0 <= i <= |ranges|
            invariant document == Some(doc.(tables := BatchTables(ranges[..i]), groups := []))
          {
            ParseGoogleSheet(SheetNameOf(ranges[i].range), ranges[i].values);
            assert ranges[..i + 1][..i] == ranges[..i];
            i := i + 1;
          }
          assert ranges[..i] == ranges;
          assert document.value.tables == EnvelopeTables(rawJson.envelope);
        case Single(values) =>
          ParseGoogleSheet("ImportedSheet", values);
        case Unrecognised =>
      }
      assert document.value.tables == EnvelopeTables(rawJson.envelope) && document.value.groups == [];
      document := Some(document.value.(lastEdit := now));
      lastEdit := now;
      if "Default" !in document.value.groups {
        document := Some(document.value.(groups := document.value.groups + ["Default"]));
      }
      assert document.value.groups == ["Default"];
      BuildIndex();
    }

    /** Appends the table read from one value range, if it has a header row and
        a type row. */
    method ParseGoogleSheet(sheetName: string, values: Grid)
      requires document.Some?
      modifies this`document
      ensures document == Some(old(document.value).(tables := old(document.value.tables) + Listed(SheetTable(sheetName, values))))
    {
      if |values| < 2 {
        assert document.value.tables + [] == document.value.tables;
        return;
      }
      var names := values[0];
      var types := values[1];
      var schema: seq<Column> := [];
      var col := 0;
      while col < |names|
        invariant 0 <= col <= |names|
        invariant schema == SchemaOf(names, types)[..col]
      {
        schema := schema + [Column(names[col], if col < |types| then types[col] else "string")];
        col := col + 1;
      }
      assert schema == SchemaOf(names, types);
      var rows := ScanRows(names, values[2..]);
      var table := NewTable(sheetName, "Default").(schema := schema, rows := rows);
      document := Some(document.value.(tables := document.value.tables + [table]));
    }

    /** The row loop of ParseGoogleSheet: the carry-forward buffer is an array
        with one slot per column, the open row's map is rewritten into the last
        stored row after each continuation row. */
    static method ScanRows(names: seq<string>, data: Grid) returns (rows: seq<Row>)
      ensures rows == Fold(names, data).rows
    {
      var lastId := "";
      var currentRow: Option<map<string, string>> := None;
      var lastValues := new string[|names|](_ => "");
      rows := [];
      var row := 0;
      while row < |data|
        invariant 0 <= row <= |data|
        invariant Scan(lastId, lastValues[..], rows) == Fold(names, data[..row])
        invariant currentRow.Some? <==> rows != []
        invariant currentRow.Some? ==> currentRow.value == rows[|rows| - 1].values
      {
        var r := data[row];
        ghost var before := Scan(lastId, lastValues[..], rows);
        if |r| != 0 {
          var currentId := r[0];
          if currentId != "" && currentId != lastId {
            var m := StartRow(names, r, lastValues);
            currentRow := Some(m);
            rows := rows + [Row(currentId, m)];
            lastId := currentId;
          } else if currentRow.Some? {
            var m := ContinueRow(names, r, currentRow.value, lastValues);
            currentRow := Some(m);
            rows := rows[..|rows| - 1] + [Row(rows[|rows| - 1].id, m)];
          }
        }
        assert Scan(lastId, lastValues[..], rows) == Step(names, before, r);
        assert data[..row + 1][..row] == data[..row];
        row := row + 1;
      }
      assert data[..row] == data;
    }

    /** The column loop for a row that starts a logical row: every column takes
        its cell ("" past the row's end), in the map and in the buffer. */
    static method StartRow(names: seq<string>, r: seq<string>, lastValues: array<string>) returns (m: map<string, string>)
      requires lastValues.Length == |names|
      modifies lastValues
      ensures m == NewRowValues(names, r, |names|)
      ensures lastValues[..] == seq(|names|, c => Cell(r, c))
    {
      m := map[];
      var col := 0;
      while col < |names|
        invariant 0 <= col <= |names|
        invariant m == NewRowValues(names, r, col)
        invariant forall k :: 0 <= k < col ==> lastValues[k] == Cell(r, k)
      {
        var val := if col < |r| then r[col] else "";
        m := m[names[col] := val];
        lastValues[col] := val;
        col := col + 1;
      }
      assert lastValues[..] == seq(|names|, c => Cell(r, c));
    }

    /** The column loop for a continuation row: every column grows by "|" and
        the cell, or the buffered value when the cell is empty; a non-empty cell
        replaces the buffered value. */
    static method ContinueRow(names: seq<string>, r: seq<string>, current: map<string, string>, lastValues: array<string>)
      returns (m: map<string, string>)
      requires lastValues.Length == |names|
      modifies lastValues
      ensures m == Appended(names, current, old(lastValues[..]), r, |names|)
      ensures lastValues[..] == NextLastValues(old(lastValues[..]), r)
    {
      ghost var buffered := lastValues[..];
      m := current;
      var col := 0;
      while col < |names|
        invariant 0 <= col <= |names|
        invariant m == Appended(names, current, buffered, r, col)
        invariant lastValues[..] == CarriedUpTo(buffered, r, col)
      {
        CarriedUpToNext(buffered, r, col);
        var val := if col < |r| then r[col] else "";
        if val == "" {
          val := lastValues[col];
        } else {
          lastValues[col] := val;
        }
        assert val == Carried(buffered, r, col);
        // Every column name is a key of the open row (Ingestion.ScanShape).
        m := m[names[col] := ValueOf(m, names[col]) + "|" + val];
        col := col + 1;
      }
    }

    method BuildIndex()
      modifies this`tableCache
      ensures tableCache == Index(TablesOf(document))
    {
      tableCache := map[];
      if document.None? {
        return;
      }
      var tables := document.value.tables;
      var i := 0;
      while i < |tables|
        invariant 0 <= i <= |tables|
        invariant tableCache == Index(tables[..i])
      {
        tableCache := tableCache[tables[i].name := tables[i]];
        assert tables[..i + 1][..i] == tables[..i];
        i := i + 1;
      }
      assert tables[..i] == tables;
    }

    /** The table of that name in the index, the index being rebuilt first
        when it is empty. */
    method GetTable(tableName: string) returns (t: Option<Table>)
      modifies this`tableCache
      ensures tableCache == old(EffectiveIndex())
      ensures t == TableNamed(tableCache, tableName)
      ensures old(Valid()) ==> Valid() && t == TableNamed(Index(TablesOf(document)), tableName)
    {
      if |tableCache| == 0 {
        BuildIndex();
      }
      t := TableNamed(tableCache, tableName);
    }

    /** Materialises a row as rowType and caches it under (tableName, rowId),
        creating the table's map on demand. */
    method PreWarmObject(rowType: string, tableName: string, rowId: string, rawData: map<string, string>)
      modifies this`objectCache
      ensures CacheGet(objectCache, tableName, rowId).Some?
      ensures var o := CacheGet(objectCache, tableName, rowId).value;
        fresh(o) && o.rowType == rowType && o.raw == rawData &&
        objectCache == CachePut(old(objectCache), tableName, rowId, o)
    {
      if tableName !in objectCache {
        objectCache := objectCache[tableName := map[]];
      }
      var instance := new RowInstance(rowType, rawData);
      objectCache := objectCache[tableName := objectCache[tableName][rowId := instance]];
    }

    /** A cached instance when there is one; otherwise the first row of the
        indexed table with that id is materialised, cached and returned. */
    method GetCachedObject(rowType: string, tableName: string, rowId: string) returns (r: Option<RowInstance>)
      modifies this`objectCache, this`tableCache
      ensures old(CacheGet(objectCache, tableName, rowId)).Some? ==>
        r == old(CacheGet(objectCache, tableName, rowId)) &&
        objectCache == old(objectCache) && tableCache == old(tableCache)
      ensures old(CacheGet(objectCache, tableName, rowId)).None? ==>
        tableCache == old(EffectiveIndex()) &&
        var row := IndexedRow(tableCache, tableName, rowId);
        if row.Some? then
          r.Some? && fresh(r.value) && r.value.rowType == rowType && r.value.raw == row.value.values &&
          objectCache == CachePut(old(objectCache), tableName, rowId, r.value)
        else
          r.None? && objectCache == old(objectCache)
      ensures r.Some? ==> CacheGet(objectCache, tableName, rowId) == r
      ensures old(Valid()) ==> Valid()
    {
      r := CacheGet(objectCache, tableName, rowId);
      if r.Some? {
        return;
      }
      var tableContent := GetTable(tableName);
      if tableContent.Some? {
        var row := FindRow(tableContent.value.rows, rowId);
        if row.Some? {
          PreWarmObject(rowType, tableName, rowId, row.value.values);
          r := CacheGet(objectCache, tableName, rowId);
        }
      }
    }

    /** The row loop of EditorWarmup for one table: each row with a non-empty
        id is pre-warmed as rowType. */
    method WarmTableRows(tableName: string, rowType: string, rows: seq<Row>)
      modifies this`objectCache
      ensures Contents(objectCache) == WarmRows(old(Contents(objectCache)), tableName, rowType, rows)
    {
      ghost var start := Contents(objectCache);
      var j := 0;
      while j < |rows|
        invariant 0 <= j <= |rows|
        invariant Contents(objectCache) == WarmRows(start, tableName, rowType, rows[..j])
      {
        var row := rows[j];
        if row.id != "" {
          ghost var cache0 := objectCache;
          PreWarmObject(rowType, tableName, row.id, row.values);
          ContentsOfPut(cache0, tableName, row.id, CacheGet(objectCache, tableName, row.id).value);
        }
        assert rows[..j + 1][..j] == rows[..j];
        j := j + 1;
      }
      assert rows[..j] == rows;
    }

    /** The table loop of EditorWarmup over an emptied cache. */
    method WarmDocument(types: seq<LoadedType>, tables: seq<Table>)
      requires objectCache == map[]
      modifies this`objectCache
      ensures Contents(objectCache) == WarmTables(types, nameSpaceDocument, tables)
    {
      assert Contents(objectCache) == map[];
      var i := 0;
      while i < |tables|
        invariant 0 <= i <= |tables|
        invariant Contents(objectCache) == WarmTables(types, nameSpaceDocument, tables[..i])
      {
        WarmTablesSnoc(types, nameSpaceDocument, tables, i);
        WarmTable(types, tables[i]);
        i := i + 1;
      }
      assert tables[..i] == tables;
    }

    /** One table of EditorWarmup: the row type is looked up under the
        document's namespace and, when it is a row type, every row with an id
        is pre-warmed. */
    method WarmTable(types: seq<LoadedType>, table: Table)
      modifies this`objectCache
      ensures var rt := RowTypeFor(types, nameSpaceDocument, table.name);
        Contents(objectCache) ==
          if rt.Some? then WarmRows(old(Contents(objectCache)), table.name, rt.value, table.rows)
          else old(Contents(objectCache))
    {
      var sanitizedName := SanitizeTableName(table.name);
      var typeName := nameSpaceDocument + "." + sanitizedName;
      var rowType := FindType(types, typeName, sanitizedName);
      if rowType.Some? && rowType.value.isRow {
        WarmTableRows(table.name, rowType.value.fullName, table.rows);
      }
    }

    /** The editor warm-up: an empty document is first reloaded from rawJson
        (nothing happens when there is none); then the object cache is cleared
        and every row with an id of every table whose row type resolves is
        materialised. A document still absent after the reload ends the sweep
        with the cache cleared. */
    method EditorWarmup(types: seq<LoadedType>, now: string)
      modifies this`document, this`tableCache, this`lastEdit, this`objectCache
      ensures var reload := old(document.None? || |document.value.tables| == 0);
        if reload && rawJson.Missing? then
          document == old(document) && objectCache == old(objectCache) && tableCache == old(tableCache)
        else
          document == (if reload then Reloaded(old(document), rawJson, now) else old(document)) &&
          Contents(objectCache) == WarmTables(types, nameSpaceDocument, TablesOf(document))
      ensures var reload := old(document.None? || |document.value.tables| == 0);
        if reload && rawJson.Parsed? then lastEdit == now && tableCache == Index(TablesOf(document))
        else lastEdit == old(lastEdit) && tableCache == old(tableCache)
      ensures old(Valid()) ==> Valid()
    {
      if document.None? || |document.value.tables| == 0 {
        if !rawJson.Missing? {
          LoadDataFromJSON(now);
        } else {
          return;
        }
      }
      ClearAndWarm(types);
    }

    /** The sweep after any reload: the object cache is cleared, then refilled
        from the document's tables (left empty without a document). */
    method ClearAndWarm(types: seq<LoadedType>)
      modifies this`objectCache
      ensures Contents(objectCache) == WarmTables(types, nameSpaceDocument, TablesOf(document))
    {
      objectCache := map[];
      if document.None? {
        return;
      }
      WarmDocument(types, document.value.tables);
    }
  }
}
