/** GameDataDocumentSO: the runtime variant of the document asset. It ingests
    value ranges by the same rules, but the open logical row is the last stored
    row itself and continuation rows update it in place; its object lookup
    reads the cache only. */
module GameDocumentAsset {
  import opened DataModel
  import opened Ingestion
  import opened Caches
  import ManoDocumentAsset

  class GameDataDocumentSO {
    var nameSpaceDocument: string
    var generatedCodePath: string
    var lastEdit: string
    var rawJson: RawJson
    var availableSheets: seq<ManoDocumentAsset.SelectedSheet>
    var generatedSheets: seq<ManoDocumentAsset.SelectedSheet>
    var document: Option<Document>
    var tableCache: map<string, Table>
    var objectCache: ObjectCache

    function EffectiveIndex(): map<string, Table>
      reads this
    {
      if |tableCache| == 0 then Index(TablesOf(document)) else tableCache
    }

    /** The table index is the index of the document's tables, or empty. */
    predicate Valid()
      reads this
    {
      EffectiveIndex() == Index(TablesOf(document))
    }

    /** A new asset: the namespace field starts unset (""), the document empty. */
    constructor ()
      ensures nameSpaceDocument == "" && generatedCodePath == "Assets/Scripts/GeneratedData/"
      ensures lastEdit == "" && rawJson == Missing
      ensures availableSheets == [] && generatedSheets == []
      ensures document == Some(NewDocument())
      ensures tableCache == map[] && objectCache == map[]
      ensures Valid()
    {
      nameSpaceDocument := "";
      generatedCodePath := "Assets/Scripts/GeneratedData/";
      lastEdit := "";
      rawJson := Missing;
      availableSheets := [];
      generatedSheets := [];
      document := Some(NewDocument());
      tableCache := map[];
      objectCache := map[];
    }

    /** Rebuilds the document from rawJson; a missing or unparsable payload
        changes nothing. */
    method LoadDataFromJSON(now: string)
      modifies this`document, this`tableCache, this`lastEdit
      ensures document == Reloaded(old(document), rawJson, now)
      ensures rawJson.Parsed? ==> lastEdit == now && tableCache == Index(TablesOf(document))
      ensures !rawJson.Parsed? ==> lastEdit == old(lastEdit) && tableCache == old(tableCache)
      ensures old(Valid()) ==> Valid()
    {
      if rawJson.Missing? {
        return;
      }
      if rawJson.Malformed? {
        return;
      }
      var doc := if document.Some? then document.value else NewDocument();
      document := Some(doc.(tables := [], groups := []));
      match rawJson.envelope {
        case Batch(ranges) =>
          var i := 0;
          while i < |ranges|
            invariant 0 <= i <= |ranges|
            invariant document == Some(doc.(tables := BatchTables(ranges[..i]), groups := []))
          {
            ParseGoogleSheet(SheetNameOf(ranges[i].range), ranges[i].values);
            assert ranges[..i + 1][..i] == ranges[..i];
            i := i + 1;
          }
          assert ranges[..i] == ranges;
          assert document.value.tables == EnvelopeTables(rawJson.envelope);
        case Single(values) =>
          ParseGoogleSheet("ImportedSheet", values);
        case Unrecognised =>
      }
      assert document.value.tables == EnvelopeTables(rawJson.envelope) && document.value.groups == [];
      document := Some(document.value.(lastEdit := now));
      lastEdit := now;
      if "Default" !in document.value.groups {
        document := Some(document.value.(groups := document.value.groups + ["Default"]));
      }
      assert document.value.groups == ["Default"];
      BuildIndex();
    }

    /** Appends the table read from one value range, if it has a header row and
        a type row. */
    method ParseGoogleSheet(sheetName: string, values: Grid)
      requires document.Some?
      modifies this`document
      ensures document == Some(old(document.value).(tables := old(document.value.tables) + Listed(SheetTable(sheetName, values))))
    {
      if |values| < 2 {
        assert document.value.tables + [] == document.value.tables;
        return;
      }
      var names := values[0];
      var types := values[1];
      var schema: seq<Column> := [];
      var col := 0;
      while col < |names|
        invariant 0 <= col <= |names|
        invariant schema == SchemaOf(names, types)[..col]
      {
        schema := schema + [Column(names[col], if col < |types| then types[col] else "string")];
        col := col + 1;
      }
      assert schema == SchemaOf(names, types);
      var data := ScanRowsInPlace(names, values[2..]);
      var table := NewTable(sheetName, "Default").(schema := schema, rows := data);
      document := Some(document.value.(tables := document.value.tables + [table]));
    }

    /** The row loop: a starting row's map is added to the table at once; while
        a logical row is open (`open`), continuation rows rewrite the last stored
        row column by column. */
    static method ScanRowsInPlace(names: seq<string>, rows: Grid) returns (data: seq<Row>)
      ensures data == Fold(names, rows).rows
    {
      var lastId := "";
      var open := false;
      var lastValues := new string[|names|](_ => "");
      data := [];
      var row := 0;
      while row < |rows|
        invariant 0 <= row <= |rows|
        invariant Scan(lastId, lastValues[..], data) == Fold(names, rows[..row])
        invariant open <==> data != []
      {
        var r := rows[row];
        ghost var before := Scan(lastId, lastValues[..], data);
        if |r| != 0 {
          var currentId := r[0];
          if currentId != "" && currentId != lastId {
            var m := ManoDocumentAsset.ManoDataDocumentSO.StartRow(names, r, lastValues);
            data := data + [Row(currentId, m)];
            open := true;
            lastId := currentId;
          } else if open {
            data := ContinueLastRow(names, r, data, lastValues);
          }
        }
        assert Scan(lastId, lastValues[..], data) == Step(names, before, r);
        assert rows[..row + 1][..row] == rows[..row];
        row := row + 1;
      }
      assert rows[..row] == rows;
    }

    /** The column loop for a continuation row: each column is folded into
        the map of the last stored row, which is then written back. */
    static method ContinueLastRow(names: seq<string>, r: seq<string>, data: seq<Row>, lastValues: array<string>)
      returns (data': seq<Row>)
      requires data != [] && lastValues.Length == |names|
      modifies lastValues
      ensures |data'| == |data| && data'[..|data| - 1] == data[..|data| - 1]
      ensures data'[|data| - 1] == Row(data[|data| - 1].id, Appended(names, data[|data| - 1].values, old(lastValues[..]), r, |names|))
      ensures lastValues[..] == NextLastValues(old(lastValues[..]), r)
    {
      ghost var buffered := lastValues[..];
      var n := |data| - 1;
      var current := data[n];
      var m := current.values;
      var col := 0;
      while col < |names|
        invariant 0 <= col <= |names|
        invariant m == Appended(names, current.values, buffered, r, col)
        invariant lastValues[..] == CarriedUpTo(buffered, r, col)
      {
        CarriedUpToNext(buffered, r, col);
        var val := if col < |r| then r[col] else "";
        if val == "" {
          val := lastValues[col];
        } else {
          lastValues[col] := val;
        }
        assert val == Carried(buffered, r, col);
        m := m[names[col] := ValueOf(m, names[col]) + "|" + val];
        col := col + 1;
      }
      data' := data[n := Row(current.id, m)];
    }

    method BuildIndex()
      modifies this`tableCache
      ensures tableCache == Index(TablesOf(document))
    {
      tableCache := map[];
      if document.None? {
        return;
      }
      var tables := document.value.tables;
      var i := 0;
      while i < |tables|
        invariant 0 <= i <= |tables|
        invariant tableCache == Index(tables[..i])
      {
        tableCache := tableCache[tables[i].name := tables[i]];
        assert tables[..i + 1][..i] == tables[..i];
        i := i + 1;
      }
      assert tables[..i] == tables;
    }

    method GetTable(tableName: string) returns (t: Option<Table>)
      modifies this`tableCache
      ensures tableCache == old(EffectiveIndex())
      ensures t == TableNamed(tableCache, tableName)
      ensures old(Valid()) ==> Valid() && t == TableNamed(Index(TablesOf(document)), tableName)
    {
      if |tableCache| == 0 {
        BuildIndex();
      }
      t := TableNamed(tableCache, tableName);
    }

    method PreWarmObject(rowType: string, tableName: string, rowId: string, rawData: map<string, string>)
      modifies this`objectCache
      ensures CacheGet(objectCache, tableName, rowId).Some?
      ensures var o := CacheGet(objectCache, tableName, rowId).value;
        fresh(o) && o.rowType == rowType && o.raw == rawData &&
        objectCache == CachePut(old(objectCache), tableName, rowId, o)
    {
      if tableName !in objectCache {
        objectCache := objectCache[tableName := map[]];
      }
      var instance := new RowInstance(rowType, rawData);
      objectCache := objectCache[tableName := objectCache[tableName][rowId := instance]];
    }

    /** The cached instance if there is one, and nothing otherwise: the rows
        are never consulted and nothing changes. */
    method GetCachedObject(tableName: string, rowId: string) returns (r: Option<RowInstance>)
      ensures r.Some? <==> tableName in objectCache && rowId in objectCache[tableName]
      ensures r.Some? ==> r.value == objectCache[tableName][rowId]
    {
      if tableName in objectCache && rowId in objectCache[tableName] {
        r := Some(objectCache[tableName][rowId]);
      } else {
        r := None;
      }
    }
  }
}
