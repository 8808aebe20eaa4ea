/** The lookup structures both document assets keep beside their document:
    the table index built by BuildIndex (table name -> table) and the object
    cache filled by PreWarmObject (table name -> row id -> materialised row),
    with the row searches GetCachedObject falls back on. */
module Caches {
  import opened DataModel

  /** The index BuildIndex builds: each table under its name, a later table of
      the same name replacing an earlier one. */
  function Index(tables: seq<Table>): map<string, Table>
  {
    if tables == [] then map[]
    else Index(tables[..|tables| - 1])[tables[|tables| - 1].name := tables[|tables| - 1]]
  }

  /** The index holds exactly the names of the tables, each bound to the last
      table carrying it. */
  lemma {:induction false} IndexFindsLast(tables: seq<Table>, name: string)
    ensures name in Index(tables) <==> exists k :: 0 <= k < |tables| && tables[k].name == name
    ensures name in Index(tables) ==>
      exists k :: 0 <= k < |tables| && tables[k].name == name && Index(tables)[name] == tables[k] &&
        forall j :: k < j < |tables| ==> tables[j].name != name
  {
    if tables != [] {
      var n := |tables| - 1;
      IndexFindsLast(tables[..n], name);
      if tables[n].name != name && name in Index(tables) {
        var k :| 0 <= k < n && tables[..n][k].name == name && Index(tables[..n])[name] == tables[..n][k] &&
          forall j :: k < j < n ==> tables[..n][j].name != name;
        assert tables[k].name == name && Index(tables)[name] == tables[k];
      }
    }
  }

  function TableNamed(index: map<string, Table>, name: string): Option<Table>
  {
    if name in index then Some(index[name]) else None
  }

  /** The first row with the given id in the indexed table of that name. */
  function IndexedRow(index: map<string, Table>, tableName: string, rowId: string): Option<Row>
  {
    if tableName in index then FindRow(index[tableName].rows, rowId) else None
  }

  /** An instance of a generated row type, built by `new T()` and populated by
      its SetData from `raw`; which fields SetData derives is not modelled. */
  class RowInstance {
    const rowType: string
    const raw: map<string, string>

    constructor (rowType: string, raw: map<string, string>)
      ensures this.rowType == rowType && this.raw == raw
    {
      this.rowType := rowType;
      this.raw := raw;
    }
  }

  type ObjectCache = map<string, map<string, RowInstance>>

  /** The per-table map, empty when the table has none yet. */
  function Entries(cache: ObjectCache, tableName: string): map<string, RowInstance>
  {
    if tableName in cache then cache[tableName] else map[]
  }

  function CacheGet(cache: ObjectCache, tableName: string, rowId: string): Option<RowInstance>
  {
    if tableName in cache && rowId in cache[tableName] then Some(cache[tableName][rowId]) else None
  }

  /** PreWarmObject's update: the per-table map is created on demand and only the
      entry (tableName, rowId) changes. */
  function CachePut(cache: ObjectCache, tableName: string, rowId: string, obj: RowInstance): (c: ObjectCache)
    ensures forall t, id :: CacheGet(c, t, id) == if t == tableName && id == rowId then Some(obj) else CacheGet(cache, t, id)
  {
    cache[tableName := Entries(cache, tableName)[rowId := obj]]
  }

  /** rows.FirstOrDefault(r => r.id == rowId). */
  function FindRow(rows: seq<Row>, rowId: string): Option<Row>
  {
    if rows == [] then None
    else if rows[0].id == rowId then Some(rows[0])
    else FindRow(rows[1..], rowId)
  }

  /** FindRow returns the first row carrying the id, and nothing exactly when
      no row carries it. */
  lemma {:induction false} FindRowFirst(rows: seq<Row>, rowId: string)
    ensures var r := FindRow(rows, rowId);
      r.Some? ==> exists k :: 0 <= k < |rows| && rows[k] == r.value && rows[k].id == rowId &&
                    forall j :: 0 <= j < k ==> rows[j].id != rowId
    ensures FindRow(rows, rowId).None? <==> forall k :: 0 <= k < |rows| ==> rows[k].id != rowId
  {
    if rows != [] && rows[0].id != rowId {
      FindRowFirst(rows[1..], rowId);
      assert forall k :: 0 < k < |rows| ==> rows[k] == rows[1..][k - 1];
      if FindRow(rows, rowId).Some? {
        var k :| 0 <= k < |rows| - 1 && rows[1..][k] == FindRow(rows, rowId).value && rows[1..][k].id == rowId &&
          forall j :: 0 <= j < k ==> rows[1..][j].id != rowId;
        assert rows[k + 1] == FindRow(rows, rowId).value;
      }
    }
  }

  /** Outcome of scanning rows by their "ID" value: the first match, no match,
      or a row without an "ID" key met first (the indexer throws). */
  datatype IdScan = Match(row: Row) | NoMatch | KeyMissing

  /** data.FirstOrDefault(r => r["ID"].ToString() == rowId). */
  function FindByIdKey(rows: seq<Row>, rowId: string): IdScan
  {
    if rows == [] then NoMatch
    else if "ID" !in rows[0].values then KeyMissing
    else if rows[0].values["ID"] == rowId then Match(rows[0])
    else FindByIdKey(rows[1..], rowId)
  }

  /** Every row before k carries an "ID" value, and none of them is rowId. */
  predicate PassedBefore(rows: seq<Row>, rowId: string, k: int)
    requires 0 <= k <= |rows|
  {
    forall j :: 0 <= j < k ==> "ID" in rows[j].values && rows[j].values["ID"] != rowId
  }

  /** A match is the first row whose "ID" value is rowId, with every earlier
      row keyed. */
  lemma {:induction false} FindByIdKeyMatch(rows: seq<Row>, rowId: string)
    requires FindByIdKey(rows, rowId).Match?
    ensures exists k :: 0 <= k < |rows| && rows[k] == FindByIdKey(rows, rowId).row && "ID" in rows[k].values &&
              rows[k].values["ID"] == rowId && PassedBefore(rows, rowId, k)
  {
    if "ID" in rows[0].values && rows[0].values["ID"] != rowId {
      FindByIdKeyMatch(rows[1..], rowId);
      var k :| 0 <= k < |rows| - 1 && rows[1..][k] == FindByIdKey(rows, rowId).row && "ID" in rows[1..][k].values &&
        rows[1..][k].values["ID"] == rowId && PassedBefore(rows[1..], rowId, k);
      assert PassedBefore(rows, rowId, k + 1) by {
        assert forall j :: 0 < j <= k ==> rows[j] == rows[1..][j - 1];
      }
    } else {
      assert PassedBefore(rows, rowId, 0);
    }
  }

  /** The scan throws at the first row without an "ID" key, every earlier row
      being keyed and not a match. */
  lemma {:induction false} FindByIdKeyMissing(rows: seq<Row>, rowId: string)
    requires FindByIdKey(rows, rowId).KeyMissing?
    ensures exists k :: 0 <= k < |rows| && "ID" !in rows[k].values && PassedBefore(rows, rowId, k)
  {
    if "ID" in rows[0].values {
      FindByIdKeyMissing(rows[1..], rowId);
      var k :| 0 <= k < |rows| - 1 && "ID" !in rows[1..][k].values && PassedBefore(rows[1..], rowId, k);
      assert PassedBefore(rows, rowId, k + 1) by {
        assert forall j :: 0 < j <= k ==> rows[j] == rows[1..][j - 1];
      }
    } else {
      assert PassedBefore(rows, rowId, 0);
    }
  }

  /** The scan finds nothing exactly when every row is keyed and none matches. */
  lemma {:induction false} FindByIdKeyNone(rows: seq<Row>, rowId: string)
    ensures FindByIdKey(rows, rowId).NoMatch? <==> PassedBefore(rows, rowId, |rows|)
  {
    if rows != [] {
      FindByIdKeyNone(rows[1..], rowId);
      assert forall j :: 0 < j < |rows| ==> rows[j] == rows[1..][j - 1];
    }
  }

  // ---------------------------------------------------------------------
  // The cache as values, for stating what a pre-warm sweep leaves behind.

  /** What a cached instance was built as: its row type and its raw row. */
  datatype Built = Built(rowType: string, raw: map<string, string>)

  type CacheContents = map<string, map<string, Built>>

  predicate Has(contents: CacheContents, tableName: string, rowId: string)
  {
    tableName in contents && rowId in contents[tableName]
  }

  /** What one table's cached instances were built as. */
  function BuiltMap(m: map<string, RowInstance>): map<string, Built>
  {
    map id | id in m :: Built(m[id].rowType, m[id].raw)
  }

  function Contents(cache: ObjectCache): CacheContents
  {
    map t | t in cache :: BuiltMap(cache[t])
  }

  lemma BuiltMapPut(m: map<string, RowInstance>, rowId: string, obj: RowInstance)
    ensures BuiltMap(m[rowId := obj]) == BuiltMap(m)[rowId := Built(obj.rowType, obj.raw)]
  {
  }

  function PutBuilt(contents: CacheContents, tableName: string, rowId: string, b: Built): CacheContents
  {
    contents[tableName := (if tableName in contents then contents[tableName] else map[])[rowId := b]]
  }

  lemma ContentsOfPut(cache: ObjectCache, tableName: string, rowId: string, obj: RowInstance)
    ensures Contents(CachePut(cache, tableName, rowId, obj)) ==
            PutBuilt(Contents(cache), tableName, rowId, Built(obj.rowType, obj.raw))
  {
    var e := Entries(cache, tableName);
    BuiltMapPut(e, rowId, obj);
    assert BuiltMap(e) == if tableName in Contents(cache) then Contents(cache)[tableName] else map[];
  }
}
