/** GameData: the static runtime entry point over one GameDataDocumentSO.
    Init makes the asset current, reloading it unless it is already the
    current, loaded asset; GetCachedObject reads that asset's object cache.
    The static fields are modelled as the fields of one registry object. */
module GameDataRuntime {
  import opened DataModel
  import opened Ingestion
  import opened Caches
  import opened GameDocumentAsset

  /** The static state of GameData: the current asset (null before the first
      Init) and the record of the assets handed to OnPreWarm, in order. */
  class GameDataRegistry {
    var instance: GameDataDocumentSO?
    var preWarmed: seq<GameDataDocumentSO>

    constructor ()
      ensures instance == null && preWarmed == []
    {
      instance := null;
      preWarmed := [];
    }

    /** GameData.Init(so): nothing happens when so is already the current
        asset and has a document; otherwise so becomes current, is reloaded
        from its raw JSON and is handed to OnPreWarm. */
    method Init(so: GameDataDocumentSO, now: string)
      modifies this, so`document, so`tableCache, so`lastEdit
      ensures instance == so
      ensures old(instance) == so && old(so.document).Some? ==>
        preWarmed == old(preWarmed) && unchanged(so)
      ensures !(old(instance) == so && old(so.document).Some?) ==>
        preWarmed == old(preWarmed) + [so] &&
        so.document == Reloaded(old(so.document), so.rawJson, now) &&
        (so.rawJson.Parsed? ==> so.lastEdit == now && so.tableCache == Index(TablesOf(so.document))) &&
        (!so.rawJson.Parsed? ==> so.lastEdit == old(so.lastEdit) && so.tableCache == old(so.tableCache))
      ensures so.document.Some? <==> old(so.document).Some? || so.rawJson.Parsed?
    {
      if instance == so && so.document.Some? {
        return;
      }
      instance := so;
      so.LoadDataFromJSON(now);
      preWarmed := preWarmed + [so];
    }

    /** GameData.GetCachedObject<T>(tableName, rowId): the current asset's
        cached object, or default(T) when there is no current asset or it has
        not cached one. Nothing changes. */
    method GetCachedObject(tableName: string, rowId: string) returns (r: Option<RowInstance>)
      ensures instance == null ==> r.None?
      ensures instance != null ==> (r.Some? <==> Has(Contents(instance.objectCache), tableName, rowId))
      ensures r.Some? ==> r.value == instance.objectCache[tableName][rowId]
    {
      if instance == null {
        return None;
      }
      r := instance.GetCachedObject(tableName, rowId);
    }
  }
}
