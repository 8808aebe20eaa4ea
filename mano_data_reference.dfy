/** ManoDataReference: a serialised reference to one row (document asset, group,
    table and row id) that resolves itself through ManoData. */
module References {
  import opened DataModel
  import opened Ingestion
  import opened Caches
  import opened ManoDocumentAsset
  import opened ManoDataRuntime

  class ManoDataReference {
    var document: ManoDataDocumentSO?
    var groupName: string
    var tableName: string
    var rowId: string

    /** The referenced asset, as a frame. */
    function Asset(): set<ManoDataDocumentSO>
      reads this
    {
      if document == null then {} else {document}
    }

    /** IsValid: both the table name and the row id are set. */
    predicate IsValid(): (valid: bool)
      reads this
      ensures valid <==> tableName != "" && rowId != ""
    {
      tableName != "" && rowId != ""
    }

    /** Registers the referenced asset as ManoData's only document (reloading
        it), when there is one. */
    method ValidateInit(registry: ManoDataRegistry, now: string)
      modifies registry, Asset()`document, Asset()`tableCache, Asset()`lastEdit
      ensures document == null ==> unchanged(registry)
      ensures document != null ==>
        registry.documents == [document] && registry.preWarmed == old(registry.preWarmed) + [document] &&
        LoadedFrom(document, now)
    {
      if document != null {
        registry.Init([document], now);
      }
    }

    /** GetData<T>(), with T named rowType: ManoData is (re)initialised with
        the referenced asset, then an empty row id gives default(T) and any
        other is looked up through ManoData by the row type. The reference's
        own tableName and groupName take no part in the lookup. With the asset
        set, it becomes ManoData's only document, reloaded, and answers from
        its reloaded tables and its object cache; without it, ManoData keeps
        its documents and answers from them. */
    method GetData(registry: ManoDataRegistry, rowType: string, now: string) returns (r: Lookup)
      modifies registry, Asset()`document, Asset()`tableCache, Asset()`lastEdit, Asset()`objectCache
      modifies (set d | d in registry.documents && document == null)`tableCache, (set d | d in registry.documents && document == null)`objectCache
      ensures rowId == "" ==> r == Default
      ensures rowId != "" && document == null ==>
        Answers(r, old(Resolve(ViewsOf(registry.documents), rowType, rowId)), rowType)
      ensures rowId != "" && document != null ==>
        var index := if document.rawJson.Parsed? then Index(EnvelopeTables(document.rawJson.envelope))
                     else old(document.EffectiveIndex());
        Answers(r, Resolve([View(index, old(document.objectCache))], rowType, rowId), rowType)
      ensures document != null ==>
        registry.documents == [document] && registry.preWarmed == old(registry.preWarmed) + [document] &&
        document.document == Reloaded(old(document.document), document.rawJson, now) &&
        document.lastEdit == (if document.rawJson.Parsed? then now else old(document.lastEdit)) &&
        document.EffectiveIndex() == (if document.rawJson.Parsed? then Index(EnvelopeTables(document.rawJson.envelope))
                                      else old(document.EffectiveIndex())) &&
        document.objectCache == (if r.Found? && old(CacheGet(document.objectCache, rowType, rowId)).None?
                                 then CachePut(old(document.objectCache), rowType, rowId, r.obj)
                                 else old(document.objectCache))
      ensures document == null ==>
        registry.documents == old(registry.documents) && registry.preWarmed == old(registry.preWarmed)
      ensures document == null && r.Found? ==>
        var k := old(Resolve(ViewsOf(registry.documents), rowType, rowId)).at;
        var d := registry.documents[k];
        d.objectCache == (if old(CacheGet(d.objectCache, rowType, rowId)).None?
                          then CachePut(old(d.objectCache), rowType, rowId, r.obj)
                          else old(d.objectCache)) &&
        forall d' :: d' in registry.documents && d' != d ==> Kept(d')
      ensures document == null ==> forall d :: d in registry.documents ==> d.EffectiveIndex() == old(d.EffectiveIndex())
      ensures document == null && !r.Found? ==> forall d :: d in registry.documents ==> Kept(d)
    {
      if document != null {
        r := GetDataBound(registry, rowType, now);
      } else {
        r := GetDataUnbound(registry, rowType, now);
      }
    }

    /** GetData with the asset set: its body, for that case. */
    method GetDataBound(registry: ManoDataRegistry, rowType: string, now: string) returns (r: Lookup)
      requires document != null
      modifies registry, document`document, document`tableCache, document`lastEdit, document`objectCache
      ensures rowId == "" ==> r == Default
      ensures rowId != "" ==>
        var index := if document.rawJson.Parsed? then Index(EnvelopeTables(document.rawJson.envelope))
                     else old(document.EffectiveIndex());
        Answers(r, Resolve([View(index, old(document.objectCache))], rowType, rowId), rowType)
      ensures registry.documents == [document] && registry.preWarmed == old(registry.preWarmed) + [document]
      ensures document.document == Reloaded(old(document.document), document.rawJson, now)
      ensures document.lastEdit == if document.rawJson.Parsed? then now else old(document.lastEdit)
      ensures document.EffectiveIndex() == if document.rawJson.Parsed? then Index(EnvelopeTables(document.rawJson.envelope))
                                           else old(document.EffectiveIndex())
      ensures document.objectCache == if r.Found? && old(CacheGet(document.objectCache, rowType, rowId)).None?
                                      then CachePut(old(document.objectCache), rowType, rowId, r.obj)
                                      else old(document.objectCache)
    {
      ghost var index := if document.rawJson.Parsed? then Index(EnvelopeTables(document.rawJson.envelope))
                         else document.EffectiveIndex();
      ghost var cache := document.objectCache;
      ValidateInit(registry, now);
      assert document.objectCache == cache;
      assert document.EffectiveIndex() == index;
      if rowId == "" {
        return Default;
      }
      assert ViewsOf(registry.documents) == [View(index, cache)];
      r := registry.GetCachedObject(rowType, rowId);
      assert registry.documents[0] == document;
    }

    /** GetData without the asset: its body, for that case, where ValidateInit
        does nothing. */
    method GetDataUnbound(registry: ManoDataRegistry, rowType: string, now: string) returns (r: Lookup)
      requires document == null
      modifies registry, (set d | d in registry.documents)`tableCache, (set d | d in registry.documents)`objectCache
      ensures rowId == "" ==> r == Default
      ensures rowId != "" ==> Answers(r, old(Resolve(ViewsOf(registry.documents), rowType, rowId)), rowType)
      ensures registry.documents == old(registry.documents) && registry.preWarmed == old(registry.preWarmed)
      ensures r.Found? ==>
        var k := old(Resolve(ViewsOf(registry.documents), rowType, rowId)).at;
        var d := registry.documents[k];
        d.objectCache == (if old(CacheGet(d.objectCache, rowType, rowId)).None?
                          then CachePut(old(d.objectCache), rowType, rowId, r.obj)
                          else old(d.objectCache)) &&
        forall d' :: d' in registry.documents && d' != d ==> Kept(d')
      ensures forall d :: d in registry.documents ==> d.EffectiveIndex() == old(d.EffectiveIndex())
      ensures !r.Found? ==> forall d :: d in registry.documents ==> Kept(d)
    {
      if rowId == "" {
        return Default;
      }
      r := registry.GetCachedObject(rowType, rowId);
    }
  }
}
