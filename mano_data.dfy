/** ManoData: the static runtime entry point over ManoDataDocumentSO assets.
    Init registers the documents, reloads each from its JSON and hands it to
    the OnPreWarm subscribers; GetCachedObject answers a lookup of a row type
    and an id from the first registered document that can answer it. The
    static fields are modelled as the fields of one registry object. */
module ManoDataRuntime {
  import opened DataModel
  import opened Ingestion
  import opened Caches
  import opened ManoDocumentAsset

  /** What a lookup needs to know of one document: its table index (as
      GetTable sees it) and its object cache. */
  datatype View = View(index: map<string, Table>, cache: ObjectCache)

  /** What one document does with a lookup of (tableName, rowId): it has no
      such table, or has neither a cached object nor a row for the id (Pass);
      it returns its cached object (Hit); it materialises the row whose id
      matches (ById); it materialises the first row whose "ID" value matches
      (ByKey); or a row without an "ID" key is met first and the indexer
      throws (Throws). */
  datatype DocStep = Pass | Hit(obj: RowInstance) | ById(row: Row) | ByKey(row: Row) | Throws

  function StepAt(v: View, tableName: string, rowId: string): DocStep
  {
    if tableName !in v.index then Pass
    else if CacheGet(v.cache, tableName, rowId).Some? then Hit(CacheGet(v.cache, tableName, rowId).value)
    else match FindRow(v.index[tableName].rows, rowId)
      case Some(row) => ById(row)
      case None =>
        match FindByIdKey(v.index[tableName].rows, rowId)
        case Match(row) => ByKey(row)
        case KeyMissing => Throws
        case NoMatch => Pass
  }

  /** The outcome of a lookup over the registered documents: answered by the
      document at position `at`, or by none of them. */
  datatype Resolution = Answered(at: nat, step: DocStep) | Absent

  function Later(r: Resolution): Resolution
  {
    if r.Answered? then Answered(r.at + 1, r.step) else Absent
  }

  /** The documents are tried in registration order; the first one that does
      not pass answers. */
  function Resolve(views: seq<View>, tableName: string, rowId: string): (r: Resolution)
    ensures r.Answered? ==>
      r.at < |views| && r.step == StepAt(views[r.at], tableName, rowId) && !r.step.Pass? &&
      forall j :: 0 <= j < r.at ==> StepAt(views[j], tableName, rowId).Pass?
    ensures r.Absent? <==> forall j :: 0 <= j < |views| ==> StepAt(views[j], tableName, rowId).Pass?
  {
    if views == [] then Absent
    else
      var s := StepAt(views[0], tableName, rowId);
      if s.Pass? then
        var rest := Resolve(views[1..], tableName, rowId);
        assert forall j :: 0 < j < |views| ==> views[j] == views[1..][j - 1];
        Later(rest)
      else Answered(0, s)
  }

  /** Once the answering document has cached the object it materialised, the
      same lookup is answered by that document's cache with that object. */
  lemma ResolveAfterPut(views: seq<View>, views': seq<View>, tableName: string, rowId: string, obj: RowInstance)
    requires Resolve(views, tableName, rowId).Answered?
    requires var k := Resolve(views, tableName, rowId).at;
      |views'| == |views| && views'[..k] == views[..k] &&
      views'[k] == View(views[k].index, CachePut(views[k].cache, tableName, rowId, obj))
    ensures Resolve(views', tableName, rowId) == Answered(Resolve(views, tableName, rowId).at, Hit(obj))
  {
    var k := Resolve(views, tableName, rowId).at;
    assert forall j :: 0 <= j < k ==> views'[j] == views[..k][j];
    assert StepAt(views'[k], tableName, rowId) == Hit(obj);
    AnsweredAt(views', tableName, rowId, k);
  }

  /** The result of ManoData.GetCachedObject<T>: an instance, default(T), or
      the KeyNotFoundException thrown by r["ID"]. */
  datatype Lookup = Found(obj: RowInstance) | Default | KeyNotFound

  /** The lookup result agrees with what the answering document does: the
      cached object on a hit, an instance of rowType built from the matched
      row when a row is materialised, the exception when the scan throws. */
  predicate Yields(r: Lookup, s: DocStep, rowType: string)
  {
    match s
    case Pass => false
    case Hit(obj) => r == Found(obj)
    case ById(row) => r.Found? && r.obj.rowType == rowType && r.obj.raw == row.values
    case ByKey(row) => r.Found? && r.obj.rowType == rowType && r.obj.raw == row.values
    case Throws => r == KeyNotFound
  }

  /** The lookup result for a resolution: default(T) when no document answers. */
  predicate Answers(r: Lookup, res: Resolution, rowType: string)
  {
    if res.Absent? then r == Default else Yields(r, res.step, rowType)
  }

  /** The views of the registered documents, in order. */
  function ViewsOf(docs: seq<ManoDataDocumentSO>): (vs: seq<View>)
    reads set d | d in docs
    ensures |vs| == |docs|
    ensures forall k :: 0 <= k < |docs| ==> vs[k] == View(docs[k].EffectiveIndex(), docs[k].objectCache)
  {
    if docs == [] then []
    else ViewsOf(docs[..|docs| - 1]) + [View(docs[|docs| - 1].EffectiveIndex(), docs[|docs| - 1].objectCache)]
  }

  /** The static state of ManoData: the registered documents and the record
      of the documents handed to OnPreWarm, in order. */
  class ManoDataRegistry {
    var documents: seq<ManoDataDocumentSO>
    var preWarmed: seq<ManoDataDocumentSO>

    constructor ()
      ensures documents == [] && preWarmed == []
    {
      documents := [];
      preWarmed := [];
    }

    /** Replaces the registered documents by docs, reloads each from its raw
        JSON (a document listed twice is reloaded twice, to the same result)
        and hands each to OnPreWarm. Object caches are not cleared. */
    method Init(docs: seq<ManoDataDocumentSO>, now: string)
      modifies this, (set d | d in docs)`document, (set d | d in docs)`tableCache, (set d | d in docs)`lastEdit
      ensures documents == docs
      ensures preWarmed == old(preWarmed) + docs
      ensures forall d :: d in docs ==> LoadedFrom(d, now)
    {
      documents := docs;
      var i := 0;
      while i < |docs|
        invariant 0 <= i <= |docs|
        invariant documents == docs
        invariant preWarmed == old(preWarmed) + docs[..i]
        invariant forall d :: d in docs[..i] ==> LoadedFrom(d, now)
        invariant forall d :: d in docs && d !in docs[..i] ==> Untouched(d)
      {
        var doc := docs[i];
        doc.LoadDataFromJSON(now);
        preWarmed := preWarmed + [doc];
        assert docs[..i + 1] == docs[..i] + [doc];
        forall d | d in docs[..i + 1]
          ensures LoadedFrom(d, now)
        {
        }
        forall d | d in docs && d !in docs[..i + 1]
          ensures Untouched(d)
        {
        }
        i := i + 1;
      }
      assert docs[..i] == docs;
    }

    /** ManoData.GetCachedObject<T>(rowId), with T named rowType: the table
        searched is the one named like the row type. The documents are asked in
        order and the first one that answers decides; with no answer the
        result is default(T). */
    method GetCachedObject(rowType: string, rowId: string) returns (r: Lookup)
      modifies (set d | d in documents)`tableCache, (set d | d in documents)`objectCache
      ensures Answers(r, old(Resolve(ViewsOf(documents), rowType, rowId)), rowType)
      ensures forall d :: d in documents ==> d.EffectiveIndex() == old(d.EffectiveIndex())
      ensures r.Found? ==>
        var k := old(Resolve(ViewsOf(documents), rowType, rowId)).at;
        var d := documents[k];
        CacheGet(d.objectCache, rowType, rowId) == Some(r.obj) &&
        d.objectCache == (if old(CacheGet(d.objectCache, rowType, rowId)).None?
                          then CachePut(old(d.objectCache), rowType, rowId, r.obj)
                          else old(d.objectCache)) &&
        forall d' :: d' in documents && d' != d ==> Kept(d')
      ensures !r.Found? ==> forall d :: d in documents ==> Kept(d)
    {
      var tableName := rowType;
      var docs := documents;
      ghost var views := ViewsOf(docs);
      var i := 0;
      while i < |docs|
        invariant 0 <= i <= |docs|
        invariant forall j :: 0 <= j < i ==> StepAt(views[j], tableName, rowId).Pass?
        invariant forall d :: d in docs ==> Kept(d)
      {
        var doc := docs[i];
        assert views[i] == old(View(doc.EffectiveIndex(), doc.objectCache));
        assert Kept(doc);
        var answer := Ask(doc, rowType, rowId);
        if answer.Some? {
          r := answer.value;
          AnsweredAt(views, tableName, rowId, i);
          forall d | d in docs && d != doc
            ensures Kept(d)
          {
          }
          return;
        }
        forall d | d in docs
          ensures Kept(d)
        {
        }
        i := i + 1;
      }
      r := Default;
    }
  }

  /** Neither the effective table index nor the object cache of d changed. */
  twostate predicate Kept(d: ManoDataDocumentSO)
    reads d
  {
    d.EffectiveIndex() == old(d.EffectiveIndex()) && d.objectCache == old(d.objectCache)
  }

  /** Reloading leaves d as LoadDataFromJSON promises. */
  twostate predicate LoadedFrom(d: ManoDataDocumentSO, now: string)
    reads d
  {
    d.document == Reloaded(old(d.document), d.rawJson, now) &&
    if d.rawJson.Parsed? then d.lastEdit == now && d.tableCache == Index(TablesOf(d.document))
    else d.lastEdit == old(d.lastEdit) && d.tableCache == old(d.tableCache)
  }

  twostate predicate Untouched(d: ManoDataDocumentSO)
    reads d
  {
    d.document == old(d.document) && d.lastEdit == old(d.lastEdit) && d.tableCache == old(d.tableCache)
  }

  /** One document's part of ManoData.GetCachedObject: if it holds the table,
      its own GetCachedObject is tried; failing that, its rows are searched by
      their "ID" value (the indexer throwing on a row without that key) and a
      match is pre-warmed and fetched from the cache. None: move on. */
  method Ask(doc: ManoDataDocumentSO, rowType: string, rowId: string) returns (answer: Option<Lookup>)
    modifies doc`tableCache, doc`objectCache
    ensures var s := old(StepAt(View(doc.EffectiveIndex(), doc.objectCache), rowType, rowId));
      (answer.None? <==> s.Pass?) &&
      (answer.Some? ==> Yields(answer.value, s, rowType))
    ensures doc.EffectiveIndex() == old(doc.EffectiveIndex())
    ensures answer.Some? && answer.value.Found? ==> CacheGet(doc.objectCache, rowType, rowId) == Some(answer.value.obj)
    ensures if answer.Some? && answer.value.Found? && old(CacheGet(doc.objectCache, rowType, rowId)).None?
      then doc.objectCache == CachePut(old(doc.objectCache), rowType, rowId, answer.value.obj)
      else doc.objectCache == old(doc.objectCache)
  {
    var tableName := rowType;
    var table := doc.GetTable(tableName);
    if table.None? {
      return None;
    }
    var result := doc.GetCachedObject(rowType, tableName, rowId);
    if result.Some? {
      return Some(Found(result.value));
    }
    var again := doc.GetTable(tableName);
    var scan := FindByIdKey(again.value.rows, rowId);
    if scan.KeyMissing? {
      return Some(KeyNotFound);
    }
    if scan.NoMatch? {
      return None;
    }
    doc.PreWarmObject(rowType, tableName, rowId, scan.row.values);
    result := doc.GetCachedObject(rowType, tableName, rowId);
    answer := Some(Found(result.value));
  }

  /** The document at position k answers when every earlier one passed. */
  lemma AnsweredAt(views: seq<View>, tableName: string, rowId: string, k: nat)
    requires k < |views| && !StepAt(views[k], tableName, rowId).Pass?
    requires forall j :: 0 <= j < k ==> StepAt(views[j], tableName, rowId).Pass?
    ensures Resolve(views, tableName, rowId) == Answered(k, StepAt(views[k], tableName, rowId))
  {
  }
}
