/** The sheet-selection part of the hub editor window: which fetched sheet
    titles are offered, the select-all and generate-all toggles, and the
    import and generate lists a sync derives from the offered sheets. */
module HubTool {
  import opened DataModel
  import opened Strings
  import opened Ingestion
  import Caches
  import opened ManoDocumentAsset
  import opened CodeGen

  /** A fetched title is offered when it is set, is not "Welcome" and does not
      start with '_'. */
  predicate KeepTitle(title: string)
  {
    title != "" && title != "Welcome" && !StartsWith(title, "_")
  }

  /** The offered titles, in response order. */
  function KeptTitles(titles: seq<string>): (kept: seq<string>)
    ensures |kept| <= |titles|
  {
    if titles == [] then []
    else KeptTitles(titles[..|titles| - 1]) + (if KeepTitle(titles[|titles| - 1]) then [titles[|titles| - 1]] else [])
  }

  /** A title is offered exactly when it was fetched and passes the test. */
  lemma {:induction false} KeptTitlesMembers(titles: seq<string>, t: string)
    ensures t in KeptTitles(titles) <==> t in titles && KeepTitle(t)
  {
    if titles != [] {
      var n := |titles| - 1;
      KeptTitlesMembers(titles[..n], t);
      assert titles == titles[..n] + [titles[n]];
    }
  }

  /** What the window reads of one offered sheet. */
  datatype Entry = Entry(name: string, selected: bool, genCode: bool)

  function Entries(sheets: seq<SelectedSheet>): (es: seq<Entry>)
    reads set s | s in sheets
    ensures |es| == |sheets|
    ensures forall k :: 0 <= k < |sheets| ==>
      es[k] == Entry(sheets[k].sheetName, sheets[k].isSelected, sheets[k].isGenCode)
  {
    if sheets == [] then []
    else
      var s := sheets[|sheets| - 1];
      Entries(sheets[..|sheets| - 1]) + [Entry(s.sheetName, s.isSelected, s.isGenCode)]
  }

  /** availableSheets.Where(s => s.IsSelected).Select(s => s.SheetName). */
  function ImportNames(es: seq<Entry>): seq<string>
  {
    if es == [] then []
    else ImportNames(es[..|es| - 1]) + (if es[|es| - 1].selected then [es[|es| - 1].name] else [])
  }

  /** availableSheets.Where(s => s.IsSelected && s.IsGenCode).Select(s => s.SheetName). */
  function GenerateNames(es: seq<Entry>): seq<string>
  {
    if es == [] then []
    else
      var e := es[|es| - 1];
      GenerateNames(es[..|es| - 1]) + (if e.selected && e.genCode then [e.name] else [])
  }

  /** a is b with some elements deleted. */
  predicate SubList(a: seq<string>, b: seq<string>)
    decreases |b|
  {
    if a == [] then true
    else if b == [] then false
    else (a[|a| - 1] == b[|b| - 1] && SubList(a[..|a| - 1], b[..|b| - 1])) || SubList(a, b[..|b| - 1])
  }

  /** Every sheet generated was imported, in the same relative order. */
  lemma {:induction false} GenerateWithinImport(es: seq<Entry>)
    ensures SubList(GenerateNames(es), ImportNames(es))
  {
    if es != [] {
      var n := |es| - 1;
      GenerateWithinImport(es[..n]);
      var g := GenerateNames(es[..n]);
      var i := ImportNames(es[..n]);
      if es[n].selected && es[n].genCode {
        assert GenerateNames(es) == g + [es[n].name] && ImportNames(es) == i + [es[n].name];
        assert (g + [es[n].name])[..|g|] == g && (i + [es[n].name])[..|i|] == i;
      } else if es[n].selected {
        assert GenerateNames(es) == g && ImportNames(es) == i + [es[n].name];
        assert (i + [es[n].name])[..|i|] == i;
        SubListDropLast(g, i, es[n].name);
      } else {
        assert GenerateNames(es) == g && ImportNames(es) == i;
      }
    }
  }

  lemma SubListDropLast(a: seq<string>, b: seq<string>, x: string)
    requires SubList(a, b)
    ensures SubList(a, b + [x])
  {
    assert (b + [x])[..|b|] == b;
  }

  /** A sheet name is imported exactly when some selected entry carries it. */
  lemma {:induction false} ImportNamesMembers(es: seq<Entry>, name: string)
    ensures name in ImportNames(es) <==> exists k :: 0 <= k < |es| && es[k].selected && es[k].name == name
  {
    if es != [] {
      var n := |es| - 1;
      ImportNamesMembers(es[..n], name);
      assert forall k :: 0 <= k < n ==> es[..n][k] == es[k];
    }
  }

  /** With every generate flag on, the generate list is the import list. */
  lemma {:induction false} AllGenerateIsImport(es: seq<Entry>)
    requires forall k :: 0 <= k < |es| ==> es[k].genCode
    ensures GenerateNames(es) == ImportNames(es)
  {
    if es != [] {
      AllGenerateIsImport(es[..|es| - 1]);
    }
  }

  /** With every import flag off, nothing is imported. */
  lemma {:induction false} NoneSelectedImportsNothing(es: seq<Entry>)
    requires forall k :: 0 <= k < |es| ==> !es[k].selected
    ensures ImportNames(es) == [] && GenerateNames(es) == []
  {
    if es != [] {
      NoneSelectedImportsNothing(es[..|es| - 1]);
    }
  }

  /** One batchGet range per imported sheet: columns A to Z of rows 1 to 5000.
      EscapeURL is taken as the identity. */
  function RangeTerm(name: string): string
  {
    "ranges=" + name + "!A1:Z5000"
  }

  /** The query string of the batch fetch: the range terms joined by '&'. */
  function RangesQuery(names: seq<string>): string
  {
    Join("&", seq(|names|, k requires 0 <= k < |names| => RangeTerm(names[k])))
  }

  /** Splitting the query at '&' gives back one term per imported sheet, in
      order, when no sheet name holds '&'. */
  lemma RangesQueryTerms(names: seq<string>)
    requires names != []
    requires forall k :: 0 <= k < |names| ==> '&' !in names[k]
    ensures Split(RangesQuery(names), '&') == seq(|names|, k requires 0 <= k < |names| => RangeTerm(names[k]))
  {
    var terms := seq(|names|, k requires 0 <= k < |names| => RangeTerm(names[k]));
    forall k | 0 <= k < |terms|
      ensures '&' !in terms[k]
    {
      assert terms[k] == "ranges=" + names[k] + "!A1:Z5000";
    }
    SplitJoin(terms, '&');
  }

  /** The range a term asks for names its sheet, as ingestion reads it back. */
  lemma RangeTermNamesSheet(name: string)
    requires '!' !in name && '\'' !in name
    ensures SheetNameOf(RangeTerm(name)[7..]) == name
  {
    assert RangeTerm(name)[7..] == name + "!" + "A1:Z5000";
    SheetNameRoundTrip(name, "A1:Z5000");
  }

  /** The editor window over one document asset. */
  class ManoDataHub {
    var target: ManoDataDocumentSO

    constructor (target: ManoDataDocumentSO)
      ensures this.target == target
    {
      this.target := target;
    }

    /** The sheet-list refresh of FindAllSheetsAsync. titles is the "sheets"
        array of a successful response (a missing title read as ""), or None
        when the request failed or the array is absent: then nothing changes.
        Otherwise the list is replaced by one new entry per offered title, in
        response order, selected and marked for generation. */
    method FindAllSheets(titles: Option<seq<string>>)
      modifies target`availableSheets
      ensures titles.None? ==> target.availableSheets == old(target.availableSheets)
      ensures titles.Some? ==>
        var kept := KeptTitles(titles.value);
        |target.availableSheets| == |kept| &&
        forall k :: 0 <= k < |kept| ==>
          fresh(target.availableSheets[k]) && target.availableSheets[k].sheetName == kept[k] &&
          target.availableSheets[k].isSelected && target.availableSheets[k].isGenCode
    {
      if titles.None? {
        return;
      }
      var ts := titles.value;
      target.availableSheets := [];
      var i := 0;
      while i < |ts|
        invariant 0 <= i <= |ts|
        invariant |target.availableSheets| == |KeptTitles(ts[..i])|
        invariant forall k :: 0 <= k < |target.availableSheets| ==>
          fresh(target.availableSheets[k]) && target.availableSheets[k].sheetName == KeptTitles(ts[..i])[k] &&
          target.availableSheets[k].isSelected && target.availableSheets[k].isGenCode
      {
        var title := ts[i];
        if title != "" && title != "Welcome" && !StartsWith(title, "_") {
          var selected := new SelectedSheet(title);
          target.availableSheets := target.availableSheets + [selected];
        }
        assert ts[..i + 1][..i] == ts[..i];
        i := i + 1;
      }
      assert ts[..i] == ts;
    }

    /** SetAllImportSheets(val): every offered sheet's import flag becomes val;
        names and generate flags are untouched. */
    method SetAllImportSheets(val: bool)
      modifies (set s | s in target.availableSheets)`isSelected
      ensures var es := Entries(target.availableSheets);
        forall k :: 0 <= k < |es| ==> es[k] == old(Entries(target.availableSheets))[k].(selected := val)
    {
      var sheets := target.availableSheets;
      var i := 0;
      while i < |sheets|
        invariant 0 <= i <= |sheets|
        invariant forall s :: s in sheets ==> s.sheetName == old(s.sheetName) && s.isGenCode == old(s.isGenCode)
        invariant forall k :: 0 <= k < i ==> sheets[k].isSelected == val
      {
        sheets[i].isSelected := val;
        i := i + 1;
      }
    }

    /** SetAllGenerateCodeSheets(val): every offered sheet's generate flag
        becomes val; names and import flags are untouched. */
    method SetAllGenerateCodeSheets(val: bool)
      modifies (set s | s in target.availableSheets)`isGenCode
      ensures var es := Entries(target.availableSheets);
        forall k :: 0 <= k < |es| ==> es[k] == old(Entries(target.availableSheets))[k].(genCode := val)
    {
      var sheets := target.availableSheets;
      var i := 0;
      while i < |sheets|
        invariant 0 <= i <= |sheets|
        invariant forall s :: s in sheets ==> s.sheetName == old(s.sheetName) && s.isSelected == old(s.isSelected)
        invariant forall k :: 0 <= k < i ==> sheets[k].isGenCode == val
      {
        sheets[i].isGenCode := val;
        i := i + 1;
      }
    }

    /** SyncAndGenerateAsync. With no sheet selected nothing is fetched and
        nothing changes. Otherwise the batch query is built from the import
        list; fetched is the response body of a successful request (None: the
        request failed, nothing changes). */
    method SyncAndGenerate(fetched: Option<RawJson>, now: string, existing: set<string>)
      returns (query: Option<string>, units: seq<Unit>)
      modifies target
      ensures var es := old(Entries(target.availableSheets));
        query == if ImportNames(es) == [] then None else Some(RangesQuery(ImportNames(es)))
      ensures query.None? || fetched.None? ==> unchanged(target) && units == []
      ensures query.Some? && fetched.Some? ==>
        target.rawJson == fetched.value &&
        target.document == Reloaded(old(target.document), fetched.value, now) &&
        (if fetched.value.Parsed? then target.lastEdit == now && target.tableCache == Caches.Index(TablesOf(target.document))
         else target.lastEdit == old(target.lastEdit) && target.tableCache == old(target.tableCache)) &&
        target.availableSheets == old(target.availableSheets) && target.generatedSheets == old(target.generatedSheets) &&
        target.generatedCodePath == old(target.generatedCodePath) &&
        target.nameSpaceDocument == old(target.nameSpaceDocument) && target.objectCache == old(target.objectCache) &&
        units == GeneratedUnits(TablesOf(target.document), Some(GenerateNames(old(Entries(target.availableSheets)))),
                                OutputPath(target.generatedCodePath), Namespace(target.nameSpaceDocument), existing)
    {
      var toImport := ImportNames(Entries(target.availableSheets));
      if toImport == [] {
        return None, [];
      }
      query := Some(RangesQuery(toImport));
      if fetched.None? {
        return query, [];
      }
      units := ImportAndGenerate(target, fetched.value, now, existing);
    }

    /** The success branch of the sync: the body becomes the raw JSON, the
        document is reloaded, and code is generated for the sheets both
        selected and marked for generation. */
    static method ImportAndGenerate(so: ManoDataDocumentSO, body: RawJson, now: string, existing: set<string>)
      returns (units: seq<Unit>)
      modifies so
      ensures so.rawJson == body
      ensures so.document == Reloaded(old(so.document), body, now)
      ensures body.Parsed? ==> so.lastEdit == now && so.tableCache == Caches.Index(TablesOf(so.document))
      ensures !body.Parsed? ==> so.lastEdit == old(so.lastEdit) && so.tableCache == old(so.tableCache)
      ensures so.availableSheets == old(so.availableSheets) && so.generatedSheets == old(so.generatedSheets)
      ensures so.generatedCodePath == old(so.generatedCodePath)
      ensures so.nameSpaceDocument == old(so.nameSpaceDocument) && so.objectCache == old(so.objectCache)
      ensures units == GeneratedUnits(TablesOf(so.document), Some(GenerateNames(old(Entries(so.availableSheets)))),
                                      OutputPath(so.generatedCodePath), Namespace(so.nameSpaceDocument), existing)
    {
      ghost var es := Entries(so.availableSheets);
      so.rawJson := body;
      so.LoadDataFromJSON(now);
      assert Entries(so.availableSheets) == es;
      var toGen := GenerateNames(Entries(so.availableSheets));
      units := Generate(so, Some(toGen), now, existing);
    }
  }
}
