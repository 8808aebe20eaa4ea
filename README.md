# Mano Game Data — a Dafny model of the sheet-to-typed-data pipeline

Mano Game Data is a Unity package. It pulls a Google spreadsheet into a
ScriptableObject asset, generates one C# row class per sheet plus a registry,
and at run time materialises rows into instances of those classes, with a cache.
This project models the core of that pipeline and proves what it promises.

- **Ingestion.** The model covers `ManoDataDocumentSO.LoadDataFromJSON` and
  `ParseGoogleSheet`, and their near-copies in `GameDataDocumentSO`.
  - A value range is a grid. Row 0 holds the column names, row 1 the type tags,
    and each later row either starts a logical row or continues the last one.
  - A continuation row appends `"|" + value` to every column. An empty cell
    carries forward the column's previous value.
  - The loops are methods over an `array` carry-forward buffer, proved equal to
    a left fold (`Ingestion.Fold`). The fold's properties are lemmas.
- **Code generation** (`ManoDataCodeGenerator`).
  - `MapType` and `SanitizeName` are functions.
  - `BuildClassCode` and `BuildRegistryCode` build a sequence of typed lines,
    and `Render` gives each line's exact text.
  - `Generate` is a method returning the list of (path, lines) units it writes.
- **Materialisation caches.** Each asset keeps a table index (`BuildIndex` /
  `GetTable`) and an object cache (`PreWarmObject` / `GetCachedObject`).
  - These are fields of the Dafny classes `ManoDataDocumentSO` and
    `GameDataDocumentSO`.
  - The static front ends `ManoData`, `GameData` and `ManoDataReference` are
    classes whose fields stand for the static state.
  - `ManoData.GetCachedObject` is proved against `Resolve`, a specification of
    the document-by-document search.
- **Sheet selection** in `ManoDataHubTool`: the title filter, the select-all
  flags, and the derivation of the import list, the generate list and the batch
  query.

## Model

| member | source | states |
|---|---|---|
| DataModel.NewDocument | Runtime/Core/ManoDataDocument.cs:7-12 | a new document has no tables and no groups |
| DataModel.NewTable | Runtime/Core/ManoDataDocument.cs:15-21 | a new table keeps its name and group and has no rows and no schema |
| DataModel.ColumnNames | Runtime/Core/ManoDataDocument.cs:20-27 | the schema's column names, one per column, in column order |
| Strings.LowerIdempotent | Editor/ManoDataCodeGenerator.cs:98 | lower-casing a tag twice is lower-casing it once |
| Strings.RemoveEachIsStrip | Editor/ManoDataCodeGenerator.cs:209-215 | a chain of single-character `Replace(c, "")` calls deletes exactly the union of those characters |
| Strings.SplitJoin | Editor/ManoDataCodeGenerator.cs:120 | splitting `Join(c, xs)` on `c` gives `xs` back when no piece contains `c` |
| Strings.BeforeFirst | Runtime/ScriptableObject/ManoDataDocumentSO.cs:60 | `Split('!')[0]` is the longest prefix without `'!'`, followed by `'!'` or the end of the string |
| Ingestion.FoldSnoc | Runtime/ScriptableObject/ManoDataDocumentSO.cs:106-146 | the row loop handles the data rows left to right: one more row is one more step of the scan |
| Ingestion.ScanShape | Runtime/ScriptableObject/ManoDataDocumentSO.cs:109-145 | every logical row has a non-empty id; its keys are exactly the column names; adjacent rows have different ids; `lastId` is the last row's id, or "" before any row |
| Ingestion.OneRowPerDataRow | Runtime/ScriptableObject/ManoDataDocumentSO.cs:113-130 | with distinct column names, when each data row has a non-empty first cell that differs from the previous row's, each data row gives exactly one logical row with its own cells, missing cells read as "" |
| Ingestion.OrphansDropped | Runtime/ScriptableObject/ManoDataDocumentSO.cs:131 | continuation rows arriving before any logical row has started leave no trace |
| Ingestion.MergedRow | Runtime/ScriptableObject/ManoDataDocumentSO.cs:131-145 | with distinct column names, a starting row and its continuation rows make one logical row that keeps the starting id; column c holds the "\|"-join of its carried values, and earlier rows are untouched |
| Ingestion.MergedRowSplits | Runtime/ScriptableObject/ManoDataDocumentSO.cs:141 | splitting a merged value on '\|' gives one item per source row when no cell of that column contains '\|' |
| Ingestion.ContinuationExample | Runtime/ScriptableObject/ManoDataDocumentSO.cs:113-145 | `["A","x","1"]` followed by `["","y","2"]` gives one row with id "A" holding id "A\|A", name "x\|y" and val "1\|2" |
| Ingestion.BatchTablesInOrder | Runtime/ScriptableObject/ManoDataDocumentSO.cs:55-62 | when every range has at least two rows, there is one table per value range, in range order, named by `SheetNameOf` of its range, in group "Default" |
| Ingestion.ReloadedGroups | Runtime/ScriptableObject/ManoDataDocumentSO.cs:52-71 | after a successful load, the group list is exactly ["Default"], every table is in group "Default", and lastEdit is the load time |
| Ingestion.SheetNameRoundTrip | Runtime/ScriptableObject/ManoDataDocumentSO.cs:60 | the range string `title!cells` or `'title'!cells` gives back `title` when the title contains neither '!' nor a quote |
| Ingestion.CarriedUpTo | Runtime/ScriptableObject/ManoDataDocumentSO.cs:134-139 | the carry-forward buffer after n columns of a continuation row: unchanged at 0, `NextLastValues` at the end |
| Caches.IndexFindsLast | Runtime/ScriptableObject/ManoDataDocumentSO.cs:150-158 | the index holds exactly the table names, and each name maps to the last table carrying it |
| Caches.CachePut | Runtime/ScriptableObject/ManoDataDocumentSO.cs:160-168 | after a put, (tableName, rowId) yields the new object and every other entry is unchanged |
| Caches.ContentsOfPut | Runtime/ScriptableObject/ManoDataDocumentSO.cs:160-168 | the observable cache contents after a put are the old contents with that one entry set; the per-table map is created on demand |
| Caches.FindRowFirst | Runtime/ScriptableObject/ManoDataDocumentSO.cs:180 | `FirstOrDefault(r => r.id == rowId)` returns the first row with that id, and nothing exactly when no row has it |
| Caches.FindByIdKeyMatch | Runtime/Core/ManoData.cs:40 | a match is the first row whose "ID" value is rowId, and every earlier row has an "ID" key |
| Caches.FindByIdKeyMissing | Runtime/Core/ManoData.cs:40 | the scan throws at the first row without an "ID" key, when every earlier row had one and did not match |
| Caches.FindByIdKeyNone | Runtime/Core/ManoData.cs:40 | the scan finds nothing exactly when every row has an "ID" key and none equals rowId |
| Caches.RowInstance.constructor | Runtime/ScriptableObject/ManoDataDocumentSO.cs:165-166 | `new T()` followed by `SetData(raw)`: the instance records its row type and its raw map |
| ManoDocumentAsset.SelectedSheet.constructor | Runtime/ScriptableObject/ManoDataDocumentSO.cs:258-263 | a new entry has both IsSelected and IsGenCode set |
| ManoDocumentAsset.SanitizeTableNameIsReplaceChain | Runtime/ScriptableObject/ManoDataDocumentSO.cs:250-254 | `SanitizeTableName` is the chain `Replace("_")`, `Replace(" ")`, `Replace("-")` |
| ManoDocumentAsset.FindType | Runtime/ScriptableObject/ManoDataDocumentSO.cs:225-227 | the type found matches by full name or by simple name; nothing is found exactly when no loaded type matches either way |
| ManoDocumentAsset.WarmRowsEntries | Runtime/ScriptableObject/ManoDataDocumentSO.cs:233-243 | pre-warming a table's rows adds exactly the rows with a non-empty id, typed by the row type, and keeps the other entries |
| ManoDocumentAsset.WarmTablesKeys | Runtime/ScriptableObject/ManoDataDocumentSO.cs:218-245 | after the warm-up sweep, the cache holds (t, id) exactly when id is non-empty, t's row type resolves and some table t has a row id |
| ManoDocumentAsset.WarmTablesTypes | Runtime/ScriptableObject/ManoDataDocumentSO.cs:222-241 | every warmed object is an instance of the row type its table name resolves to |
| ManoDocumentAsset.ManoDataDocumentSO.constructor | Runtime/ScriptableObject/ManoDataDocumentSO.cs:15-33 | the field defaults: the namespace, the output path, empty sheet lists, a new document and empty caches |
| ManoDocumentAsset.ManoDataDocumentSO.LoadDataFromJSON | Runtime/ScriptableObject/ManoDataDocumentSO.cs:44-83 | missing or unparsable rawJson changes nothing; otherwise the document is rebuilt from the payload alone, lastEdit is set and the index is rebuilt |
| ManoDocumentAsset.ManoDataDocumentSO.ParseGoogleSheet | Runtime/ScriptableObject/ManoDataDocumentSO.cs:85-148 | appends `SheetTable(name, values)` to the tables; a range with fewer than two rows adds nothing |
| ManoDocumentAsset.ManoDataDocumentSO.ScanRows | Runtime/ScriptableObject/ManoDataDocumentSO.cs:102-146 | the row loop builds exactly `Fold(names, data).rows` |
| ManoDocumentAsset.ManoDataDocumentSO.StartRow | Runtime/ScriptableObject/ManoDataDocumentSO.cs:115-121 | a new row maps each column name to its cell, or "" past the row's end, and the buffer takes those cells |
| ManoDocumentAsset.ManoDataDocumentSO.ContinueRow | Runtime/ScriptableObject/ManoDataDocumentSO.cs:134-142 | each column gets "\|" + its carried value, and the buffer takes the carried values |
| ManoDocumentAsset.ManoDataDocumentSO.BuildIndex | Runtime/ScriptableObject/ManoDataDocumentSO.cs:150-158 | the index becomes `Index` of the document's tables, and is empty without a document |
| ManoDocumentAsset.ManoDataDocumentSO.GetTable | Runtime/ScriptableObject/ManoDataDocumentSO.cs:191-196 | an empty index is rebuilt first; the result is the indexed table of that name, if any |
| ManoDocumentAsset.ManoDataDocumentSO.PreWarmObject | Runtime/ScriptableObject/ManoDataDocumentSO.cs:160-168 | a fresh instance built from the raw row is stored at (tableName, rowId), and only that entry changes |
| ManoDocumentAsset.ManoDataDocumentSO.GetCachedObject | Runtime/ScriptableObject/ManoDataDocumentSO.cs:170-189 | a hit is returned and nothing changes. On a miss, the first row with that id is materialised and cached; with no such row the result is default and the cache is unchanged |
| ManoDocumentAsset.ManoDataDocumentSO.WarmTableRows | Runtime/ScriptableObject/ManoDataDocumentSO.cs:233-243 | pre-warms every row with a non-empty id, as `WarmRows` specifies |
| ManoDocumentAsset.ManoDataDocumentSO.WarmTable | Runtime/ScriptableObject/ManoDataDocumentSO.cs:222-244 | a table whose row type resolves has its rows pre-warmed; any other table changes nothing |
| ManoDocumentAsset.ManoDataDocumentSO.WarmDocument | Runtime/ScriptableObject/ManoDataDocumentSO.cs:218-245 | starting from an empty cache, the sweep leaves exactly `WarmTables` of the tables |
| ManoDocumentAsset.ManoDataDocumentSO.EditorWarmup | Runtime/ScriptableObject/ManoDataDocumentSO.cs:208-247 | an empty document with no rawJson returns at once. Otherwise an empty document is reloaded first, then the cache is cleared and refilled as `WarmTables`. lastEdit becomes now and the table index is rebuilt exactly when a reload of a parsed payload happens; otherwise both are kept |
| GameDocumentAsset.GameDataDocumentSO.constructor | Runtime/ScriptableObject/GameDataDocumentSO.cs:15-29 | the field defaults: an unset namespace, the output path, a new document and empty caches |
| GameDocumentAsset.GameDataDocumentSO.LoadDataFromJSON | Runtime/ScriptableObject/GameDataDocumentSO.cs:31-67 | the same load rules as the Mano asset: rebuilt from the payload alone, or unchanged |
| GameDocumentAsset.GameDataDocumentSO.ParseGoogleSheet | Runtime/ScriptableObject/GameDataDocumentSO.cs:69-123 | appends `SheetTable(name, values)`; a range with fewer than two rows adds nothing |
| GameDocumentAsset.GameDataDocumentSO.ScanRowsInPlace | Runtime/ScriptableObject/GameDataDocumentSO.cs:77-121 | the row loop that adds each new row map to `data` at once and then mutates it in place builds exactly `Fold(names, rows).rows` |
| GameDocumentAsset.GameDataDocumentSO.ContinueLastRow | Runtime/ScriptableObject/GameDataDocumentSO.cs:107-120 | a continuation row rewrites only the last stored row: each column gets "\|" + its carried value |
| GameDocumentAsset.GameDataDocumentSO.BuildIndex | Runtime/ScriptableObject/GameDataDocumentSO.cs:125-133 | the index becomes `Index` of the document's tables |
| GameDocumentAsset.GameDataDocumentSO.GetTable | Runtime/ScriptableObject/GameDataDocumentSO.cs:152-157 | an empty index is rebuilt first; the result is the last table of that name, if any |
| GameDocumentAsset.GameDataDocumentSO.PreWarmObject | Runtime/ScriptableObject/GameDataDocumentSO.cs:135-143 | creates the per-table map on demand and overwrites only (tableName, rowId) |
| GameDocumentAsset.GameDataDocumentSO.GetCachedObject | Runtime/ScriptableObject/GameDataDocumentSO.cs:145-150 | cache only: the cached object if present, otherwise default, and rows are never scanned |
| CodeGen.MapType | Editor/ManoDataCodeGenerator.cs:189-205 | the result is "string" exactly for an unknown lower-cased tag, and a list type exactly for the four list tags |
| CodeGen.MapTypeIgnoresCase | Editor/ManoDataCodeGenerator.cs:191 | `MapType` does not depend on the tag's case |
| CodeGen.SanitizeNameIsReplaceChain | Editor/ManoDataCodeGenerator.cs:207-216 | `SanitizeName` is the chain of seven `Replace` calls, in source order |
| CodeGen.SanitizeNameIdempotent | Editor/ManoDataCodeGenerator.cs:207-216 | sanitising twice is sanitising once |
| CodeGen.SanitizeNameAgrees | Editor/ManoDataCodeGenerator.cs:207-216 | agrees with `SanitizeTableName` on names without `'`, `"`, `.` or `,` |
| CodeGen.SanitizeNameDiffers | Editor/ManoDataCodeGenerator.cs:207-216 | on a dotted name `a.b`, the generator drops the dot but `SanitizeTableName` keeps it |
| CodeGen.Namespace | Editor/ManoDataCodeGenerator.cs:25 | the generated namespace always starts with "Mano.Data." |
| CodeGen.BuildClassCode | Editor/ManoDataCodeGenerator.cs:72-146 | the emitted class is exactly `ClassLines` |
| CodeGen.PropertyLines | Editor/ManoDataCodeGenerator.cs:85-90 | one property per column, in schema order |
| CodeGen.SetterLines | Editor/ManoDataCodeGenerator.cs:96-139 | one SetData block per column, in schema order |
| CodeGen.ColumnSetter | Editor/ManoDataCodeGenerator.cs:98-138 | each column gets the block the lower-cased tag's if-chain selects |
| CodeGen.ClassLayout | Editor/ManoDataCodeGenerator.cs:75-143 | the namespace and class declarations come first, then one property per column in schema order; SetData follows, and the last line closes the namespace |
| CodeGen.SetterGuards | Editor/ManoDataCodeGenerator.cs:96-102 | SetData holds exactly one ContainsKey guard per column, in schema order, on the unsanitised column name |
| CodeGen.ListBranch | Editor/ManoDataCodeGenerator.cs:116-134 | a "list_" tag splits the raw text on '\|'. int and float elements use TryParse, bool elements compare with "true", and string elements add the piece |
| CodeGen.UnknownListTag | Editor/ManoDataCodeGenerator.cs:116-121 | a "list_" tag outside the four known ones is declared `string`, yet its setter still takes the list branch and assigns `new string()` |
| CodeGen.BuildRegistryCode | Editor/ManoDataCodeGenerator.cs:148-187 | the emitted registry is exactly `RegistryLines` |
| CodeGen.RegistryLayout | Editor/ManoDataCodeGenerator.cs:162-169 | one `PreWarmTable<class>(so, "<table name>")` line per table, in table order, and no other such line |
| CodeGen.GenerateAsmdef | Editor/ManoDataCodeGenerator.cs:56-70 | writes the asmdef named after the namespace exactly when the file does not exist yet |
| CodeGen.SelectedMembers | Editor/ManoDataCodeGenerator.cs:33-38 | a table is generated exactly when it passes the filter, and a null filter keeps every table in order |
| CodeGen.GenerateClasses | Editor/ManoDataCodeGenerator.cs:31-47 | one class unit `<SanitizeName(table)>.cs` per selected table, in document order, and the list of those tables |
| CodeGen.WriteClass | Editor/ManoDataCodeGenerator.cs:40-42 | a table's unit is at `<outputPath>/<class>.cs` and holds its class code |
| CodeGen.EmitUnits | Editor/ManoDataCodeGenerator.cs:18-50 | with no tables nothing is written; otherwise the asmdef if new, then the classes, then the registry |
| CodeGen.Generate | Editor/ManoDataCodeGenerator.cs:12-54 | a null asset gives nothing. Otherwise the asset is reloaded, and the writes are `GeneratedUnits` of the reloaded tables with the default path and namespace applied. When the payload parses, lastEdit becomes now and the table index is rebuilt; otherwise both are kept. rawJson, the output path, the namespace, both sheet lists and the object cache are unchanged |
| CodeGen.RegistryMatchesClasses | Editor/ManoDataCodeGenerator.cs:31-50 | the k-th class file and the k-th PreWarmTable line are about the same table |
| CodeGen.AsmdefWrittenOnce | Editor/ManoDataCodeGenerator.cs:56-60 | a second Generate over the files the first one wrote does not write the asmdef again |
| ManoDataRuntime.Resolve | Runtime/Core/ManoData.cs:32-51 | the answering document is the first whose step does not pass, and every earlier one passed; there is no answer exactly when every document passes |
| ManoDataRuntime.ResolveAfterPut | Runtime/Core/ManoData.cs:36-45 | once the answering document has cached the object, the same lookup is answered by that cache with the same instance |
| ManoDataRuntime.AnsweredAt | Runtime/Core/ManoData.cs:32-37 | the document at position k answers when every earlier one passed and k does not |
| ManoDataRuntime.ManoDataRegistry.constructor | Runtime/Core/ManoData.cs:9-10 | no documents registered and no pre-warm calls made |
| ManoDataRuntime.ManoDataRegistry.Init | Runtime/Core/ManoData.cs:16-26 | the registered list becomes exactly the given documents, in order. Each document is reloaded, and OnPreWarm is recorded once per document in list order |
| ManoDataRuntime.ManoDataRegistry.GetCachedObject | Runtime/Core/ManoData.cs:28-52 | the result is what `Resolve` says: the answering document's hit or its materialised row, `KeyNotFound` when its "ID" scan throws, or default. No document's effective table index changes. When an instance is returned, the answering document's cache gains it exactly when that cache had no entry for the row, and is otherwise unchanged; every other document keeps its cache. Without an instance, no cache changes |
| ManoDataRuntime.Ask | Runtime/Core/ManoData.cs:34-47 | one document's step: it passes exactly when `StepAt` passes; otherwise it yields that step's result. A returned instance is then in the document's cache: it is added when newly materialised, and the cache is otherwise unchanged. The effective table index is kept |
| GameDataRuntime.GameDataRegistry.constructor | Runtime/Core/GameData.cs:8-9 | no instance and no pre-warm calls |
| GameDataRuntime.GameDataRegistry.Init | Runtime/Core/GameData.cs:15-22 | re-initialising with the same instance while its document is non-null is a no-op; otherwise the instance is replaced and reloaded, and OnPreWarm is recorded once |
| GameDataRuntime.GameDataRegistry.GetCachedObject | Runtime/Core/GameData.cs:24-27 | default without an instance; otherwise exactly the instance's cache-only lookup |
| References.ManoDataReference.IsValid | Runtime/Core/ManoDataReference.cs:35 | a reference is valid exactly when both its table name and its row id are non-empty |
| References.ManoDataReference.ValidateInit | Runtime/Core/ManoDataReference.cs:27-33 | with a document, the registered list becomes exactly that document, which is reloaded and pre-warmed; without one, nothing changes |
| References.ManoDataReference.GetData | Runtime/Core/ManoDataReference.cs:19-33 | ValidateInit runs first. Then an empty row id gives default; any other is answered as `ManoData.GetCachedObject` answers it, over the reference's reloaded document alone or, without one, over the registered documents. With the asset set, it becomes ManoData's only document and is appended to the OnPreWarm record. Its document is the reload of its rawJson, with lastEdit set to now when the payload parses and kept otherwise. Its table index is the payload's, or unchanged. Its cache gains the returned instance exactly when the instance was materialised. Without the asset, the list of registered documents and the OnPreWarm record are unchanged. Only the table and object caches of the registered documents may change, as `GetCachedObject` states; every other field of theirs is kept. tableName and groupName are not used |
| References.ManoDataReference.GetDataBound | Runtime/Core/ManoDataReference.cs:19-33 | GetData with the asset set, with the post-state listed for GetData |
| References.ManoDataReference.GetDataUnbound | Runtime/Core/ManoDataReference.cs:19-33 | GetData without the asset: ValidateInit does nothing, the registered documents and OnPreWarm record are unchanged, and the result and caches are `GetCachedObject`'s |
| HubTool.KeptTitlesMembers | Editor/ManoDataHubTool.cs:298 | a title is kept exactly when it is non-empty, is not "Welcome" and does not start with "_" |
| HubTool.Entries | Editor/ManoDataHubTool.cs:333-336 | the name and flags of each entry, in list order |
| HubTool.ImportNamesMembers | Editor/ManoDataHubTool.cs:333-336 | a name is imported exactly when some selected entry carries it |
| HubTool.GenerateWithinImport | Editor/ManoDataHubTool.cs:333-365 | the generate list is always a sub-list of the import list |
| HubTool.AllGenerateIsImport | Editor/ManoDataHubTool.cs:362-365 | when every entry has IsGenCode, the generate list is the import list |
| HubTool.NoneSelectedImportsNothing | Editor/ManoDataHubTool.cs:333-342 | with nothing selected, both lists are empty |
| HubTool.RangesQueryTerms | Editor/ManoDataHubTool.cs:349 | the batch query has one `ranges=<name>!A1:Z5000` term per imported sheet, in order, joined by '&' |
| HubTool.RangeTermNamesSheet | Editor/ManoDataHubTool.cs:349 | the range of a query term, read back by ingestion's `Split('!')[0]` with quotes removed, names the same sheet |
| HubTool.ManoDataHub.constructor | Editor/ManoDataHubTool.cs:55 | the tool works on the asset chosen as its target |
| HubTool.ManoDataHub.FindAllSheets | Editor/ManoDataHubTool.cs:287-318 | with a "sheets" answer, the list is refilled with fresh entries for the kept titles, in response order, both flags set; otherwise it is untouched |
| HubTool.ManoDataHub.SetAllImportSheets | Editor/ManoDataHubTool.cs:216-220 | every entry gets IsSelected = val, and the names and IsGenCode are unchanged |
| HubTool.ManoDataHub.SetAllGenerateCodeSheets | Editor/ManoDataHubTool.cs:222-226 | every entry gets IsGenCode = val, and the names and IsSelected are unchanged |
| HubTool.ManoDataHub.SyncAndGenerate | Editor/ManoDataHubTool.cs:331-369 | with nothing selected there is no query and nothing changes. Otherwise the query covers the import list. On a successful fetch the body becomes rawJson, the asset is reloaded, and code is generated for the generate list. lastEdit and the table index follow the reload: set to now and rebuilt when the body parses, kept otherwise. The sheet lists, output path, namespace and object cache are unchanged |
| HubTool.ManoDataHub.ImportAndGenerate | Editor/ManoDataHubTool.cs:357-369 | the fetched body is stored and loaded, and Generate runs with the sheets both selected and marked for code. lastEdit and the table index follow the reload: set to now and rebuilt when the body parses, kept otherwise. The sheet lists, output path, namespace and object cache are unchanged |

## Left out

- JSON parsing and serialisation (`JObject.Parse`, `JsonConvert`) are out of scope. rawJson is a `RawJson` value: missing, malformed, or an already parsed payload. A stored row is its value map.
- Networking and OAuth are out of scope. A fetch is an `Option` parameter of `SyncAndGenerate` and `FindAllSheets`. `UnityWebRequest.EscapeURL` is read as the identity.
- GUI, inspectors, `EditorUtility`, `AssetDatabase`, dialogs and `Debug.Log*` are out of scope; they have no effect on the modelled state.
- File writes are returned as (path, lines) units. `File.Exists` is the `existing` set parameter. `Directory.CreateDirectory` is not modelled. `Path.Combine` joins with '/'.
- Runtime/Extensions/ManoDataExtensions.cs and the run-time behaviour of the generated code (`Parse`, `TryParse`, exceptions) are not part of this model. Only which lines are emitted is modelled.
- `DateTime.Now` is the `now` parameter.
- The `OnPreWarm` delegate invocation is a recorded list of documents. The subscribed handlers are not run.
- The reflection in `EditorWarmup` (assembly scan, `MakeGenericMethod`) is a search over a `LoadedType` list.
- `T.SetData` is abstracted as a `RowInstance` recording its row type and raw map. `typeof(T).Name` is the `rowType` argument. The casts `(T)obj` are not modelled.
- Null strings are read as "". `Lower` folds ASCII letters only.
- CodeGen.MapType, CodeGen.MapTypeIgnoresCase: the case fold modelled is the culture-invariant ASCII fold. The source's `ToLower()` uses the current culture, which can differ: under tr-TR, "INT" lowers to "ınt" (dotless i), which then maps to "string".
- ManoDocumentAsset.ManoDataDocumentSO.LoadDataFromJSON, GameDocumentAsset.GameDataDocumentSO.LoadDataFromJSON: a payload that parses but has the wrong shape is not represented. Examples are a "valueRanges" that is not an array, or a range that is not an object. The source throws after clearing the tables and groups, and the handler only logs. That leaves a document holding only the ranges read before the throw, without "Default", with the old lastEdit and a stale table index.
- ManoDataRuntime.ManoDataRegistry.Init: a null element, or a null array, is excluded by the parameter type. In the source, a null array throws after the list was cleared. A null element throws after the list was replaced, with the earlier documents already reloaded and handed to OnPreWarm.
- GameDataRuntime.GameDataRegistry.Init: a null argument is excluded by the parameter type. In the source, a null argument with a null instance dereferences null.
- ManoDocumentAsset.ManoDataDocumentSO.EditorWarmup: when the reload leaves no document, the source throws on `document.tables`. The model stops with the cache cleared.
- Rows are stored in one form, an id plus a value map. `ManoDataDocumentSO.cs` stores `rows` of `RowData`, while `ManoDataDocument.cs`, `GameDataDocumentSO.cs` and `ManoData.cs` use `data` as a list of maps. The model does not capture that the source would not compile as written.
- The `ManoData.GetCachedObject` fallback consults the key "ID" only, as the code does. A row without that key makes the indexer throw (`KeyNotFound`).
- ManoDataRuntime.ManoDataRegistry.GetCachedObject: the repeat-call promise is stated through the answering document's cache holding the returned instance, together with the `ResolveAfterPut` lemma. It is not a postcondition that re-resolves the post-state.
- Neither `Init` clears the object caches, as in the source. The document's `lastEdit` is the `lastEdit` field of `Document`.
- `RestoreFromRawJson`, `OnAfterDeserialize` and the `generatedSheets` list are not modelled. They are outside the ingestion, cache and selection core.
- `HasDataToPreview` and the rest of ManoDataHubTool.cs (template creation, batch updates, token handling) are not part of this model.
- Editor/ManoDataAsmdefUtility.cs and Editor/GoogleSettingSO.cs are not part of this model.
