/** ManoDataCodeGenerator: from the document's tables it emits one C# row class
    per selected table, a registry that pre-warms those tables, and an
    assembly definition. Emitted text is a sequence of lines (one per
    AppendLine); file writes are a sequence of units (path, lines). */
module CodeGen {
  import opened DataModel
  import opened Strings
  import opened Ingestion
  import opened Caches
  import opened ManoDocumentAsset

  // ---------------------------------------------------------------------
  // Type tags and identifiers.

  const ListTags: set<string> := {"list_string", "list_int", "list_float", "list_bool"}

  /** The lower-cased tags MapType recognises; every other tag maps to string. */
  const KnownTags: set<string> := {"int", "float", "bool", "vector2", "vector3", "color"} + ListTags

  /** The C# type of a column, chosen by its lower-cased type tag. */
  function MapType(tag: string): (r: string)
    ensures r == "string" <==> Lower(tag) !in KnownTags
    ensures StartsWith(r, "List<") <==> Lower(tag) in ListTags
  {
    TypeNameShape(Lower(tag));
    TypeName(Lower(tag))
  }

  /** MapType's switch on the lower-cased tag. */
  function TypeName(t: string): (r: string)
  {
    if t == "int" then "int"
    else if t == "float" then "float"
    else if t == "bool" then "bool"
    else if t == "list_string" then "List<string>"
    else if t == "list_int" then "List<int>"
    else if t == "list_float" then "List<float>"
    else if t == "list_bool" then "List<bool>"
    else if t == "vector2" then "Vector2"
    else if t == "vector3" then "Vector3"
    else if t == "color" then "Color"
    else "string"
  }

  lemma TypeNameShape(t: string)
    ensures TypeName(t) == "string" <==> t !in KnownTags
    ensures StartsWith(TypeName(t), "List<") <==> t in ListTags
  {
    if t == "list_string" {
      assert "List<string>"[..5] == "List<";
    } else if t == "list_int" {
      assert "List<int>"[..5] == "List<";
    } else if t == "list_float" {
      assert "List<float>"[..5] == "List<";
    } else if t == "list_bool" {
      assert "List<bool>"[..5] == "List<";
    } else {
      assert TypeName(t)[0] != 'L';
      NotListType(TypeName(t));
    }
  }

  lemma NotListType(r: string)
    requires |r| > 0 && r[0] != 'L'
    ensures !StartsWith(r, "List<")
  {
  }

  /** The case of a tag does not matter. */
  lemma MapTypeIgnoresCase(tag: string)
    ensures MapType(Lower(tag)) == MapType(tag)
  {
    LowerIdempotent(tag);
  }

  const NameSeparators: set<char> := {' ', '-', '\'', '"', '.', ',', '_'}

  /** The characters SanitizeName deletes, in the order of its Replace calls. */
  const ReplaceOrder: seq<char> := [' ', '-', '\'', '"', '.', ',', '_']

  /** SanitizeName: space, '-', '\'', '"', '.', ',' and '_' deleted, in that order. */
  function SanitizeName(name: string): string
  {
    Strip(name, NameSeparators)
  }

  /** SanitizeName is the source's chain of Replace calls, in its order. */
  lemma SanitizeNameIsReplaceChain(name: string)
    ensures SanitizeName(name) == RemoveEach(name, ReplaceOrder)
  {
    RemoveEachIsStrip(name, ReplaceOrder);
    assert (set c | c in ReplaceOrder) == NameSeparators;
  }

  lemma SanitizeNameIdempotent(name: string)
    ensures SanitizeName(SanitizeName(name)) == SanitizeName(name)
  {
    StripStrip(name, NameSeparators, NameSeparators);
    assert NameSeparators + NameSeparators == NameSeparators;
  }

  /** On names without quotes, dots and commas the class name the generator
      uses and the name EditorWarmup searches for coincide. */
  lemma SanitizeNameAgrees(name: string)
    requires forall i :: 0 <= i < |name| ==> name[i] !in {'\'', '"', '.', ','}
    ensures SanitizeName(name) == SanitizeTableName(name)
  {
    StripAgrees(name, NameSeparators, TableNameSeparators);
  }

  /** Otherwise they can differ: a table "Shop.Items" gets class ShopItems, while
      EditorWarmup looks for a type named Shop.Items. */
  lemma SanitizeNameDiffers(a: string, b: string)
    requires forall i :: 0 <= i < |a| ==> a[i] !in NameSeparators
    requires forall i :: 0 <= i < |b| ==> b[i] !in NameSeparators
    ensures SanitizeName(a + "." + b) == a + b
    ensures SanitizeTableName(a + "." + b) == a + "." + b
  {
    DottedLosesDot(a, b);
    DottedKeepsTableName(a, b);
  }

  lemma DottedLosesDot(a: string, b: string)
    requires forall i :: 0 <= i < |a| ==> a[i] !in NameSeparators
    requires forall i :: 0 <= i < |b| ==> b[i] !in NameSeparators
    ensures Strip(a + "." + b, NameSeparators) == a + b
  {
    var withDot := a + ".";
    StripConcat(a, ".", NameSeparators);
    StripKeeps(a, NameSeparators);
    assert Strip(".", NameSeparators) == [] by {
      assert "."[1..] == [];
    }
    assert Strip(withDot, NameSeparators) == a;
    StripConcat(withDot, b, NameSeparators);
    StripKeeps(b, NameSeparators);
    assert a + "." + b == withDot + b;
  }

  lemma DottedKeepsTableName(a: string, b: string)
    requires forall i :: 0 <= i < |a| ==> a[i] !in NameSeparators
    requires forall i :: 0 <= i < |b| ==> b[i] !in NameSeparators
    ensures SanitizeTableName(a + "." + b) == a + "." + b
  {
    forall i | 0 <= i < |a + "." + b|
      ensures (a + "." + b)[i] !in TableNameSeparators
    {
      if i < |a| { assert (a + "." + b)[i] == a[i]; }
      else if i > |a| { assert (a + "." + b)[i] == b[i - |a| - 1]; }
    }
    StripKeeps(a + "." + b, TableNameSeparators);
  }

  // ---------------------------------------------------------------------
  // Paths and names of the output.

  const DefaultOutputPath := "Assets/Scripts/GeneratedData/"

  function OutputPath(generatedCodePath: string): string
  {
    if generatedCodePath == "" then DefaultOutputPath else generatedCodePath
  }

  /** The namespace of the generated code. */
  function Namespace(nameSpaceDocument: string): (ns: string)
    ensures StartsWith(ns, "Mano.Data.")
  {
    if nameSpaceDocument == "" then "Mano.Data.Generated" else "Mano.Data." + nameSpaceDocument
  }

  /** Path.Combine with '/' as the separator: a rooted file name is kept, an
      empty directory adds nothing, a missing separator is inserted. */
  function Combine(dir: string, file: string): string
  {
    if |file| > 0 && file[0] == '/' then file
    else if dir == "" then file
    else if dir[|dir| - 1] == '/' then dir + file
    else dir + "/" + file
  }


  // ---------------------------------------------------------------------
  // Emitted lines. Each kind of line the generator appends is a constructor
  // carrying the column or table it is about; Render gives its exact text.

  /** The parsers a scalar column's setter calls. */
  datatype Parser = IntParse | FloatParse | Vector2Parse | Vector3Parse | ColorParse

  function ParserName(p: Parser): string
  {
    match p
    case IntParse => "int.Parse"
    case FloatParse => "float.Parse"
    case Vector2Parse => "ManoData.ManoDataExtensions.ParseVector2"
    case Vector3Parse => "ManoData.ManoDataExtensions.ParseVector3"
    case ColorParse => "ManoData.ManoDataExtensions.ParseColor"
  }

  datatype Line =
    | Using(imported: string)
    | Blank
    | NamespaceDecl(ns: string)
    | Open(depth: nat)
    | Close(depth: nat)
    | SerializableAttr
    | RowClassDecl(className: string)
    | PropertyDecl(col: Column)
    | SetDataDecl
    | ContainsKeyGuard(column: string)
    | ParseAssign(col: Column, parser: Parser)
    | BoolAssign(col: Column)
    | StringAssign(col: Column)
    | ListRawText(col: Column)
    | ListSplit
    | ListCreate(col: Column)
    | ListForeach
    | ListTryParseAdd(col: Column, elementType: string)
    | ListBoolAdd(col: Column)
    | ListStringAdd(col: Column)
    | RegistryClassDecl
    | RuntimeInitAttr
    | RegisterDecl
    | OnPreWarmSubscribe
    | PreWarmCall(tableName: string)
    | LambdaClose
    | PreWarmTableDecl
    | GetTableStmt
    | NullTableReturn
    | ForeachRow
    | FirstValueId
    | PreWarmIfId
    | AsmdefName(asmdefName: string)
    | AsmdefReferences
    | AsmdefAutoReferenced

  /** Four spaces per level. */
  function Indent(depth: nat): string
  {
    seq(4 * depth, _ => ' ')
  }

  function RawValue(column: string): string
  {
    "rawData[\"" + column + "\"]"
  }

  /** The text of a line, as AppendLine receives it: property types come from
      MapType, field and class names from SanitizeName, and the raw-data keys
      are the unsanitised column names. */
  function Render(line: Line): string
  {
    match line
    case Using(n) => "using " + n + ";"
    case Blank => ""
    case NamespaceDecl(ns) => "namespace " + ns
    case Open(d) => Indent(d) + "{"
    case Close(d) => Indent(d) + "}"
    case SerializableAttr => "    [Serializable]"
    case RowClassDecl(c) => "    public class " + c + " : IManoDataRow"
    case PropertyDecl(col) =>
      "        public " + MapType(col.typeTag) + " " + SanitizeName(col.name) + " { get; private set;}"
    case SetDataDecl => "        public void SetData(Dictionary<string, object> rawData)"
    case ContainsKeyGuard(n) => "            if (rawData.ContainsKey(\"" + n + "\"))"
    case ParseAssign(col, p) =>
      "                " + SanitizeName(col.name) + " = " + ParserName(p) + "(" + RawValue(col.name) + ".ToString());"
    case BoolAssign(col) =>
      "                " + SanitizeName(col.name) + " = " + RawValue(col.name) + ".ToString().ToLower() == \"true\";"
    case StringAssign(col) => "                " + SanitizeName(col.name) + " = " + RawValue(col.name) + ".ToString();"
    case ListRawText(col) => "                var rawStr = " + RawValue(col.name) + ".ToString();"
    case ListSplit => "                var items = rawStr.Split('|');"
    case ListCreate(col) => "                " + SanitizeName(col.name) + " = new " + MapType(Lower(col.typeTag)) + "();"
    case ListForeach => "                foreach(var s in items) {"
    case ListTryParseAdd(col, e) =>
      "                    if(" + e + ".TryParse(s, out " + e + " v)) " + SanitizeName(col.name) + ".Add(v);"
    case ListBoolAdd(col) => "                    " + SanitizeName(col.name) + ".Add(s.ToLower() == \"true\");"
    case ListStringAdd(col) => "                    " + SanitizeName(col.name) + ".Add(s);"
    case RegistryClassDecl => "    public static class ManoDataRegistry"
    case RuntimeInitAttr => "        [RuntimeInitializeOnLoadMethod(RuntimeInitializeLoadType.BeforeSceneLoad)]"
    case RegisterDecl => "        public static void Register()"
    case OnPreWarmSubscribe => "            ManoData.OnPreWarm += (so) =>"
    case PreWarmCall(t) => "                PreWarmTable<" + SanitizeName(t) + ">(so, \"" + t + "\");"
    case LambdaClose => "            };"
    case PreWarmTableDecl =>
      "        private static void PreWarmTable<T>(ManoDataDocumentSO so, string tableName) where T : IManoDataRow, new()"
    case GetTableStmt => "            var table = so.GetTable(tableName);"
    case NullTableReturn => "            if (table == null) return;"
    case ForeachRow => "            foreach (var row in table.data)"
    case FirstValueId => "                var id = row.Values.FirstOrDefault()?.ToString();"
    case PreWarmIfId => "                if (!string.IsNullOrEmpty(id)) so.PreWarmObject<T>(tableName, id, row);"
    case AsmdefName(n) => "    \"name\": \"" + n + "\","
    case AsmdefReferences => "    \"references\": [\"ManoData\"],"
    case AsmdefAutoReferenced => "    \"autoReferenced\": true"
  }

  /** The text of a file: its lines, each followed by a newline. */
  function Text(lines: seq<Line>): string
  {
    if lines == [] then "" else Text(lines[..|lines| - 1]) + Render(lines[|lines| - 1]) + "\n"
  }

  // ---------------------------------------------------------------------
  // The row class.

  function ClassHeader(className: string, ns: string): seq<Line>
  {
    [Using("System"), Using("System.Collections.Generic"), Using("UnityEngine"), Blank,
     NamespaceDecl(ns), Open(0), SerializableAttr, RowClassDecl(className), Open(1)]
  }

  const SetDataOpening: seq<Line> := [Blank, SetDataDecl, Open(2)]

  const ClassFooter: seq<Line> := [Close(2), Close(1), Close(0)]

  /** How a column's setter assigns its field, by the lower-cased tag. */
  datatype Setter = Scalar(parser: Parser) | BoolSetter | ListSetter(elementType: string) | StringSetter

  /** The setter's if-chain: the scalar tags first, then any tag starting with
      "list_" (its element type is the tag with "list_" removed), else string. */
  function SetterOf(t: string): Setter
  {
    if t == "int" then Scalar(IntParse)
    else if t == "float" then Scalar(FloatParse)
    else if t == "bool" then BoolSetter
    else if t == "vector2" then Scalar(Vector2Parse)
    else if t == "vector3" then Scalar(Vector3Parse)
    else if t == "color" then Scalar(ColorParse)
    else if StartsWith(t, "list_") then ListSetter(RemoveAll(t, "list_"))
    else StringSetter
  }

  /** The statement adding one list element, by the element type. */
  function ListAddLine(col: Column, elementType: string): Line
  {
    if elementType == "int" || elementType == "float" then ListTryParseAdd(col, elementType)
    else if elementType == "bool" then ListBoolAdd(col)
    else ListStringAdd(col)
  }

  /** The body of a column's SetData block. */
  function BranchLines(s: Setter, col: Column): seq<Line>
  {
    match s
    case Scalar(p) => [ParseAssign(col, p)]
    case BoolSetter => [BoolAssign(col)]
    case ListSetter(e) => [ListRawText(col), ListSplit, ListCreate(col), ListForeach, ListAddLine(col, e), Close(4)]
    case StringSetter => [StringAssign(col)]
  }

  /** A column's SetData block, guarded by ContainsKey on the unsanitised name. */
  function SetterBlock(col: Column): seq<Line>
  {
    [ContainsKeyGuard(col.name), Open(3)] + BranchLines(SetterOf(Lower(col.typeTag)), col) + [Close(3)]
  }

  function Properties(schema: seq<Column>): (lines: seq<Line>)
    ensures |lines| == |schema|
    ensures forall c :: 0 <= c < |schema| ==> lines[c] == PropertyDecl(schema[c])
  {
    if schema == [] then [] else Properties(schema[..|schema| - 1]) + [PropertyDecl(schema[|schema| - 1])]
  }

  function SetterBlocks(schema: seq<Column>): seq<Line>
  {
    if schema == [] then [] else SetterBlocks(schema[..|schema| - 1]) + SetterBlock(schema[|schema| - 1])
  }

  /** What BuildClassCode produces. */
  function ClassLines(className: string, schema: seq<Column>, ns: string): seq<Line>
  {
    ClassHeader(className, ns) + Properties(schema) + SetDataOpening + SetterBlocks(schema) + ClassFooter
  }

  method BuildClassCode(className: string, schema: seq<Column>, ns: string) returns (lines: seq<Line>)
    ensures lines == ClassLines(className, schema, ns)
  {
    lines := ClassHeader(className, ns);
    var properties := PropertyLines(schema);
    lines := lines + properties + SetDataOpening;
    var setters := SetterLines(schema);
    lines := lines + setters + ClassFooter;
  }

  /** BuildClassCode's first loop: one property per column. */
  method PropertyLines(schema: seq<Column>) returns (lines: seq<Line>)
    ensures lines == Properties(schema)
  {
    lines := [];
    var i := 0;
    while i < |schema|
      invariant 0 <= i <= |schema|
      invariant lines == Properties(schema[..i])
    {
      lines := lines + [PropertyDecl(schema[i])];
      assert schema[..i + 1][..i] == schema[..i];
      i := i + 1;
    }
    assert schema[..i] == schema;
  }

  /** BuildClassCode's second loop: one SetData block per column. */
  method SetterLines(schema: seq<Column>) returns (lines: seq<Line>)
    ensures lines == SetterBlocks(schema)
  {
    lines := [];
    var i := 0;
    while i < |schema|
      invariant 0 <= i <= |schema|
      invariant lines == SetterBlocks(schema[..i])
    {
      var block := ColumnSetter(schema[i]);
      lines := lines + block;
      assert schema[..i + 1][..i] == schema[..i];
      i := i + 1;
    }
    assert schema[..i] == schema;
  }

  /** The lines BuildClassCode appends for one column. */
  method ColumnSetter(col: Column) returns (block: seq<Line>)
    ensures block == SetterBlock(col)
  {
    var t := Lower(col.typeTag);
    block := [ContainsKeyGuard(col.name), Open(3)];
    if t == "int" {
      block := block + [ParseAssign(col, IntParse)];
    } else if t == "float" {
      block := block + [ParseAssign(col, FloatParse)];
    } else if t == "bool" {
      block := block + [BoolAssign(col)];
    } else if t == "vector2" {
      block := block + [ParseAssign(col, Vector2Parse)];
    } else if t == "vector3" {
      block := block + [ParseAssign(col, Vector3Parse)];
    } else if t == "color" {
      block := block + [ParseAssign(col, ColorParse)];
    } else if StartsWith(t, "list_") {
      var innerType := RemoveAll(t, "list_");
      block := block + [ListRawText(col), ListSplit, ListCreate(col), ListForeach];
      if innerType == "int" {
        block := block + [ListTryParseAdd(col, "int")];
      } else if innerType == "float" {
        block := block + [ListTryParseAdd(col, "float")];
      } else if innerType == "bool" {
        block := block + [ListBoolAdd(col)];
      } else {
        block := block + [ListStringAdd(col)];
      }
      block := block + [Close(4)];
    } else {
      block := block + [StringAssign(col)];
    }
    block := block + [Close(3)];
  }

  /** The class declares one property per column, in schema order; SetData
      follows the properties and the class closes the namespace. */
  lemma ClassLayout(className: string, schema: seq<Column>, ns: string)
    ensures var lines := ClassLines(className, schema, ns);
      |lines| >= 15 + |schema| &&
      lines[4] == NamespaceDecl(ns) && lines[7] == RowClassDecl(className) &&
      (forall c :: 0 <= c < |schema| ==> lines[9 + c] == PropertyDecl(schema[c])) &&
      lines[10 + |schema|] == SetDataDecl &&
      lines[|lines| - 1] == Close(0)
  {
    ClassLinesAt(ClassHeader(className, ns), Properties(schema), SetterBlocks(schema));
  }

  /** Where the pieces of a class file sit, whatever the pieces hold. */
  lemma ClassLinesAt(header: seq<Line>, properties: seq<Line>, setters: seq<Line>)
    requires |header| == 9
    ensures var lines := header + properties + SetDataOpening + setters + ClassFooter;
      |lines| == 15 + |properties| + |setters| &&
      (forall i :: 0 <= i < 9 ==> lines[i] == header[i]) &&
      (forall c :: 0 <= c < |properties| ==> lines[9 + c] == properties[c]) &&
      lines[10 + |properties|] == SetDataDecl && lines[|lines| - 1] == Close(0)
  {
  }

  /** The column names of the ContainsKey guards among some lines, in order. */
  function Guards(lines: seq<Line>): seq<string>
  {
    if lines == [] then []
    else Guards(lines[..|lines| - 1]) + (if lines[|lines| - 1].ContainsKeyGuard? then [lines[|lines| - 1].column] else [])
  }

  lemma {:induction false} GuardsAppend(a: seq<Line>, b: seq<Line>)
    ensures Guards(a + b) == Guards(a) + Guards(b)
  {
    if b != [] {
      GuardsAppend(a, b[..|b| - 1]);
      assert (a + b)[..|a + b| - 1] == a + b[..|b| - 1];
    } else {
      assert a + b == a;
    }
  }

  lemma {:induction false} GuardsNone(lines: seq<Line>)
    requires forall i :: 0 <= i < |lines| ==> !lines[i].ContainsKeyGuard?
    ensures Guards(lines) == []
  {
    if lines != [] {
      GuardsNone(lines[..|lines| - 1]);
    }
  }

  /** SetData holds exactly one ContainsKey guard per column, in schema order,
      on the column's own (unsanitised) name. */
  lemma {:induction false} SetterGuards(schema: seq<Column>)
    ensures Guards(SetterBlocks(schema)) == ColumnNames(schema)
  {
    if schema != [] {
      var n := |schema| - 1;
      SetterGuards(schema[..n]);
      BlockGuard(schema[n]);
      GuardsAppend(SetterBlocks(schema[..n]), SetterBlock(schema[n]));
    }
  }

  /** A column's block carries one guard, on the column's name. */
  lemma BlockGuard(col: Column)
    ensures Guards(SetterBlock(col)) == [col.name]
  {
    var setter := SetterOf(Lower(col.typeTag));
    var rest := [Open(3)] + BranchLines(setter, col) + [Close(3)];
    BranchHasNoGuard(setter, col);
    GuardsNone(rest);
    assert Guards([ContainsKeyGuard(col.name)]) == [col.name] by {
      assert [ContainsKeyGuard(col.name)][..0] == [];
    }
    assert SetterBlock(col) == [ContainsKeyGuard(col.name)] + rest;
    GuardsAppend([ContainsKeyGuard(col.name)], rest);
  }

  lemma BranchHasNoGuard(s: Setter, col: Column)
    ensures forall i :: 0 <= i < |BranchLines(s, col)| ==> !BranchLines(s, col)[i].ContainsKeyGuard?
  {
  }

  /** A tag starting with "list_" builds the list from the '|'-separated pieces
      of the raw text; int and float elements go through TryParse (pieces that
      do not parse are skipped), bool elements compare with "true", any other
      element type adds the piece itself. */
  lemma ListBranch(col: Column)
    requires StartsWith(Lower(col.typeTag), "list_")
    ensures var b := BranchLines(SetterOf(Lower(col.typeTag)), col);
      |b| == 6 && b[0] == ListRawText(col) && b[1] == ListSplit && b[2] == ListCreate(col) &&
      b[3] == ListForeach && b[5] == Close(4) &&
      (Lower(col.typeTag) == "list_int" ==> b[4] == ListTryParseAdd(col, "int")) &&
      (Lower(col.typeTag) == "list_float" ==> b[4] == ListTryParseAdd(col, "float")) &&
      (Lower(col.typeTag) == "list_bool" ==> b[4] == ListBoolAdd(col)) &&
      (Lower(col.typeTag) == "list_string" ==> b[4] == ListStringAdd(col))
  {
    ListBranchShape(col);
    ListElementTypes();
  }

  lemma ListBranchShape(col: Column)
    requires StartsWith(Lower(col.typeTag), "list_")
    ensures var b := BranchLines(SetterOf(Lower(col.typeTag)), col);
      |b| == 6 && b[0] == ListRawText(col) && b[1] == ListSplit && b[2] == ListCreate(col) &&
      b[3] == ListForeach && b[4] == ListAddLine(col, RemoveAll(Lower(col.typeTag), "list_")) && b[5] == Close(4)
  {
    var t := Lower(col.typeTag);
    ListPrefixIsNotScalar(t);
    assert SetterOf(t) == ListSetter(RemoveAll(t, "list_"));
  }

  /** The element types of the four list tags. */
  lemma ListElementTypes()
    ensures RemoveAll("list_int", "list_") == "int" && RemoveAll("list_float", "list_") == "float"
    ensures RemoveAll("list_bool", "list_") == "bool" && RemoveAll("list_string", "list_") == "string"
  {
    ElementType("list_int", "int");
    assert !OccursAt("float", "list_", 0) by { assert "float"[0] != 'l'; }
    ElementType("list_float", "float");
    ElementType("list_bool", "bool");
    assert !OccursAt("string", "list_", 0) by { assert "string"[0] != 'l'; }
    assert !OccursAt("string", "list_", 1) by { assert "string"[1] != 'l'; }
    ElementType("list_string", "string");
  }

  /** A list_ prefix rules out every scalar tag. */
  lemma ListPrefixIsNotScalar(t: string)
    requires StartsWith(t, "list_")
    ensures t != "int" && t != "float" && t != "bool" && t != "vector2" && t != "vector3" && t != "color"
  {
    assert t[0] == 'l';
  }

  /** The element type of "list_" + e, for e without "list_" inside. */
  lemma ElementType(t: string, e: string)
    requires t == "list_" + e
    requires forall i: nat :: !OccursAt(e, "list_", i)
    ensures RemoveAll(t, "list_") == e
  {
    assert t[..5] == "list_" && t[5..] == e;
    RemoveAllAbsent(e, "list_");
  }

  /** A tag such as "list_vector2" is a list for the setter but not for MapType:
      the property is declared string and the setter assigns `new string()`. */
  lemma UnknownListTag(col: Column)
    requires StartsWith(Lower(col.typeTag), "list_") && Lower(col.typeTag) !in ListTags
    ensures MapType(col.typeTag) == "string" && MapType(Lower(col.typeTag)) == "string"
    ensures BranchLines(SetterOf(Lower(col.typeTag)), col)[2] == ListCreate(col)
  {
    var t := Lower(col.typeTag);
    LowerIdempotent(col.typeTag);
    ListPrefixIsNotScalar(t);
  }

  // ---------------------------------------------------------------------
  // The registry.

  function RegistryHeader(ns: string): seq<Line>
  {
    [Using("UnityEngine"), Using("System.Linq"), Using("System.Collections.Generic"), Blank,
     NamespaceDecl(ns), Open(0), RegistryClassDecl, Open(1), RuntimeInitAttr, RegisterDecl, Open(2),
     OnPreWarmSubscribe, Open(3)]
  }

  const RegistryFooter: seq<Line> :=
    [LambdaClose, Close(2), Blank, PreWarmTableDecl, Open(2), GetTableStmt, NullTableReturn, ForeachRow,
     Open(3), FirstValueId, PreWarmIfId, Close(3), Close(2), Close(1), Close(0)]

  /** One PreWarmTable call per table, in order. */
  function PreWarmCalls(tables: seq<Table>): (lines: seq<Line>)
    ensures |lines| == |tables|
    ensures forall k :: 0 <= k < |tables| ==> lines[k] == PreWarmCall(tables[k].name)
  {
    if tables == [] then [] else PreWarmCalls(tables[..|tables| - 1]) + [PreWarmCall(tables[|tables| - 1].name)]
  }

  /** What BuildRegistryCode produces. */
  function RegistryLines(tables: seq<Table>, ns: string): seq<Line>
  {
    RegistryHeader(ns) + PreWarmCalls(tables) + RegistryFooter
  }

  method BuildRegistryCode(tables: seq<Table>, ns: string) returns (lines: seq<Line>)
    ensures lines == RegistryLines(tables, ns)
  {
    var calls: seq<Line> := [];
    var i := 0;
    while i < |tables|
      invariant 0 <= i <= |tables|
      invariant calls == PreWarmCalls(tables[..i])
    {
      calls := calls + [PreWarmCall(tables[i].name)];
      assert tables[..i + 1][..i] == tables[..i];
      i := i + 1;
    }
    assert tables[..i] == tables;
    lines := RegistryHeader(ns) + calls + RegistryFooter;
  }

  /** Line 13 + k of the registry pre-warms the k-th table under its sanitised
      class name, and the registry has no other PreWarmTable call. */
  lemma RegistryLayout(tables: seq<Table>, ns: string)
    ensures var lines := RegistryLines(tables, ns);
      |lines| == 28 + |tables| &&
      (forall k :: 0 <= k < |tables| ==> lines[13 + k] == PreWarmCall(tables[k].name)) &&
      (forall i :: 0 <= i < |lines| && lines[i].PreWarmCall? ==> 13 <= i < 13 + |tables|)
  {
    var lines := RegistryLines(tables, ns);
    var head := RegistryHeader(ns) + PreWarmCalls(tables);
    assert lines == head + RegistryFooter;
    assert forall k :: 0 <= k < |tables| ==> head[13 + k] == PreWarmCalls(tables)[k];
  }

  // ---------------------------------------------------------------------
  // The assembly definition.

  function AsmdefPath(path: string, asmdefName: string): string
  {
    Combine(path, asmdefName + ".asmdef")
  }

  function AsmdefLines(asmdefName: string): seq<Line>
  {
    [Open(0), AsmdefName(asmdefName), AsmdefReferences, AsmdefAutoReferenced, Close(0)]
  }

  /** One file write: the path and the lines written. */
  datatype Unit = Unit(path: string, lines: seq<Line>)

  /** The asmdef write, which happens only when the file does not exist yet. */
  function AsmdefUnits(path: string, asmdefName: string, existing: set<string>): seq<Unit>
  {
    if AsmdefPath(path, asmdefName) in existing then [] else [Unit(AsmdefPath(path, asmdefName), AsmdefLines(asmdefName))]
  }

  /** The files on disk are a parameter: an existing asmdef is never overwritten. */
  method GenerateAsmdef(path: string, asmdefName: string, existing: set<string>) returns (written: Option<Unit>)
    ensures written.None? <==> AsmdefPath(path, asmdefName) in existing
    ensures written.Some? ==>
      written.value.path == AsmdefPath(path, asmdefName) && written.value.lines == AsmdefLines(asmdefName)
  {
    var filePath := Combine(path, asmdefName + ".asmdef");
    if filePath in existing {
      return None;
    }
    var lines := [Open(0), AsmdefName(asmdefName), AsmdefReferences, AsmdefAutoReferenced, Close(0)];
    written := Some(Unit(filePath, lines));
  }

  // ---------------------------------------------------------------------
  // Generate.

  /** A table takes part unless a filter is given and does not list its name. */
  predicate Passes(filter: Option<seq<string>>, tableName: string)
  {
    filter.None? || tableName in filter.value
  }

  /** The tables Generate writes classes for, in document order. */
  function Selected(tables: seq<Table>, filter: Option<seq<string>>): seq<Table>
  {
    if tables == [] then []
    else
      var last := tables[|tables| - 1];
      Selected(tables[..|tables| - 1], filter) + (if Passes(filter, last.name) then [last] else [])
  }

  /** The selection keeps exactly the tables the filter passes, and without a
      filter it keeps them all. */
  lemma {:induction false} SelectedMembers(tables: seq<Table>, filter: Option<seq<string>>)
    ensures forall t :: t in Selected(tables, filter) <==> t in tables && Passes(filter, t.name)
    ensures filter.None? ==> Selected(tables, filter) == tables
    ensures |Selected(tables, filter)| <= |tables|
  {
    if tables != [] {
      var n := |tables| - 1;
      SelectedMembers(tables[..n], filter);
      assert tables == tables[..n] + [tables[n]];
    }
  }

  function ClassFileName(tableName: string): string
  {
    SanitizeName(tableName) + ".cs"
  }

  function ClassUnit(t: Table, outputPath: string, ns: string): Unit
  {
    Unit(Combine(outputPath, ClassFileName(t.name)), ClassLines(SanitizeName(t.name), t.schema, ns))
  }

  function ClassUnits(tables: seq<Table>, outputPath: string, ns: string): seq<Unit>
  {
    seq(|tables|, k requires 0 <= k < |tables| => ClassUnit(tables[k], outputPath, ns))
  }

  function RegistryUnit(tables: seq<Table>, outputPath: string, ns: string): Unit
  {
    Unit(Combine(outputPath, "ManoDataRegistry.cs"), RegistryLines(tables, ns))
  }

  /** The writes of one Generate over the document's tables: none when there
      is no table; otherwise the asmdef (if new), one class per selected table,
      then the registry of the selected tables. */
  function GeneratedUnits(tables: seq<Table>, filter: Option<seq<string>>, outputPath: string, ns: string,
                          existing: set<string>): seq<Unit>
  {
    if tables == [] then []
    else
      var selected := Selected(tables, filter);
      AsmdefUnits(outputPath, ns, existing) + ClassUnits(selected, outputPath, ns) + [RegistryUnit(selected, outputPath, ns)]
  }

  /** Reloads the asset from its stored JSON, then emits the writes. The
      directory creation, the asset database refresh and the log lines are
      not modelled. */
  method Generate(so: ManoDataDocumentSO?, filter: Option<seq<string>>, now: string, existing: set<string>)
    returns (units: seq<Unit>)
    modifies if so == null then {} else {so}
    ensures so == null ==> units == []
    ensures so != null ==>
      so.rawJson == old(so.rawJson) && so.generatedCodePath == old(so.generatedCodePath) &&
      so.nameSpaceDocument == old(so.nameSpaceDocument) && so.objectCache == old(so.objectCache)
    ensures so != null ==>
      so.availableSheets == old(so.availableSheets) && so.generatedSheets == old(so.generatedSheets)
    ensures so != null ==> so.document == Reloaded(old(so.document), so.rawJson, now)
    ensures so != null && so.rawJson.Parsed? ==> so.lastEdit == now && so.tableCache == Index(TablesOf(so.document))
    ensures so != null && !so.rawJson.Parsed? ==> so.lastEdit == old(so.lastEdit) && so.tableCache == old(so.tableCache)
    ensures so != null ==>
      units == GeneratedUnits(TablesOf(so.document), filter, OutputPath(so.generatedCodePath),
                              Namespace(so.nameSpaceDocument), existing)
  {
    if so == null {
      return [];
    }
    so.LoadDataFromJSON(now);
    units := EmitUnits(so.document, filter, so.generatedCodePath, so.nameSpaceDocument, existing);
  }

  /** Generate after the reload: nothing without tables; otherwise the asmdef
      if it is new, the classes of the selected tables and the registry. */
  method EmitUnits(document: Option<Document>, filter: Option<seq<string>>, generatedCodePath: string,
                   nameSpaceDocument: string, existing: set<string>)
    returns (units: seq<Unit>)
    ensures units == GeneratedUnits(TablesOf(document), filter, OutputPath(generatedCodePath),
                                    Namespace(nameSpaceDocument), existing)
  {
    if document.None? || |document.value.tables| == 0 {
      return [];
    }
    var outputPath := if generatedCodePath == "" then "Assets/Scripts/GeneratedData/" else generatedCodePath;
    var ns := if nameSpaceDocument == "" then "Mano.Data.Generated" else "Mano.Data." + nameSpaceDocument;
    var asmdef := GenerateAsmdef(outputPath, ns, existing);
    units := if asmdef.Some? then [asmdef.value] else [];
    var classes, generatedTables := GenerateClasses(document.value.tables, filter, outputPath, ns);
    units := units + classes;
    var registryCode := BuildRegistryCode(generatedTables, ns);
    units := units + [Unit(Combine(outputPath, "ManoDataRegistry.cs"), registryCode)];
  }

  /** Generate's table loop: a class per table that passes the filter, and the
      list of those tables for the registry. */
  method GenerateClasses(tables: seq<Table>, filter: Option<seq<string>>, outputPath: string, ns: string)
    returns (units: seq<Unit>, generatedTables: seq<Table>)
    ensures generatedTables == Selected(tables, filter)
    ensures units == ClassUnits(generatedTables, outputPath, ns)
  {
    units := [];
    generatedTables := [];
    var i := 0;
    while i < |tables|
      invariant 0 <= i <= |tables|
      invariant generatedTables == Selected(tables[..i], filter)
      invariant units == ClassUnits(generatedTables, outputPath, ns)
    {
      var table := tables[i];
      assert tables[..i + 1][..i] == tables[..i];
      if filter.Some? && table.name !in filter.value {
        i := i + 1;
        continue;
      }
      var written := WriteClass(table, outputPath, ns);
      units := units + [written];
      generatedTables := generatedTables + [table];
      i := i + 1;
    }
    assert tables[..i] == tables;
  }

  /** One class file of Generate's loop. */
  method WriteClass(table: Table, outputPath: string, ns: string) returns (written: Unit)
    ensures written == ClassUnit(table, outputPath, ns)
  {
    var className := SanitizeName(table.name);
    var code := BuildClassCode(className, table.schema, ns);
    written := Unit(Combine(outputPath, className + ".cs"), code);
  }

  /** The paths a sequence of writes touches. */
  function Paths(units: seq<Unit>): set<string>
  {
    set u | u in units :: u.path
  }

  /** The registry pre-warms exactly the tables whose class files are
      written, in the same order: the k-th class file is named after the k-th
      table and line 13 + k of the registry pre-warms that table. */
  lemma RegistryMatchesClasses(selected: seq<Table>, outputPath: string, ns: string)
    ensures var classes := ClassUnits(selected, outputPath, ns);
      var registry := RegistryUnit(selected, outputPath, ns);
      |classes| == |selected| && |registry.lines| == 28 + |selected| &&
      forall k :: 0 <= k < |selected| ==>
        classes[k].path == Combine(outputPath, ClassFileName(selected[k].name)) &&
        registry.lines[13 + k] == PreWarmCall(selected[k].name)
  {
    RegistryLayout(selected, ns);
  }

  /** Once a Generate has written its files, a second one over the same
      output path and namespace writes no asmdef. */
  lemma AsmdefWrittenOnce(tables: seq<Table>, filter: Option<seq<string>>, outputPath: string, ns: string,
                          existing: set<string>)
    requires tables != []
    ensures AsmdefUnits(outputPath, ns, existing + Paths(GeneratedUnits(tables, filter, outputPath, ns, existing))) == []
  {
    var units := GeneratedUnits(tables, filter, outputPath, ns, existing);
    if AsmdefPath(outputPath, ns) !in existing {
      assert units[0].path == AsmdefPath(outputPath, ns);
      assert units[0] in units;
    }
  }
}
