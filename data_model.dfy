/** The document model of Runtime/Core/ManoDataDocument.cs: a document owns an
    ordered list of tables and a list of group labels; a table owns a column
    schema and its rows. A row is its id (the first cell of the source row)
    together with the mapping from column name to the row's text. */
module DataModel {

  datatype Option<+T> = None | Some(value: T)

  /** One column of a table: its name and its type tag as written in the sheet. */
  datatype Column = Column(name: string, typeTag: string)

  /** One logical row: its id and the value held under each column name. */
  datatype Row = Row(id: string, values: map<string, string>)

  datatype Table = Table(name: string, group: string, schema: seq<Column>, rows: seq<Row>)

  datatype Document = Document(tables: seq<Table>, groups: seq<string>, lastEdit: string)

  /** `new ManoDataDocument()`: no tables and no groups (lastEdit starts unset). */
  function NewDocument(): (d: Document)
    ensures d.tables == [] && d.groups == []
  {
    Document([], [], "")
  }

  /** `new TableContent { name = n, group = g }`: no rows and no columns yet. */
  function NewTable(name: string, group: string): (t: Table)
    ensures t.name == name && t.group == group
    ensures t.rows == [] && t.schema == []
  {
    Table(name, group, [], [])
  }

  /** The names of a schema, in column order. */
  function ColumnNames(schema: seq<Column>): (names: seq<string>)
    ensures |names| == |schema|
    ensures forall c :: 0 <= c < |schema| ==> names[c] == schema[c].name
  {
    if schema == [] then [] else ColumnNames(schema[..|schema| - 1]) + [schema[|schema| - 1].name]
  }

  /** A table's tables list viewed through a possibly absent document. */
  function TablesOf(doc: Option<Document>): seq<Table>
  {
    if doc.Some? then doc.value.tables else []
  }
}
