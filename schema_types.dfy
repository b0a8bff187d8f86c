/** The business objects the JDBC layer returns and the schema service enriches. */
module SchemaTypes {
  import opened Wrappers

  datatype ForeignKeyInfo = ForeignKeyInfo(table: string, column: string, referencedTable: string, referencedColumn: string)

  datatype ColumnInfo = ColumnInfo(
    name: string,
    description: string,
    columnType: string,
    primary: bool,
    notNull: bool,
    tableName: string,
    samples: string)

  datatype TableInfo = TableInfo(
    name: string,
    description: string,
    columns: seq<ColumnInfo>,
    primaryKeys: seq<string>,
    foreignKey: string)

  datatype DatabaseInfo = DatabaseInfo(name: string)

  datatype SchemaInfo = SchemaInfo(name: string)

  /** One row of a query result: column label to value; a missing label is a SQL NULL. */
  type Row = map<string, string>

  /** A raw JDBC result as SqlExecutor returns it: row 0 holds the column labels. */
  type ResultTable = seq<seq<string>>

  /** The recalled schema handed to the prompt builders; a null field is `None`. */
  datatype ColumnDTO = ColumnDTO(
    name: Option<string>,
    description: Option<string>,
    columnType: Option<string>,
    data: Option<seq<string>>)

  /** A TableDTO starts with an empty column list and no primary keys. */
  datatype TableDTO = TableDTO(
    name: Option<string>,
    description: Option<string>,
    column: seq<ColumnDTO>,
    primaryKeys: Option<seq<string>>)

  datatype SchemaDTO = SchemaDTO(name: Option<string>, table: seq<TableDTO>, foreignKeys: seq<string>)

  /** A table as first listed by showTables / fetchTables, before enrichment. */
  function NewTable(name: string, description: string): (t: TableInfo)
    ensures t.name == name && t.description == description
    ensures t.columns == [] && t.primaryKeys == [] && t.foreignKey == ""
  {
    TableInfo(name, description, [], [], "")
  }

  function NewColumn(name: string, description: string, columnType: string, primary: bool, notNull: bool): (c: ColumnInfo)
    ensures c.name == name && c.description == description && c.columnType == columnType
    ensures c.primary == primary && c.notNull == notNull && c.tableName == "" && c.samples == ""
  {
    ColumnInfo(name, description, columnType, primary, notNull, "", "")
  }
}
