/**
 * The SQL Server DDL executor: the catalogue queries it sends and how it turns their results into
 * databases, schemas, tables, columns, foreign keys and column samples. The query runner is a
 * parameter: it maps each query to the raw result table or to the SQLException it raised.
 */
module SqlServerDdl {
  import opened Wrappers
  import opened JavaText
  import opened SchemaTypes
  import opened JdbcResults

  /**
   * The catalogue queries the executor sends, by what they select; the SQL text itself is what
   * the database interprets. A table listing carries its LIKE filter only for a pattern that is
   * not blank, and an IN list is the quoted, comma-separated table names.
   */
  datatype Query =
    | Databases                                   // user databases (database_id > 4)
    | Schemas                                     // schemas other than the built-in ones
    | Tables(schema: string, like: Option<string>) // base tables, by name, first 2000
    | NamedTables(schema: string, inList: string)
    | Columns(schema: string, table: string)      // by ordinal position
    | ForeignKeys(schema: string, inList: string)
    | Select(sql: string)                         // the shared select builder's query

  /** showTables' query: the pattern filters by substring only when it is not blank. */
  function ShowTablesQuery(schema: string, pattern: string): (q: Query)
    ensures q.Tables? && q.schema == schema
    ensures q.like.Some? <==> !IsBlank(pattern)
    ensures q.like.Some? ==> q.like.value == pattern
  {
    Tables(schema, if IsBlank(pattern) then None else Some(pattern))
  }

  /** Every blank pattern, the empty one included, sends the same unfiltered query. */
  lemma BlankPatternsAgree(schema: string, p1: string, p2: string)
    requires IsBlank(p1) && IsBlank(p2)
    ensures ShowTablesQuery(schema, p1) == ShowTablesQuery(schema, p2) == ShowTablesQuery(schema, "")
  {
  }

  // ---------------------------------------------------------------- row readers

  function DatabaseRow(row: seq<string>): DatabaseInfo
  {
    DatabaseInfo(Cell(row, 0))
  }

  function SchemaRow(row: seq<string>): SchemaInfo
  {
    SchemaInfo(Cell(row, 0))
  }

  /** Name and comment. */
  function TableRow(row: seq<string>): TableInfo
  {
    NewTable(Cell(row, 0), Cell(row, 1))
  }

  /** Name, comment, type through the type mapping, and the two 'true'/'false' flags. */
  function ColumnRow(wrapType: string -> string): seq<string> -> ColumnInfo
  {
    row => NewColumn(Cell(row, 0), Cell(row, 1), wrapType(Cell(row, 2)), ToBoolean(Cell(row, 3)), ToBoolean(Cell(row, 4)))
  }

  function ForeignKeyRow(row: seq<string>): ForeignKeyInfo
  {
    ForeignKeyInfo(Cell(row, 0), Cell(row, 1), Cell(row, 2), Cell(row, 3))
  }

  // ---------------------------------------------------------------- operations

  method ShowDatabases(run: Query -> Result<ResultTable>) returns (r: Result<seq<DatabaseInfo>>)
    ensures r == Listed(run(Databases), 1, DatabaseRow)
  {
    r := ReadRows(run(Databases), 1, DatabaseRow);
  }

  method ShowSchemas(run: Query -> Result<ResultTable>) returns (r: Result<seq<SchemaInfo>>)
    ensures r == Listed(run(Schemas), 1, SchemaRow)
  {
    r := ReadRows(run(Schemas), 1, SchemaRow);
  }

  /** A data row with a single cell is an index out of bounds; every listed table starts without columns. */
  method ShowTables(run: Query -> Result<ResultTable>, schema: string, pattern: string) returns (r: Result<seq<TableInfo>>)
    ensures r == Listed(run(ShowTablesQuery(schema, pattern)), 2, TableRow)
    ensures r.Ok? ==> forall t :: t in r.value ==> t.columns == [] && t.primaryKeys == []
  {
    r := ReadRows(run(ShowTablesQuery(schema, pattern)), 2, TableRow);
    if r.Ok? {
      ConvertSpec(run(ShowTablesQuery(schema, pattern)).value, 2, TableRow);
    }
  }

  method FetchTables(run: Query -> Result<ResultTable>, schema: string, tables: seq<string>) returns (r: Result<seq<TableInfo>>)
    ensures r == Listed(run(NamedTables(schema, QuotedList(tables))), 2, TableRow)
  {
    r := ReadRows(run(NamedTables(schema, QuotedList(tables))), 2, TableRow);
  }

  /**
   * One column per data row, in ordinal order, with at least five cells per row; the flags are
   * the BooleanUtils reading of the 'true'/'false' the query computes.
   */
  method ShowColumns(run: Query -> Result<ResultTable>, wrapType: string -> string, schema: string, table: string)
    returns (r: Result<seq<ColumnInfo>>)
    ensures r == Listed(run(Columns(schema, table)), 5, ColumnRow(wrapType))
    ensures r.Ok? ==> var rows := DataRows(run(Columns(schema, table)).value);
                      |r.value| == |rows|
                      && forall i :: 0 <= i < |rows| ==>
                           |rows[i]| >= 5 && r.value[i].name == rows[i][0] && r.value[i].primary == ToBoolean(rows[i][3])
                           && r.value[i].notNull == ToBoolean(rows[i][4])
    // the catalogue query writes each flag as 'true' or 'false', and that reads back as the flag
    ensures r.Ok? ==> var rows := DataRows(run(Columns(schema, table)).value);
                      forall i :: 0 <= i < |rows| ==>
                        (rows[i][3] == "true" ==> r.value[i].primary) && (rows[i][3] == "false" ==> !r.value[i].primary)
                        && (rows[i][4] == "true" ==> r.value[i].notNull) && (rows[i][4] == "false" ==> !r.value[i].notNull)
  {
    assert ToLower("true") == "true";
    assert ToLower("false") == "false";
    var query := run(Columns(schema, table));
    r := ReadRows(query, 5, ColumnRow(wrapType));
    if r.Ok? {
      ConvertSpec(query.value, 5, ColumnRow(wrapType));
      var rows := DataRows(query.value);
      forall i | 0 <= i < |rows|
        ensures r.value[i] == NewColumn(rows[i][0], rows[i][1], wrapType(rows[i][2]), ToBoolean(rows[i][3]), ToBoolean(rows[i][4]))
      {
        var row := rows[i];
        assert |row| >= 5;
        assert Cell(row, 0) == row[0] && Cell(row, 1) == row[1] && Cell(row, 2) == row[2];
        assert Cell(row, 3) == row[3] && Cell(row, 4) == row[4];
        assert r.value[i] == ColumnRow(wrapType)(row);
      }
    }
  }

  method ShowForeignKeys(run: Query -> Result<ResultTable>, schema: string, tables: seq<string>) returns (r: Result<seq<ForeignKeyInfo>>)
    ensures r == Listed(run(ForeignKeys(schema, QuotedList(tables))), 4, ForeignKeyRow)
  {
    r := ReadRows(run(ForeignKeys(schema, QuotedList(tables))), 4, ForeignKeyRow);
  }

  /** The sampling query comes from the shared select builder, which is a parameter here. */
  method SampleColumn(run: Query -> Result<ResultTable>, selectSql: string, column: string) returns (r: Result<seq<string>>)
    ensures run(Select(selectSql)).Err? && run(Select(selectSql)).error.SqlError? ==> r == Ok([])
    ensures run(Select(selectSql)).Err? && !run(Select(selectSql)).error.SqlError? ==> r == Err(run(Select(selectSql)).error)
    ensures run(Select(selectSql)).Ok? ==> r.Ok? && forall v :: v in r.value <==> v in SampleValues(run(Select(selectSql)).value, column)
    ensures r.Ok? ==> forall i, j :: 0 <= i < j < |r.value| ==> r.value[i] != r.value[j]
  {
    r := JdbcResults.SampleColumn(run(Select(selectSql)), column);
  }

  /** scanTable: the first 20 rows of the table through the shared select builder, SQLException rethrown. */
  method ScanTable<R>(scan: Query -> Result<R>, selectSql: string) returns (r: Result<R>)
    ensures r == Rethrow(scan(Select(selectSql)))
  {
    var q := scan(Select(selectSql));
    if q.Err? {
      return Err(Rethrown(q.error));
    }
    r := q;
  }
}
