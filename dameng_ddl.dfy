/**
 * The Dameng DDL executor. Dameng scopes its catalogue views to the connected user, so the
 * table, column and sampling queries do not mention the schema argument (only the table scan
 * hands it to the executor); databases are not enumerated; and the foreign-key query does not
 * resolve the referenced table or column.
 */
module DamengDdl {
  import opened Wrappers
  import opened JavaText
  import opened SchemaTypes
  import opened JdbcResults

  /** The queries the executor sends, by what they select. */
  datatype Query =
    | Users                                       // SYS.ALL_USERS, read as schemas
    | UserTables(like: Option<string>)            // USER_TABLES, optionally by substring
    | NamedTables(inList: string)
    | TableColumns(table: string)                 // USER_TAB_COLUMNS
    | Constraints(inList: string)                 // referential constraints of the listed tables
    | Sample(table: string, column: string)       // the column, first 99 rows
    | Scan(table: string)                         // every column, first 20 rows

  function ShowTablesQuery(pattern: string): (q: Query)
    ensures q.UserTables?
    ensures q.like.Some? <==> !IsBlank(pattern)
    ensures q.like.Some? ==> q.like.value == pattern
  {
    UserTables(if IsBlank(pattern) then None else Some(pattern))
  }

  function SchemaRow(row: seq<string>): SchemaInfo
  {
    SchemaInfo(Cell(row, 0))
  }

  /** A table by name only: the views carry no comment, so the description is empty. */
  function NameOnlyRow(row: seq<string>): TableInfo
  {
    NewTable(Cell(row, 0), "")
  }

  /** "N" in NULLABLE (any case) means NOT NULL, passed through the string "true"/"false". */
  function NotNullFlag(nullable: string): bool
  {
    ToBoolean(if EqualsIgnoreCase("N", nullable) then "true" else "false")
  }

  lemma NotNullFlagSpec(nullable: string)
    ensures NotNullFlag(nullable) <==> EqualsIgnoreCase("N", nullable)
  {
    assert ToLower("true") == "true";
    assert ToLower("false") == "false";
  }

  /** Name, type through the type mapping (cell 1), nullability from cell 3; never primary, no comment. */
  function ColumnRow(wrapType: string -> string): seq<string> -> ColumnInfo
  {
    row => NewColumn(Cell(row, 0), "", wrapType(Cell(row, 1)), false, NotNullFlag(Cell(row, 3)))
  }

  /** Table and column only. */
  function ForeignKeyRow(row: seq<string>): ForeignKeyInfo
  {
    ForeignKeyInfo(Cell(row, 0), Cell(row, 1), "", "")
  }

  /** Databases are not enumerated on Dameng. */
  method ShowDatabases() returns (r: seq<DatabaseInfo>)
    ensures r == []
  {
    r := [];
  }

  method ShowSchemas(run: Query -> Result<ResultTable>) returns (r: Result<seq<SchemaInfo>>)
    ensures r == Listed(run(Users), 1, SchemaRow)
  {
    r := ReadRows(run(Users), 1, SchemaRow);
  }

  method ShowTables(run: Query -> Result<ResultTable>, schema: string, pattern: string) returns (r: Result<seq<TableInfo>>)
    ensures r == Listed(run(ShowTablesQuery(pattern)), 1, NameOnlyRow)
    ensures r.Ok? ==> forall t :: t in r.value ==> t.description == "" && t.columns == []
  {
    var query := run(ShowTablesQuery(pattern));
    r := ReadRows(query, 1, NameOnlyRow);
    if r.Ok? {
      ConvertSpec(query.value, 1, NameOnlyRow);
    }
  }

  /** An empty list answers an empty list without querying. */
  method FetchTables(run: Query -> Result<ResultTable>, schema: string, tables: seq<string>) returns (r: Result<seq<TableInfo>>)
    ensures |tables| == 0 ==> r == Ok([])
    ensures |tables| > 0 ==> r == Listed(run(NamedTables(QuotedList(tables))), 1, NameOnlyRow)
  {
    if |tables| == 0 {
      return Ok([]);
    }
    r := ReadRows(run(NamedTables(QuotedList(tables))), 1, NameOnlyRow);
  }

  /**
   * One column per data row, each row needing four cells; no column is primary and a column is
   * NOT NULL exactly when its NULLABLE cell is "N" in any case.
   */
  method ShowColumns(run: Query -> Result<ResultTable>, wrapType: string -> string, schema: string, table: string)
    returns (r: Result<seq<ColumnInfo>>)
    ensures r == Listed(run(TableColumns(table)), 4, ColumnRow(wrapType))
    ensures r.Ok? ==> var rows := DataRows(run(TableColumns(table)).value);
                      |r.value| == |rows|
                      && forall i :: 0 <= i < |rows| ==>
                           |rows[i]| >= 4 && r.value[i].name == rows[i][0] && !r.value[i].primary
                           && (r.value[i].notNull <==> EqualsIgnoreCase("N", rows[i][3]))
  {
    var query := run(TableColumns(table));
    r := ReadRows(query, 4, ColumnRow(wrapType));
    if r.Ok? {
      ConvertSpec(query.value, 4, ColumnRow(wrapType));
      var rows := DataRows(query.value);
      forall i | 0 <= i < |rows|
        ensures r.value[i] == NewColumn(rows[i][0], "", wrapType(rows[i][1]), false, NotNullFlag(rows[i][3]))
        ensures r.value[i].notNull <==> EqualsIgnoreCase("N", rows[i][3])
      {
        var row := rows[i];
        assert |row| >= 4;
        assert Cell(row, 0) == row[0] && Cell(row, 1) == row[1] && Cell(row, 3) == row[3];
        assert r.value[i] == ColumnRow(wrapType)(row);
        NotNullFlagSpec(row[3]);
      }
    }
  }

  /** An empty list answers an empty list without querying; the referenced side is left empty. */
  method ShowForeignKeys(run: Query -> Result<ResultTable>, schema: string, tables: seq<string>) returns (r: Result<seq<ForeignKeyInfo>>)
    ensures |tables| == 0 ==> r == Ok([])
    ensures |tables| > 0 ==> r == Listed(run(Constraints(QuotedList(tables))), 2, ForeignKeyRow)
    ensures r.Ok? ==> forall fk :: fk in r.value ==> fk.referencedTable == "" && fk.referencedColumn == ""
  {
    if |tables| == 0 {
      return Ok([]);
    }
    var query := run(Constraints(QuotedList(tables)));
    r := ReadRows(query, 2, ForeignKeyRow);
    if r.Ok? {
      ConvertSpec(query.value, 2, ForeignKeyRow);
    }
  }

  /** Distinct sample values of the column; a query failing with an SQLException is ignored and gives no samples. */
  method SampleColumn(run: Query -> Result<ResultTable>, schema: string, table: string, column: string) returns (r: Result<seq<string>>)
    ensures run(Sample(table, column)).Err? && run(Sample(table, column)).error.SqlError? ==> r == Ok([])
    ensures run(Sample(table, column)).Err? && !run(Sample(table, column)).error.SqlError? ==> r == Err(run(Sample(table, column)).error)
    ensures run(Sample(table, column)).Ok? ==> r.Ok? && forall v :: v in r.value <==> v in SampleValues(run(Sample(table, column)).value, column)
    ensures r.Ok? ==> forall i, j :: 0 <= i < j < |r.value| ==> r.value[i] != r.value[j]
  {
    r := JdbcResults.SampleColumn(run(Sample(table, column)), column);
  }

  /** The scan runs on the executor with the schema argument; the query itself names only the table. */
  method ScanTable<R>(scan: (string, Query) -> Result<R>, schema: string, table: string) returns (r: Result<R>)
    ensures r == Rethrow(scan(schema, Scan(table)))
  {
    var q := scan(schema, Scan(table));
    if q.Err? {
      return Err(Rethrown(q.error));
    }
    r := q;
  }
}
