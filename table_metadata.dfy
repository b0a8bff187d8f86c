/**
 * TableMetadataService: enriching the listed tables with their columns, a few sample values
 * per column, their primary keys and a foreign-key summary.
 *
 * The JDBC calls (showColumns and the sample query) are oracles passed in as functions.
 * The Java code sets fields on the TableInfoBO and ColumnInfoBO objects it is given; here the
 * enriched tables are returned as new values.
 */
module TableMetadata {
  import opened Wrappers
  import opened JavaText
  import opened SchemaTypes
  import SqlUtil
  import JsonStrings
  import SeqUtil

  /** At most this many sample values are kept per column. */
  const SAMPLE_LIMIT: nat := 3
  /** Longer sample values are dropped. */
  const MAX_SAMPLE_LENGTH: nat := 100
  /** The sample query reads this many rows. */
  const SAMPLE_ROWS: int := 5
  /** Separator of the foreign-key summary. */
  const FK_SEPARATOR: string := "、"

  type SampleMap = map<string, seq<string>>

  predicate NoDuplicates(xs: seq<string>)
  {
    forall i, j :: 0 <= i < j < |xs| ==> xs[i] != xs[j]
  }

  // ---------------------------------------------------------------- filtering samples

  /** Stream.distinct(): the first occurrence of every value, in order. */
  function Distinct(xs: seq<string>): (r: seq<string>)
    ensures NoDuplicates(r)
    ensures forall x :: x in r <==> x in xs
    ensures |r| <= |xs|
    decreases |xs|
  {
    if |xs| == 0 then []
    else
      var init := xs[..|xs| - 1];
      assert xs == init + [xs[|xs| - 1]];
      var d := Distinct(init);
      if xs[|xs| - 1] in d then d else d + [xs[|xs| - 1]]
  }

  /** `.filter(s -> s.length() <= 100)` */
  function ShortOnly(xs: seq<string>): (r: seq<string>)
    ensures forall x :: x in r <==> x in xs && |x| <= MAX_SAMPLE_LENGTH
    ensures |r| <= |xs|
    decreases |xs|
  {
    if |xs| == 0 then []
    else
      var init := xs[..|xs| - 1];
      assert xs == init + [xs[|xs| - 1]];
      var last := xs[|xs| - 1];
      ShortOnly(init) + (if |last| <= MAX_SAMPLE_LENGTH then [last] else [])
  }

  /** `.limit(n)` */
  function Take(xs: seq<string>, n: nat): (r: seq<string>)
    ensures |r| <= n && |r| <= |xs| && r == xs[..|r|]
    ensures |xs| <= n ==> r == xs
  {
    if |xs| <= n then xs else xs[..n]
  }

  /**
   * filterAndLimitSampleData for one column: distinct values, then the first three of
   * them, then only those of at most 100 characters.
   */
  function FilterSamples(samples: seq<string>): (r: seq<string>)
  {
    ShortOnly(Take(Distinct(samples), SAMPLE_LIMIT))
  }

  lemma {:induction false} ShortOnlyKeepsNoDuplicates(xs: seq<string>)
    requires NoDuplicates(xs)
    ensures NoDuplicates(ShortOnly(xs))
    decreases |xs|
  {
    if |xs| > 0 {
      var init := xs[..|xs| - 1];
      assert NoDuplicates(init);
      ShortOnlyKeepsNoDuplicates(init);
      assert xs[|xs| - 1] !in init;
    }
  }

  /** The kept samples are distinct, at most three, at most 100 characters each, and all taken from the input. */
  lemma FilterSamplesBounds(samples: seq<string>)
    ensures var r := FilterSamples(samples);
            |r| <= SAMPLE_LIMIT && NoDuplicates(r)
            && (forall x :: x in r ==> |x| <= MAX_SAMPLE_LENGTH && x in samples)
  {
    var t := Take(Distinct(samples), SAMPLE_LIMIT);
    assert NoDuplicates(t);
    ShortOnlyKeepsNoDuplicates(t);
  }

  lemma {:induction false} DistinctOfDistinct(xs: seq<string>)
    requires NoDuplicates(xs)
    ensures Distinct(xs) == xs
    decreases |xs|
  {
    if |xs| > 0 {
      var init := xs[..|xs| - 1];
      assert NoDuplicates(init);
      DistinctOfDistinct(init);
      assert xs[|xs| - 1] !in init;
      assert init + [xs[|xs| - 1]] == xs;
    }
  }

  lemma ShortOnlyLast(xs: seq<string>)
    requires |xs| > 0
    ensures var last := xs[|xs| - 1];
            ShortOnly(xs) == ShortOnly(xs[..|xs| - 1]) + (if |last| <= MAX_SAMPLE_LENGTH then [last] else [])
  {
  }

  lemma {:induction false} ShortOnlyOfShort(xs: seq<string>)
    requires forall i :: 0 <= i < |xs| ==> |xs[i]| <= MAX_SAMPLE_LENGTH
    ensures ShortOnly(xs) == xs
    decreases |xs|
  {
    if |xs| > 0 {
      var init, last := xs[..|xs| - 1], xs[|xs| - 1];
      ShortOnlyOfShort(init);
      ShortOnlyLast(xs);
      assert |last| <= MAX_SAMPLE_LENGTH;
      SeqUtil.InitLast(xs);
    }
  }

  /** Filtering already filtered samples changes nothing. */
  lemma FilterSamplesIdempotent(samples: seq<string>)
    ensures FilterSamples(FilterSamples(samples)) == FilterSamples(samples)
  {
    var r := FilterSamples(samples);
    FilterSamplesBounds(samples);
    DistinctOfDistinct(r);
    assert forall i :: 0 <= i < |r| ==> r[i] in r;
    ShortOnlyOfShort(r);
  }

  // ---------------------------------------------------------------- collecting samples

  /** The values one row gives column `name`: one per column entry of that name, when the row has a value. */
  function RowValues(row: Row, columns: seq<ColumnInfo>, name: string): seq<string>
    decreases |columns|
  {
    if |columns| == 0 then []
    else
      RowValues(row, columns[..|columns| - 1], name)
      + (if columns[|columns| - 1].name == name && name in row then [row[name]] else [])
  }

  /** The raw samples of column `name`: the values of all rows, in row order. */
  function ColumnSamples(rows: seq<Row>, columns: seq<ColumnInfo>, name: string): seq<string>
    decreases |rows|
  {
    if |rows| == 0 then []
    else ColumnSamples(rows[..|rows| - 1], columns, name) + RowValues(rows[|rows| - 1], columns, name)
  }

  function ColumnNames(columns: seq<ColumnInfo>): (r: seq<string>)
    ensures |r| == |columns| && forall i :: 0 <= i < |columns| ==> r[i] == columns[i].name
  {
    seq(|columns|, i requires 0 <= i < |columns| => columns[i].name)
  }

  lemma {:induction false} RowValuesFromRow(row: Row, columns: seq<ColumnInfo>, name: string)
    ensures forall x :: x in RowValues(row, columns, name) ==> name in row && x == row[name]
    ensures RowValues(row, columns, name) != [] ==> name in ColumnNames(columns)
    decreases |columns|
  {
    if |columns| > 0 {
      RowValuesFromRow(row, columns[..|columns| - 1], name);
      assert ColumnNames(columns[..|columns| - 1]) == ColumnNames(columns)[..|columns| - 1];
      assert columns[|columns| - 1].name == ColumnNames(columns)[|columns| - 1];
    }
  }

  /**
   * Only values actually present in a row are collected (a SQL NULL is skipped), and only for
   * columns that were asked for.
   */
  lemma {:induction false} ColumnSamplesFromRows(rows: seq<Row>, columns: seq<ColumnInfo>, name: string)
    ensures forall x :: x in ColumnSamples(rows, columns, name) ==>
              exists k :: 0 <= k < |rows| && name in rows[k] && rows[k][name] == x
    ensures ColumnSamples(rows, columns, name) != [] ==> name in ColumnNames(columns)
    decreases |rows|
  {
    if |rows| > 0 {
      var init := rows[..|rows| - 1];
      ColumnSamplesFromRows(init, columns, name);
      RowValuesFromRow(rows[|rows| - 1], columns, name);
      forall x | x in ColumnSamples(rows, columns, name)
        ensures exists k :: 0 <= k < |rows| && name in rows[k] && rows[k][name] == x
      {
        if x in ColumnSamples(init, columns, name) {
          var k :| 0 <= k < |init| && name in init[k] && init[k][name] == x;
          assert rows[k] == init[k];
        } else {
          assert rows[|rows| - 1][name] == x;
        }
      }
    }
  }

  /**
   * extractSampleDataFromRow over all rows: for every requested column with a value in the
   * row, the value is appended under the column name (computeIfAbsent(...).add(...)).
   */
  method CollectSamples(rows: seq<Row>, columns: seq<ColumnInfo>) returns (m: SampleMap)
    ensures forall name :: name in m <==> ColumnSamples(rows, columns, name) != []
    ensures forall name :: name in m ==> m[name] == ColumnSamples(rows, columns, name)
  {
    m := map[];
    var i := 0;
    while i < |rows|
      invariant 0 <= i <= |rows|
      invariant forall name :: name in m ==> m[name] != []
      invariant forall name :: Lookup(m, name) == ColumnSamples(rows[..i], columns, name)
    {
      m := AddRow(m, rows[i], columns);
      forall name ensures ColumnSamples(rows[..i + 1], columns, name) == ColumnSamples(rows[..i], columns, name) + RowValues(rows[i], columns, name) {
        ColumnSamplesStep(rows, columns, i, name);
      }
      i := i + 1;
    }
    SeqUtil.FullPrefix(rows);
  }

  /** extractSampleDataFromRow: the row's value of every requested column is appended under its name. */
  method AddRow(m0: SampleMap, row: Row, columns: seq<ColumnInfo>) returns (m: SampleMap)
    requires forall name :: name in m0 ==> m0[name] != []
    ensures forall name :: name in m ==> m[name] != []
    ensures forall name :: Lookup(m, name) == Lookup(m0, name) + RowValues(row, columns, name)
  {
    m := m0;
    var j := 0;
    while j < |columns|
      invariant 0 <= j <= |columns|
      invariant forall name :: name in m ==> m[name] != []
      invariant forall name :: Lookup(m, name) == Lookup(m0, name) + RowValues(row, columns[..j], name)
    {
      var c := columns[j];
      var m' := if c.name in row then m[c.name := Lookup(m, c.name) + [row[c.name]]] else m;
      AddRowStep(m0, m, m', row, columns, j);
      m := m';
      j := j + 1;
    }
    SeqUtil.FullPrefix(columns);
  }

  /** `map.getOrDefault(name, [])` on the sample map. */
  function Lookup(m: SampleMap, name: string): (r: seq<string>)
    ensures name in m ==> r == m[name]
    ensures name !in m ==> r == []
  {
    if name in m then m[name] else []
  }

  lemma AddRowStep(m0: SampleMap, m: SampleMap, m': SampleMap, row: Row, columns: seq<ColumnInfo>, j: nat)
    requires j < |columns|
    requires forall name :: Lookup(m, name) == Lookup(m0, name) + RowValues(row, columns[..j], name)
    requires forall name :: name in m ==> m[name] != []
    requires m' == if columns[j].name in row then m[columns[j].name := Lookup(m, columns[j].name) + [row[columns[j].name]]] else m
    ensures forall name :: Lookup(m', name) == Lookup(m0, name) + RowValues(row, columns[..j + 1], name)
    ensures forall name :: name in m' ==> m'[name] != []
  {
    forall name ensures Lookup(m', name) == Lookup(m0, name) + RowValues(row, columns[..j + 1], name) {
      AddRowStepAt(m0, m, m', row, columns, j, name);
    }
  }

  lemma AddRowStepAt(m0: SampleMap, m: SampleMap, m': SampleMap, row: Row, columns: seq<ColumnInfo>, j: nat, name: string)
    requires j < |columns|
    requires Lookup(m, name) == Lookup(m0, name) + RowValues(row, columns[..j], name)
    requires m' == if columns[j].name in row then m[columns[j].name := Lookup(m, columns[j].name) + [row[columns[j].name]]] else m
    ensures Lookup(m', name) == Lookup(m0, name) + RowValues(row, columns[..j + 1], name)
  {
    RowValuesStep(row, columns, j, name);
    if columns[j].name == name && name in row {
      calc {
        Lookup(m', name);
        Lookup(m, name) + [row[name]];
        (Lookup(m0, name) + RowValues(row, columns[..j], name)) + [row[name]];
        Lookup(m0, name) + (RowValues(row, columns[..j], name) + [row[name]]);
        Lookup(m0, name) + RowValues(row, columns[..j + 1], name);
      }
    } else {
      assert RowValues(row, columns[..j + 1], name) == RowValues(row, columns[..j], name) + [];
      assert RowValues(row, columns[..j], name) + [] == RowValues(row, columns[..j], name);
    }
  }

  lemma RowValuesStep(row: Row, columns: seq<ColumnInfo>, j: nat, name: string)
    requires j < |columns|
    ensures RowValues(row, columns[..j + 1], name) == RowValues(row, columns[..j], name)
              + (if columns[j].name == name && name in row then [row[name]] else [])
  {
    assert columns[..j + 1][..j] == columns[..j];
  }

  lemma ColumnSamplesStep(rows: seq<Row>, columns: seq<ColumnInfo>, i: nat, name: string)
    requires i < |rows|
    ensures ColumnSamples(rows[..i + 1], columns, name) == ColumnSamples(rows[..i], columns, name) + RowValues(rows[i], columns, name)
  {
    assert rows[..i + 1][..i] == rows[..i];
  }

  // ---------------------------------------------------------------- fetching samples

  /** The select list of the sample query: the column names joined with ", ". */
  function SampleColumns(columns: seq<ColumnInfo>): string
  {
    Join(ColumnNames(columns), ", ")
  }

  /** The filtered samples of every column that has any. */
  function TableSamples(rows: seq<Row>, columns: seq<ColumnInfo>): (r: SampleMap)
  {
    map name | name in ColumnNames(columns) && ColumnSamples(rows, columns, name) != []
      :: FilterSamples(ColumnSamples(rows, columns, name))
  }

  /**
   * What fetchTableSampleData returns: the filtered samples of a five-row query. Any failure
   * (an unbuildable query, a failing query, a null result set or null data) gives the empty map.
   */
  function FetchedSamples(isSqlServer: bool, tableName: string, columns: seq<ColumnInfo>,
                          query: string -> Result<Option<seq<Row>>>): SampleMap
  {
    match SqlUtil.BuildSelectSql(isSqlServer, Some(tableName), Some(SampleColumns(columns)), SAMPLE_ROWS)
    case Err(_) => map[]
    case Ok(sql) =>
      match query(sql)
      case Err(_) => map[]
      case Ok(None) => map[]
      case Ok(Some(rows)) => TableSamples(rows, columns)
  }

  /** The samples of a fetched table are bounded, distinct, and belong to requested columns. */
  lemma FetchedSamplesBounds(isSqlServer: bool, tableName: string, columns: seq<ColumnInfo>,
                             query: string -> Result<Option<seq<Row>>>)
    ensures var m := FetchedSamples(isSqlServer, tableName, columns, query);
            forall name :: name in m ==>
              name in ColumnNames(columns) && |m[name]| <= SAMPLE_LIMIT && NoDuplicates(m[name])
              && forall x :: x in m[name] ==> |x| <= MAX_SAMPLE_LENGTH
  {
    var m := FetchedSamples(isSqlServer, tableName, columns, query);
    forall name | name in m
      ensures name in ColumnNames(columns) && |m[name]| <= SAMPLE_LIMIT && NoDuplicates(m[name])
      ensures forall x :: x in m[name] ==> |x| <= MAX_SAMPLE_LENGTH
    {
      var rows := query(SqlUtil.BuildSelectSql(isSqlServer, Some(tableName), Some(SampleColumns(columns)), SAMPLE_ROWS).value).value.value;
      FilterSamplesBounds(ColumnSamples(rows, columns, name));
    }
  }

  /** fetchTableSampleData: the query, its rows collected column by column, then filtered. */
  method FetchTableSampleData(isSqlServer: bool, tableName: string, columns: seq<ColumnInfo>,
                              query: string -> Result<Option<seq<Row>>>) returns (m: SampleMap)
    ensures m == FetchedSamples(isSqlServer, tableName, columns, query)
  {
    var sql := SqlUtil.BuildSelectSql(isSqlServer, Some(tableName), Some(SampleColumns(columns)), SAMPLE_ROWS);
    if sql.Err? {
      return map[];
    }
    var result := query(sql.value);
    if result.Err? || result.value.None? {
      return map[];
    }
    var rows := result.value.value;
    var raw := CollectSamples(rows, columns);
    m := map name | name in raw :: FilterSamples(raw[name]);
    forall name ensures name in m <==> name in TableSamples(rows, columns) {
      if ColumnSamples(rows, columns, name) != [] {
        ColumnSamplesFromRows(rows, columns, name);
      }
    }
  }

  /** What batchGetSampleDataForTables puts under a table: nothing is queried for a table without columns. */
  function TableEntry(isSqlServer: bool, tableName: string, columns: seq<ColumnInfo>,
                      query: string -> Result<Option<seq<Row>>>): SampleMap
  {
    if columns == [] then map[] else FetchedSamples(isSqlServer, tableName, columns, query)
  }

  /**
   * batchGetSampleDataForTables: one entry per table of the column map. `queried` is the set of
   * tables a sample query was issued for: exactly those with columns.
   */
  method BatchGetSampleData(isSqlServer: bool, tableColumns: map<string, seq<ColumnInfo>>,
                            query: string -> Result<Option<seq<Row>>>)
    returns (result: map<string, SampleMap>, queried: set<string>)
    ensures result.Keys == tableColumns.Keys
    ensures forall t :: t in result ==> result[t] == TableEntry(isSqlServer, t, tableColumns[t], query)
    ensures forall t :: t in queried <==> t in tableColumns && tableColumns[t] != []
  {
    result := map[];
    queried := {};
    var todo := tableColumns.Keys;
    while todo != {}
      invariant todo <= tableColumns.Keys
      invariant forall t :: t in result <==> t in tableColumns && t !in todo
      invariant forall t :: t in result ==> result[t] == TableEntry(isSqlServer, t, tableColumns[t], query)
      invariant forall t :: t in queried <==> t in tableColumns && t !in todo && tableColumns[t] != []
      decreases |todo|
    {
      var t :| t in todo;
      var columns := tableColumns[t];
      var entry: SampleMap := map[];
      if columns != [] {
        entry := FetchTableSampleData(isSqlServer, t, columns, query);
        queried := queried + {t};
      }
      assert entry == TableEntry(isSqlServer, t, columns, query);
      result := result[t := entry];
      todo := todo - {t};
    }
  }

  // ---------------------------------------------------------------- enriching tables

  /** `map.getOrDefault(key, new ArrayList<>())` */
  function GetOrEmpty(m: map<string, seq<string>>, key: string): (r: seq<string>)
    ensures key !in m ==> r == []
    ensures key in m ==> r == m[key]
  {
    if key in m then m[key] else []
  }

  /** setTablePrimaryKeys: the names of the columns flagged primary, in column order. */
  function PrimaryKeyNames(columns: seq<ColumnInfo>): (r: seq<string>)
    decreases |columns|
  {
    if |columns| == 0 then []
    else
      var last := columns[|columns| - 1];
      PrimaryKeyNames(columns[..|columns| - 1]) + (if last.primary then [last.name] else [])
  }

  /** A name is a primary key exactly when some column of that name is flagged primary; no flag gives []. */
  lemma {:induction false} PrimaryKeyNamesSpec(columns: seq<ColumnInfo>)
    ensures |PrimaryKeyNames(columns)| <= |columns|
    ensures forall x :: x in PrimaryKeyNames(columns) <==>
              exists i :: 0 <= i < |columns| && columns[i].primary && columns[i].name == x
    ensures (forall i :: 0 <= i < |columns| ==> !columns[i].primary) ==> PrimaryKeyNames(columns) == []
    decreases |columns|
  {
    if |columns| > 0 {
      var init := columns[..|columns| - 1];
      PrimaryKeyNamesSpec(init);
      forall x ensures x in PrimaryKeyNames(columns) <==>
                exists i :: 0 <= i < |columns| && columns[i].primary && columns[i].name == x
      {
        if exists i :: 0 <= i < |columns| && columns[i].primary && columns[i].name == x {
          var i :| 0 <= i < |columns| && columns[i].primary && columns[i].name == x;
          if i < |init| {
            assert init[i] == columns[i];
          }
        }
        if x in PrimaryKeyNames(init) {
          var i :| 0 <= i < |init| && init[i].primary && init[i].name == x;
          assert columns[i] == init[i];
        }
      }
    }
  }

  /** setColumnSamples after setTableName: the column belongs to the table and carries its samples as JSON. */
  function EnrichColumn(c: ColumnInfo, tableName: string, samples: SampleMap): ColumnInfo
  {
    c.(tableName := tableName, samples := JsonStrings.EncodeList(GetOrEmpty(samples, c.name)))
  }

  /** processColumnInfo, setTablePrimaryKeys and setTableForeignKeys applied to one table. */
  function EnrichTable(t: TableInfo, columns: seq<ColumnInfo>, samples: SampleMap,
                       foreignKeyMap: map<string, seq<string>>): TableInfo
  {
    t.(columns := seq(|columns|, i requires 0 <= i < |columns| => EnrichColumn(columns[i], t.name, samples)),
       primaryKeys := PrimaryKeyNames(columns),
       foreignKey := Join(GetOrEmpty(foreignKeyMap, t.name), FK_SEPARATOR))
  }

  /**
   * An enriched table keeps its name and description; its columns are the listed ones in order,
   * each naming the table and carrying samples that read back as the table's sample list for it;
   * the foreign-key summary is "" when the map has no entry for the table.
   */
  lemma EnrichTableSpec(t: TableInfo, columns: seq<ColumnInfo>, samples: SampleMap,
                        foreignKeyMap: map<string, seq<string>>)
    ensures var r := EnrichTable(t, columns, samples, foreignKeyMap);
            r.name == t.name && r.description == t.description && |r.columns| == |columns|
            && (forall i :: 0 <= i < |columns| ==>
                  r.columns[i].name == columns[i].name && r.columns[i].tableName == t.name
                  && r.columns[i].primary == columns[i].primary
                  && JsonStrings.DecodeList(r.columns[i].samples) == Some(GetOrEmpty(samples, columns[i].name)))
            && (t.name !in foreignKeyMap ==> r.foreignKey == "")
  {
    forall i | 0 <= i < |columns| {
      JsonStrings.DecodeEncode(GetOrEmpty(samples, columns[i].name));
    }
  }

  /** The columns of every table, as fetchTableColumns collects them; a failing showColumns ends the call. */
  method FetchTableColumns(tables: seq<TableInfo>, showColumns: string -> Result<seq<ColumnInfo>>)
    returns (r: Result<map<string, seq<ColumnInfo>>>)
    ensures r.Err? <==> exists i :: 0 <= i < |tables| && showColumns(tables[i].name).Err?
    ensures r.Err? ==> exists i :: 0 <= i < |tables| && showColumns(tables[i].name) == Err(r.error)
                          && forall k :: 0 <= k < i ==> showColumns(tables[k].name).Ok?
    ensures r.Ok? ==> r.value.Keys == set i | 0 <= i < |tables| :: tables[i].name
    ensures r.Ok? ==> forall t :: t in r.value ==> showColumns(t) == Ok(r.value[t])
  {
    var m := map[];
    var i := 0;
    while i < |tables|
      invariant 0 <= i <= |tables|
      invariant forall k :: 0 <= k < i ==> showColumns(tables[k].name).Ok?
      invariant m.Keys == set k | 0 <= k < i :: tables[k].name
      invariant forall t :: t in m ==> showColumns(t) == Ok(m[t])
    {
      var columns := showColumns(tables[i].name);
      if columns.Err? {
        return Err(columns.error);
      }
      m := m[tables[i].name := columns.value];
      i := i + 1;
    }
    return Ok(m);
  }

  /** One table enriched with its own columns and samples, or the exception listing its columns. */
  function EnrichOne(t: TableInfo, showColumns: string -> Result<seq<ColumnInfo>>,
                     isSqlServer: bool, query: string -> Result<Option<seq<Row>>>,
                     foreignKeyMap: map<string, seq<string>>): (r: Result<TableInfo>)
    ensures r.Err? <==> showColumns(t.name).Err?
  {
    match showColumns(t.name)
    case Err(e) => Err(e)
    case Ok(columns) => Ok(EnrichTable(t, columns, TableEntry(isSqlServer, t.name, columns, query), foreignKeyMap))
  }

  /** enrichTablesWithMetadata's step as a function of the table. */
  function EnrichStep(showColumns: string -> Result<seq<ColumnInfo>>, isSqlServer: bool,
                      query: string -> Result<Option<seq<Row>>>,
                      foreignKeyMap: map<string, seq<string>>): TableInfo -> Result<TableInfo>
  {
    t => EnrichOne(t, showColumns, isSqlServer, query, foreignKeyMap)
  }

  /** Every table enriched in order; the first table whose columns cannot be listed ends it. */
  function EnrichAll(tables: seq<TableInfo>, showColumns: string -> Result<seq<ColumnInfo>>,
                     isSqlServer: bool, query: string -> Result<Option<seq<Row>>>,
                     foreignKeyMap: map<string, seq<string>>): Result<seq<TableInfo>>
  {
    MapResult(tables, EnrichStep(showColumns, isSqlServer, query, foreignKeyMap))
  }

  /**
   * Enrichment fails exactly when some table's columns cannot be listed; otherwise every table is
   * enriched with the columns listed for it, and the foreign-key summary and primary keys follow.
   */
  lemma EnrichAllSpec(tables: seq<TableInfo>, showColumns: string -> Result<seq<ColumnInfo>>,
                      isSqlServer: bool, query: string -> Result<Option<seq<Row>>>,
                      foreignKeyMap: map<string, seq<string>>)
    ensures var r := EnrichAll(tables, showColumns, isSqlServer, query, foreignKeyMap);
            (r.Err? <==> exists i :: 0 <= i < |tables| && showColumns(tables[i].name).Err?)
            && (r.Ok? ==> |r.value| == |tables|)
            && (r.Ok? ==> forall i :: 0 <= i < |tables| ==>
                  var columns := showColumns(tables[i].name).value;
                  r.value[i] == EnrichTable(tables[i], columns, TableEntry(isSqlServer, tables[i].name, columns, query), foreignKeyMap))
  {
    var f := EnrichStep(showColumns, isSqlServer, query, foreignKeyMap);
    MapResultShape(tables, f);
    assert forall i :: 0 <= i < |tables| ==> (f(tables[i]).Err? <==> showColumns(tables[i].name).Err?);
  }

  /** Enriching a list in consecutive parts gives the same tables as enriching it whole. */
  lemma EnrichAllAppend(a: seq<TableInfo>, b: seq<TableInfo>,
                        showColumns: string -> Result<seq<ColumnInfo>>,
                        isSqlServer: bool, query: string -> Result<Option<seq<Row>>>,
                        foreignKeyMap: map<string, seq<string>>)
    ensures var ra := EnrichAll(a, showColumns, isSqlServer, query, foreignKeyMap);
            var rb := EnrichAll(b, showColumns, isSqlServer, query, foreignKeyMap);
            var rab := EnrichAll(a + b, showColumns, isSqlServer, query, foreignKeyMap);
            (rab.Ok? <==> ra.Ok? && rb.Ok?) && (rab.Ok? ==> rab.value == ra.value + rb.value)
  {
    MapResultAppend(a, b, EnrichStep(showColumns, isSqlServer, query, foreignKeyMap));
  }

  lemma EnrichAllSingle(t: TableInfo, showColumns: string -> Result<seq<ColumnInfo>>,
                        isSqlServer: bool, query: string -> Result<Option<seq<Row>>>,
                        foreignKeyMap: map<string, seq<string>>, columns: seq<ColumnInfo>)
    requires showColumns(t.name) == Ok(columns)
    ensures EnrichAll([t], showColumns, isSqlServer, query, foreignKeyMap)
            == Ok([EnrichTable(t, columns, TableEntry(isSqlServer, t.name, columns, query), foreignKeyMap)])
  {
    var f := EnrichStep(showColumns, isSqlServer, query, foreignKeyMap);
    assert [t][1..] == [] && [t][0] == t;
    var e := EnrichTable(t, columns, TableEntry(isSqlServer, t.name, columns, query), foreignKeyMap);
    assert f(t) == Ok(e);
    assert [e] + [] == [e];
    assert MapResult([], f) == Ok([]);
  }

  /**
   * batchEnrichTableMetadata: fetch every table's columns, then the samples of every table, then
   * enrich the tables in order.
   */
  method BatchEnrichTableMetadata(tables: seq<TableInfo>, showColumns: string -> Result<seq<ColumnInfo>>,
                                  isSqlServer: bool, query: string -> Result<Option<seq<Row>>>,
                                  foreignKeyMap: map<string, seq<string>>)
    returns (r: Result<seq<TableInfo>>)
    ensures r == EnrichAll(tables, showColumns, isSqlServer, query, foreignKeyMap)
  {
    var columnsMap := FetchTableColumns(tables, showColumns);
    if columnsMap.Err? {
      var k :| 0 <= k < |tables| && showColumns(tables[k].name) == Err(columnsMap.error)
               && forall j :: 0 <= j < k ==> showColumns(tables[j].name).Ok?;
      var f := EnrichStep(showColumns, isSqlServer, query, foreignKeyMap);
      assert forall j :: 0 <= j < k ==> f(tables[j]).Ok?;
      MapResultFirstError(tables, f, k);
      return Err(columnsMap.error);
    }
    var tableColumns := columnsMap.value;
    var samples, _ := BatchGetSampleData(isSqlServer, tableColumns, query);
    var out: seq<TableInfo> := [];
    var i := 0;
    while i < |tables|
      invariant 0 <= i <= |tables|
      invariant EnrichAll(tables[..i], showColumns, isSqlServer, query, foreignKeyMap) == Ok(out)
    {
      var t := tables[i];
      assert t.name in tableColumns;
      var columns := tableColumns[t.name];
      var tableSamples := samples[t.name];
      out := out + [EnrichTable(t, columns, tableSamples, foreignKeyMap)];
      EnrichAllSingle(t, showColumns, isSqlServer, query, foreignKeyMap, columns);
      EnrichAllAppend(tables[..i], [t], showColumns, isSqlServer, query, foreignKeyMap);
      assert tables[..i + 1] == tables[..i] + [t];
      i := i + 1;
    }
    assert tables[..|tables|] == tables;
    return Ok(out);
  }
}
