/**
 * What the dialect DDL executors share: reading a raw result table whose row 0 is the header,
 * the quoted table list of an IN clause, Commons Lang BooleanUtils.toBoolean, and the
 * de-duplicated column samples.
 */
module JdbcResults {
  import opened Wrappers
  import opened JavaText
  import opened SchemaTypes
  import TableMetadata
  import SchemaService

  // ---------------------------------------------------------------- result tables

  /** The rows after the header that are not empty, in order. */
  function NonEmptyRows(rows: seq<seq<string>>): (r: seq<seq<string>>)
    ensures forall row :: row in r <==> row in rows && row != []
    ensures |r| <= |rows| && forall k :: 0 <= k < |r| ==> r[k] != []
    decreases |rows|
  {
    if |rows| == 0 then []
    else NonEmptyRows(rows[..|rows| - 1]) + (if rows[|rows| - 1] == [] then [] else [rows[|rows| - 1]])
  }

  /** The data rows of a result: nothing when there is at most the header row, else the non-empty rows after it. */
  function DataRows(arr: ResultTable): (r: seq<seq<string>>)
    ensures |arr| <= 1 ==> r == []
    ensures forall k :: 0 <= k < |r| ==> r[k] != []
    ensures |arr| >= 1 ==> forall row :: row in r <==> row in arr[1..] && row != []
  {
    if |arr| <= 1 then [] else NonEmptyRows(arr[1..])
  }

  /** The cell of a row, or "" beyond its end (reached only after the width check). */
  function Cell(row: seq<string>, k: nat): string
  {
    if k < |row| then row[k] else ""
  }

  /** One data row turned into a value: an ArrayIndexOutOfBoundsException when it has fewer than `width` cells. */
  function RowTo<T>(width: nat, f: seq<string> -> T): seq<string> -> Result<T>
  {
    row => if |row| < width then Err(IndexOutOfBounds) else Ok(f(row))
  }

  /** The list a DDL executor builds from a result: one value per data row, in row order. */
  function Convert<T>(arr: ResultTable, width: nat, f: seq<string> -> T): Result<seq<T>>
  {
    MapResult(DataRows(arr), RowTo(width, f))
  }

  /**
   * The conversion succeeds exactly when every data row has `width` cells, and then yields one
   * value per data row in order; its only failure is an index out of bounds.
   */
  lemma ConvertSpec<T>(arr: ResultTable, width: nat, f: seq<string> -> T)
    ensures var r := Convert(arr, width, f);
            var rows := DataRows(arr);
            (r.Ok? <==> forall i :: 0 <= i < |rows| ==> |rows[i]| >= width)
            && (r.Ok? ==> |r.value| == |rows| && forall i :: 0 <= i < |rows| ==> r.value[i] == f(rows[i]))
            && (r.Err? ==> r.error == IndexOutOfBounds)
  {
    var rows := DataRows(arr);
    MapResultShape(rows, RowTo(width, f));
    MapResultErrorOf(rows, RowTo(width, f));
  }

  /** At most the header row: an empty list. */
  lemma HeaderOnly<T>(arr: ResultTable, width: nat, f: seq<string> -> T)
    requires |arr| <= 1
    ensures Convert(arr, width, f) == Ok([])
  {
  }

  lemma NonEmptyRowsSnoc(rows: seq<seq<string>>, i: nat)
    requires i < |rows|
    ensures NonEmptyRows(rows[..i + 1]) == NonEmptyRows(rows[..i]) + (if rows[i] == [] then [] else [rows[i]])
  {
    assert rows[..i + 1][..i] == rows[..i];
  }

  /**
   * The loop of every DDL method: rows from 1 on, empty rows skipped, each other row converted
   * and appended; SQL exceptions of the query are rethrown as RuntimeException.
   */
  method ReadRows<T>(query: Result<ResultTable>, width: nat, f: seq<string> -> T) returns (r: Result<seq<T>>)
    ensures query.Err? ==> r == Err(Rethrown(query.error))
    ensures query.Ok? ==> r == Convert(query.value, width, f)
    ensures r == Listed(query, width, f)
  {
    if query.Err? {
      return Err(Rethrown(query.error));
    }
    var arr := query.value;
    if |arr| <= 1 {
      return Ok([]);
    }
    r := ConvertRows(arr[1..], width, f);
  }

  /** The loop itself, over the rows after the header. */
  method ConvertRows<T>(body: seq<seq<string>>, width: nat, f: seq<string> -> T) returns (r: Result<seq<T>>)
    ensures r == MapResult(NonEmptyRows(body), RowTo(width, f))
  {
    var out: seq<T> := [];
    var i := 0;
    while i < |body|
      invariant 0 <= i <= |body|
      invariant MapResult(NonEmptyRows(body[..i]), RowTo(width, f)) == Ok(out)
    {
      var row := body[i];
      if row == [] {
        ReadRowsSkip(body, i);
      } else if |row| < width {
        ReadRowsFails(body, i, width, f);
        return Err(IndexOutOfBounds);
      } else {
        ReadRowsStep(body, i, width, f, out);
        out := out + [f(row)];
      }
      i := i + 1;
    }
    assert body[..|body|] == body;
    return Ok(out);
  }

  lemma ReadRowsSkip(body: seq<seq<string>>, i: nat)
    requires i < |body| && body[i] == []
    ensures NonEmptyRows(body[..i + 1]) == NonEmptyRows(body[..i])
  {
    NonEmptyRowsSnoc(body, i);
    assert NonEmptyRows(body[..i]) + [] == NonEmptyRows(body[..i]);
  }

  lemma ReadRowsStep<T>(body: seq<seq<string>>, i: nat, width: nat, f: seq<string> -> T, out: seq<T>)
    requires i < |body| && body[i] != [] && |body[i]| >= width
    requires MapResult(NonEmptyRows(body[..i]), RowTo(width, f)) == Ok(out)
    ensures MapResult(NonEmptyRows(body[..i + 1]), RowTo(width, f)) == Ok(out + [f(body[i])])
  {
    var g := RowTo(width, f);
    NonEmptyRowsSnoc(body, i);
    MapResultAppend(NonEmptyRows(body[..i]), [body[i]], g);
    assert g(body[i]) == Ok(f(body[i]));
    assert [body[i]][1..] == [];
    assert MapResult([body[i]][1..], g) == Ok([]);
    assert [f(body[i])] + [] == [f(body[i])];
    assert MapResult([body[i]], g) == Ok([f(body[i])]);
  }

  lemma ReadRowsFails<T>(body: seq<seq<string>>, i: nat, width: nat, f: seq<string> -> T)
    requires i < |body| && body[i] != [] && |body[i]| < width
    ensures MapResult(NonEmptyRows(body), RowTo(width, f)) == Err(IndexOutOfBounds)
  {
    var g := RowTo(width, f);
    NonEmptyRowsSnoc(body, i);
    MapResultAppend(NonEmptyRows(body[..i]), [body[i]], g);
    MapResultAppend(NonEmptyRows(body[..i + 1]), NonEmptyRows(body[i + 1..]), g);
    assert body == body[..i + 1] + body[i + 1..];
    NonEmptyRowsAppend(body[..i + 1], body[i + 1..]);
    MapResultErrorOf(NonEmptyRows(body), g);
  }

  lemma {:induction false} NonEmptyRowsAppend(a: seq<seq<string>>, b: seq<seq<string>>)
    ensures NonEmptyRows(a + b) == NonEmptyRows(a) + NonEmptyRows(b)
    decreases |b|
  {
    if |b| == 0 {
      assert a + b == a;
    } else {
      var b' := b[..|b| - 1];
      NonEmptyRowsAppend(a, b');
      assert (a + b)[..|a + b| - 1] == a + b';
    }
  }

  /** A DDL listing: the rethrown exception of a failed query, else the converted data rows. */
  function Listed<T>(query: Result<ResultTable>, width: nat, f: seq<string> -> T): Result<seq<T>>
  {
    if query.Err? then Err(Rethrown(query.error)) else Convert(query.value, width, f)
  }

  /** `throw new RuntimeException(e)` for an SQLException; anything else passes unchanged. */
  function Rethrown(e: JavaError): (r: JavaError)
    ensures e.SqlError? ==> r == WrappedSql(e.sqlState)
    ensures !e.SqlError? ==> r == e
  {
    if e.SqlError? then WrappedSql(e.sqlState) else e
  }

  /** A query whose SQLException is rethrown as RuntimeException and whose result is passed on unchanged. */
  function Rethrow<R>(q: Result<R>): (r: Result<R>)
    ensures r.Ok? <==> q.Ok?
    ensures q.Ok? ==> r == q
    ensures q.Err? ==> r.error == Rethrown(q.error)
  {
    if q.Err? then Err(Rethrown(q.error)) else q
  }

  // ---------------------------------------------------------------- IN lists

  function Quote(name: string): string
  {
    "'" + name + "'"
  }

  /** The names quoted with single quotes. */
  function QuotedNames(tables: seq<string>): (r: seq<string>)
    ensures |r| == |tables| && forall i :: 0 <= i < |tables| ==> r[i] == Quote(tables[i])
    decreases |tables|
  {
    if |tables| == 0 then [] else [Quote(tables[0])] + QuotedNames(tables[1..])
  }

  /** `String.join(", ", tables.map(x -> "'" + x + "'"))` */
  function QuotedList(tables: seq<string>): string
  {
    Join(QuotedNames(tables), ", ")
  }

  /** The pieces of a quoted list between commas: the first quoted name, then " " and each following quoted name. */
  function ListPieces(tables: seq<string>): (r: seq<string>)
    requires |tables| >= 1
    ensures |r| == |tables|
    ensures r[0] == Quote(tables[0])
    ensures forall i :: 1 <= i < |tables| ==> r[i] == " " + Quote(tables[i])
  {
    [Quote(tables[0])] + seq(|tables| - 1, i requires 0 <= i < |tables| - 1 => " " + Quote(tables[i + 1]))
  }

  /** A piece of the list read back: the optional leading blank and the quotes removed. */
  function Unquote(piece: string): string
  {
    var p := if |piece| > 0 && piece[0] == ' ' then piece[1..] else piece;
    if |p| >= 2 then p[1..|p| - 1] else p
  }

  lemma {:induction false} QuotedListPieces(tables: seq<string>)
    requires |tables| >= 1
    ensures QuotedList(tables) == Join(ListPieces(tables), [','])
    decreases |tables|
  {
    if |tables| >= 2 {
      var rest := tables[1..];
      QuotedListPieces(rest);
      var p := ListPieces(tables);
      var q := ListPieces(rest);
      assert QuotedNames(tables)[1..] == QuotedNames(rest);
      assert p[1..][0] == " " + q[0];
      if |rest| >= 2 {
        assert p[1..][1..] == q[1..];
        assert Join(p[1..], [',']) == " " + q[0] + [','] + Join(q[1..], [',']);
        assert Join(q, [',']) == q[0] + [','] + Join(q[1..], [',']);
      } else {
        assert p[1..] == [" " + q[0]];
      }
      assert Join(p[1..], [',']) == " " + Join(q, [',']);
    }
  }

  /**
   * When no table name contains a comma, the IN list splits on commas back into the quoted
   * names, and unquoting each piece gives the names back in order.
   */
  lemma QuotedListRoundTrip(tables: seq<string>)
    requires |tables| >= 1
    requires forall i :: 0 <= i < |tables| ==> ',' !in tables[i]
    ensures var pieces := Pieces(QuotedList(tables), ',');
            |pieces| == |tables| && forall i :: 0 <= i < |tables| ==> Unquote(pieces[i]) == tables[i]
  {
    QuotedListPieces(tables);
    var p := ListPieces(tables);
    forall i | 0 <= i < |p| ensures ',' !in p[i] {
      assert ',' !in Quote(tables[i]);
    }
    PiecesOfJoin(p, ',');
    forall i | 0 <= i < |tables| ensures Unquote(p[i]) == tables[i] {
      var t := Quote(tables[i]);
      assert t[1..|t| - 1] == tables[i];
      if i > 0 {
        assert (" " + t)[1..] == t;
      }
    }
  }

  // ---------------------------------------------------------------- booleans and samples

  /** BooleanUtils.toBoolean(String): "true", "on", "yes", "y" and "t", ignoring case. */
  predicate ToBoolean(s: string)
  {
    var l := ToLower(s);
    l == "true" || l == "on" || l == "yes" || l == "y" || l == "t"
  }

  /** The values sampleColumn collects before de-duplication: first cells of the data rows, minus the header-like ones. */
  function SampleValues(arr: ResultTable, column: string): (r: seq<string>)
    ensures forall v :: v in r <==> exists row :: row in DataRows(arr) && row[0] == v && !EqualsIgnoreCase(column, v)
  {
    var rows := DataRows(arr);
    FirstCells(rows, column)
  }

  function FirstCells(rows: seq<seq<string>>, column: string): (r: seq<string>)
    requires forall k :: 0 <= k < |rows| ==> rows[k] != []
    ensures forall v :: v in r <==> exists row :: row in rows && row[0] == v && !EqualsIgnoreCase(column, v)
    decreases |rows|
  {
    if |rows| == 0 then []
    else
      assert forall row :: row in rows <==> row in rows[..|rows| - 1] || row == rows[|rows| - 1];
      var init := FirstCells(rows[..|rows| - 1], column);
      var v := rows[|rows| - 1][0];
      init + (if EqualsIgnoreCase(column, v) then [] else [v])
  }

  /**
   * sampleColumn's result: the collected values through a HashSet, so each once and in no
   * particular order; a query that fails with an SQLException gives an empty list, while any
   * other exception propagates.
   */
  method SampleColumn(query: Result<ResultTable>, column: string) returns (r: Result<seq<string>>)
    ensures query.Err? && query.error.SqlError? ==> r == Ok([])
    ensures query.Err? && !query.error.SqlError? ==> r == Err(query.error)
    ensures query.Ok? ==> r.Ok? && forall v :: v in r.value <==> v in SampleValues(query.value, column)
    ensures r.Ok? ==> TableMetadata.NoDuplicates(r.value)
  {
    if query.Err? {
      if query.error.SqlError? {
        return Ok([]);
      }
      return Err(query.error);
    }
    var values := SampleValues(query.value, column);
    var list := SchemaService.ListOfSet(set v | v in values);
    r := Ok(list);
  }
}
