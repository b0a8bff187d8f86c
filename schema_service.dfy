/**
 * SchemaServiceImpl: the foreign-key map written at schema initialisation, and the assembly of a
 * recalled schema from table and column documents, with the foreign-key closure over tables
 * the recall missed.
 *
 * The vector-store lookups are oracles: `fetchTables(names, topK)` and `fetchColumns(names, topK)`
 * stand for getTableDocuments and getColumnDocumentsByTableName.
 */
module SchemaService {
  import opened Wrappers
  import opened JavaText
  import opened Documents
  import opened SchemaTypes
  import JsonStrings
  import TableMetadata

  // ---------------------------------------------------------------- foreign-key map

  /** The key string of a foreign key: "table.column=referencedTable.referencedColumn". */
  function FkKey(fk: ForeignKeyInfo): string
  {
    fk.table + "." + fk.column + "=" + fk.referencedTable + "." + fk.referencedColumn
  }

  /**
   * The keys buildForeignKeyMap files under table `t`: each foreign key's key once for its own
   * table and once for its referenced table, in foreign-key order.
   */
  function KeysFor(fks: seq<ForeignKeyInfo>, t: string): seq<string>
    decreases |fks|
  {
    if |fks| == 0 then []
    else
      var fk := fks[|fks| - 1];
      KeysFor(fks[..|fks| - 1], t)
      + (if fk.table == t then [FkKey(fk)] else [])
      + (if fk.referencedTable == t then [FkKey(fk)] else [])
  }

  lemma KeysForStep(fks: seq<ForeignKeyInfo>, i: nat, t: string)
    requires i < |fks|
    ensures KeysFor(fks[..i + 1], t) == KeysFor(fks[..i], t)
              + (if fks[i].table == t then [FkKey(fks[i])] else [])
              + (if fks[i].referencedTable == t then [FkKey(fks[i])] else [])
  {
    assert fks[..i + 1][..i] == fks[..i];
  }

  /** buildForeignKeyMap: computeIfAbsent(table).add(key), then computeIfAbsent(referencedTable).add(key). */
  method BuildForeignKeyMap(fks: seq<ForeignKeyInfo>) returns (m: map<string, seq<string>>)
    ensures forall t :: t in m <==> KeysFor(fks, t) != []
    ensures forall t :: t in m ==> m[t] == KeysFor(fks, t)
    ensures m == ForeignKeyMap(fks)
  {
    m := map[];
    var i := 0;
    while i < |fks|
      invariant 0 <= i <= |fks|
      invariant forall t :: t in m ==> m[t] != []
      invariant forall t :: TableMetadata.GetOrEmpty(m, t) == KeysFor(fks[..i], t)
    {
      var fk := fks[i];
      var key := FkKey(fk);
      var m1 := m[fk.table := TableMetadata.GetOrEmpty(m, fk.table) + [key]];
      var m2 := m1[fk.referencedTable := TableMetadata.GetOrEmpty(m1, fk.referencedTable) + [key]];
      MapStep(m, m1, m2, fks, i);
      m := m2;
      i := i + 1;
    }
    assert fks[..|fks|] == fks;
    ForeignKeyMapSpec(fks);
  }

  /** The tables some foreign key starts or ends at. */
  function LinkedTables(fks: seq<ForeignKeyInfo>): set<string>
  {
    (set fk | fk in fks :: fk.table) + (set fk | fk in fks :: fk.referencedTable)
  }

  /** The foreign-key map as a value: every linked table with its keys. */
  function ForeignKeyMap(fks: seq<ForeignKeyInfo>): map<string, seq<string>>
  {
    map t | t in LinkedTables(fks) :: KeysFor(fks, t)
  }

  lemma ForeignKeyMapSpec(fks: seq<ForeignKeyInfo>)
    ensures forall t :: t in ForeignKeyMap(fks) <==> KeysFor(fks, t) != []
  {
    forall t ensures t in ForeignKeyMap(fks) <==> KeysFor(fks, t) != [] {
      KeysForSpec(fks, t);
      if KeysFor(fks, t) != [] {
        var i :| 0 <= i < |fks| && (fks[i].table == t || fks[i].referencedTable == t);
        assert fks[i] in fks;
      }
      if t in LinkedTables(fks) {
        var fk :| fk in fks && (fk.table == t || fk.referencedTable == t);
        var i :| 0 <= i < |fks| && fks[i] == fk;
      }
    }
  }

  lemma MapStep(m: map<string, seq<string>>, m1: map<string, seq<string>>, m2: map<string, seq<string>>,
                fks: seq<ForeignKeyInfo>, i: nat)
    requires i < |fks|
    requires forall t :: TableMetadata.GetOrEmpty(m, t) == KeysFor(fks[..i], t)
    requires m1 == m[fks[i].table := TableMetadata.GetOrEmpty(m, fks[i].table) + [FkKey(fks[i])]]
    requires m2 == m1[fks[i].referencedTable := TableMetadata.GetOrEmpty(m1, fks[i].referencedTable) + [FkKey(fks[i])]]
    ensures forall t :: TableMetadata.GetOrEmpty(m2, t) == KeysFor(fks[..i + 1], t)
  {
    var fk := fks[i];
    var key := FkKey(fk);
    forall t ensures TableMetadata.GetOrEmpty(m2, t) == KeysFor(fks[..i + 1], t) {
      KeysForStep(fks, i, t);
      var k := KeysFor(fks[..i], t);
      var a := if fk.table == t then [key] else [];
      var b := if fk.referencedTable == t then [key] else [];
      assert TableMetadata.GetOrEmpty(m1, t) == k + a;
      assert TableMetadata.GetOrEmpty(m2, t) == (k + a) + b;
    }
  }

  /**
   * Every foreign key's key is filed under both its table and its referenced table, and a table
   * has an entry exactly when some foreign key starts or ends at it.
   */
  lemma {:induction false} KeysForSpec(fks: seq<ForeignKeyInfo>, t: string)
    ensures forall i :: 0 <= i < |fks| && (fks[i].table == t || fks[i].referencedTable == t) ==>
              FkKey(fks[i]) in KeysFor(fks, t)
    ensures KeysFor(fks, t) != [] <==> exists i :: 0 <= i < |fks| && (fks[i].table == t || fks[i].referencedTable == t)
    ensures forall k :: k in KeysFor(fks, t) ==>
              exists i :: 0 <= i < |fks| && k == FkKey(fks[i]) && (fks[i].table == t || fks[i].referencedTable == t)
    decreases |fks|
  {
    KeysForHas(fks, t);
    KeysForOnly(fks, t);
    if exists i :: 0 <= i < |fks| && (fks[i].table == t || fks[i].referencedTable == t) {
      var i :| 0 <= i < |fks| && (fks[i].table == t || fks[i].referencedTable == t);
      assert FkKey(fks[i]) in KeysFor(fks, t);
    }
    if KeysFor(fks, t) != [] {
      assert KeysFor(fks, t)[0] in KeysFor(fks, t);
    }
  }

  lemma {:induction false} KeysForHas(fks: seq<ForeignKeyInfo>, t: string)
    ensures forall i :: 0 <= i < |fks| && (fks[i].table == t || fks[i].referencedTable == t) ==>
              FkKey(fks[i]) in KeysFor(fks, t)
    decreases |fks|
  {
    if |fks| > 0 {
      var init := fks[..|fks| - 1];
      KeysForHas(init, t);
      forall i | 0 <= i < |init| ensures init[i] == fks[i] {}
    }
  }

  lemma {:induction false} KeysForOnly(fks: seq<ForeignKeyInfo>, t: string)
    ensures forall k :: k in KeysFor(fks, t) ==>
              exists i :: 0 <= i < |fks| && k == FkKey(fks[i]) && (fks[i].table == t || fks[i].referencedTable == t)
    decreases |fks|
  {
    if |fks| > 0 {
      var init := fks[..|fks| - 1];
      KeysForOnly(init, t);
      forall i | 0 <= i < |init| ensures init[i] == fks[i] {}
    }
  }

  /** A self-referencing foreign key is filed twice under its table. */
  lemma SelfReferenceTwice(fk: ForeignKeyInfo)
    requires fk.table == fk.referencedTable
    ensures KeysFor([fk], fk.table) == [FkKey(fk), FkKey(fk)]
  {
    assert [fk][..0] == [];
  }

  // ---------------------------------------------------------------- related names and missing tables

  /** One "left=right" pair of a foreign-key summary: both sides trimmed, or nothing unless there are exactly two parts. */
  function PairNames(pair: string): (r: set<string>)
    ensures |Split(pair, '=')| != 2 ==> r == {}
    ensures |Split(pair, '=')| == 2 ==> r == {Trim(Split(pair, '=')[0]), Trim(Split(pair, '=')[1])}
  {
    var parts := Split(pair, '=');
    if |parts| == 2 then {Trim(parts[0]), Trim(parts[1])} else {}
  }

  function PairsNames(pairs: seq<string>): set<string>
    decreases |pairs|
  {
    if |pairs| == 0 then {} else PairNames(pairs[0]) + PairsNames(pairs[1..])
  }

  /** The names a table document's foreign-key summary mentions; a blank summary mentions none. */
  function SummaryNames(summary: string): set<string>
  {
    if HasText(summary) then PairsNames(Split(summary, '、')) else {}
  }

  /** `(String) metadata.getOrDefault("foreignKey", "")` */
  function ForeignKeySummary(doc: Document): string
  {
    MetaStrOr(doc.metadata, "foreignKey", "")
  }

  /** extractRelatedNamesFromForeignKeys: every "table.column" named by a recalled table's foreign keys. */
  function RelatedNames(tableDocs: seq<Document>): set<string>
    decreases |tableDocs|
  {
    if |tableDocs| == 0 then {} else SummaryNames(ForeignKeySummary(tableDocs[0])) + RelatedNames(tableDocs[1..])
  }

  /** The names of the recalled tables; a document without a name contributes null. */
  function RecalledNames(tableDocs: seq<Document>): set<Option<string>>
  {
    set d | d in tableDocs :: MetaStr(d.metadata, "name")
  }

  /**
   * getMissingTableNamesWithForeignKeySet: the table part of every related "table.column" (a name
   * that splits on "." into exactly two parts) whose table was not recalled.
   */
  function MissingTables(tableDocs: seq<Document>, related: set<string>): (r: set<string>)
    ensures forall t :: t in r ==> Some(t) !in RecalledNames(tableDocs)
    ensures forall k :: k in related && |Split(k, '.')| == 2 && Some(Split(k, '.')[0]) !in RecalledNames(tableDocs) ==>
              Split(k, '.')[0] in r
    ensures forall t :: t in r ==> exists k :: k in related && |Split(k, '.')| == 2 && Split(k, '.')[0] == t
  {
    var recalled := RecalledNames(tableDocs);
    set k | k in related && |Split(k, '.')| == 2 && Some(Split(k, '.')[0]) !in recalled :: Split(k, '.')[0]
  }

  /** A table name and a column name as the schema stores them: non-empty, no separators, nothing to trim. */
  predicate PlainName(s: string)
  {
    |s| > 0 && s[0] > ' ' && s[|s| - 1] > ' ' && !IsWhitespace(s[0]) && '.' !in s && '=' !in s && '、' !in s
  }

  predicate PlainForeignKey(fk: ForeignKeyInfo)
  {
    PlainName(fk.table) && PlainName(fk.column) && PlainName(fk.referencedTable) && PlainName(fk.referencedColumn)
  }

  /** Both ends of every foreign key, as "table.column". */
  function Ends(fks: seq<ForeignKeyInfo>): set<string>
  {
    (set fk | fk in fks :: fk.table + "." + fk.column) + (set fk | fk in fks :: fk.referencedTable + "." + fk.referencedColumn)
  }

  lemma EndsCons(fks: seq<ForeignKeyInfo>)
    requires |fks| > 0
    ensures Ends(fks) == {fks[0].table + "." + fks[0].column, fks[0].referencedTable + "." + fks[0].referencedColumn} + Ends(fks[1..])
  {
    assert forall fk :: fk in fks <==> fk == fks[0] || fk in fks[1..];
  }

  /** The keys of a list of foreign keys, in order. */
  function FkKeys(fks: seq<ForeignKeyInfo>): (r: seq<string>)
    ensures |r| == |fks| && forall i :: 0 <= i < |fks| ==> r[i] == FkKey(fks[i])
    decreases |fks|
  {
    if |fks| == 0 then [] else [FkKey(fks[0])] + FkKeys(fks[1..])
  }

  lemma PlainEnd(t: string, c: string)
    requires PlainName(t) && PlainName(c)
    ensures '=' !in t + "." + c && '、' !in t + "." + c
    ensures Trim(t + "." + c) == t + "." + c
  {
    var e := t + "." + c;
    assert e[0] == t[0] && e[|e| - 1] == c[|c| - 1];
    TrimUntouched(e);
  }

  lemma FkKeySplits(fk: ForeignKeyInfo)
    requires PlainForeignKey(fk)
    ensures '、' !in FkKey(fk)
    ensures PairNames(FkKey(fk)) == {fk.table + "." + fk.column, fk.referencedTable + "." + fk.referencedColumn}
  {
    var left := fk.table + "." + fk.column;
    var right := fk.referencedTable + "." + fk.referencedColumn;
    PlainEnd(fk.table, fk.column);
    PlainEnd(fk.referencedTable, fk.referencedColumn);
    assert [right][1..] == [];
    assert FkKey(fk) == Join([left, right], ['=']);
    SplitOfJoin([left, right], '=');
  }

  lemma {:induction false} PairsNamesOfKeys(fks: seq<ForeignKeyInfo>)
    requires forall i :: 0 <= i < |fks| ==> PlainForeignKey(fks[i])
    ensures PairsNames(FkKeys(fks)) == Ends(fks)
    decreases |fks|
  {
    if |fks| > 0 {
      PairsNamesOfKeys(fks[1..]);
      FkKeySplits(fks[0]);
      EndsCons(fks);
      assert FkKeys(fks)[1..] == FkKeys(fks[1..]);
    }
  }

  /**
   * The foreign-key summary written by setTableForeignKeys (the keys joined with "、") reads back,
   * through extractRelatedNamesFromForeignKeys' parsing, as exactly the ends of those foreign keys.
   */
  lemma SummaryRoundTrip(fks: seq<ForeignKeyInfo>)
    requires |fks| > 0
    requires forall i :: 0 <= i < |fks| ==> PlainForeignKey(fks[i])
    ensures SummaryNames(Join(FkKeys(fks), TableMetadata.FK_SEPARATOR)) == Ends(fks)
  {
    var keys := FkKeys(fks);
    forall i | 0 <= i < |fks| ensures '、' !in keys[i] {
      FkKeySplits(fks[i]);
    }
    assert TableMetadata.FK_SEPARATOR == ['、'];
    assert keys[|keys| - 1] != "";
    SplitOfJoin(keys, '、');
    var summary := Join(keys, TableMetadata.FK_SEPARATOR);
    JoinStartsWithFirst(keys, TableMetadata.FK_SEPARATOR);
    assert summary[0] == fks[0].table[0];
    assert HasText(summary);
    PairsNamesOfKeys(fks);
  }

  lemma {:induction false} JoinStartsWithFirst(parts: seq<string>, sep: string)
    requires |parts| > 0 && |parts[0]| > 0
    ensures |Join(parts, sep)| > 0 && Join(parts, sep)[0] == parts[0][0]
  {
  }

  // ---------------------------------------------------------------- adding recalled documents

  function Ids(docs: seq<Document>): set<string>
  {
    set d | d in docs :: d.id
  }

  /** The documents of `docs` whose id is not in `ids`, in order. */
  function NewOnly(ids: set<string>, docs: seq<Document>): (r: seq<Document>)
    ensures forall d :: d in r <==> d in docs && d.id !in ids
    ensures |r| <= |docs|
    decreases |docs|
  {
    if |docs| == 0 then []
    else (if docs[0].id in ids then [] else [docs[0]]) + NewOnly(ids, docs[1..])
  }

  /**
   * addUniqueDocuments: the new documents whose id is not already present are appended in
   * order; the existing documents stay first and unchanged. Only ids present before the call
   * are checked, so two new documents with the same id are both appended.
   */
  function AddUniqueDocuments(existing: seq<Document>, newDocs: seq<Document>): (r: seq<Document>)
    ensures |r| >= |existing| && r[..|existing|] == existing
    ensures forall d :: d in r[|existing|..] <==> d in newDocs && d.id !in Ids(existing)
  {
    existing + NewOnly(Ids(existing), newDocs)
  }

  /** Two new documents sharing an id that was not present are both kept. */
  lemma AddUniqueKeepsRepeatedNewIds(existing: seq<Document>, d1: Document, d2: Document)
    requires d1.id == d2.id && d1.id !in Ids(existing)
    ensures AddUniqueDocuments(existing, [d1, d2]) == existing + [d1, d2]
  {
    assert [d1, d2][1..] == [d2];
    assert [d2][1..] == [];
  }

  // ---------------------------------------------------------------- building the table list

  /** A table's primary keys from its document: a list is kept, a non-blank string becomes a one-element list. */
  function PrimaryKeysOf(meta: Metadata): (r: Option<seq<string>>)
    ensures "primaryKey" in meta && meta["primaryKey"].MList? ==> r == Some(meta["primaryKey"].items)
    ensures "primaryKey" in meta && meta["primaryKey"].MStr? && HasText(meta["primaryKey"].s) ==> r == Some([meta["primaryKey"].s])
    ensures "primaryKey" in meta && meta["primaryKey"].MStr? && IsBlank(meta["primaryKey"].s) ==> r.None?
    ensures "primaryKey" !in meta ==> r.None?
  {
    if "primaryKey" !in meta then None
    else
      match meta["primaryKey"]
      case MList(items) => Some(items)
      case MStr(s) => if HasText(s) then Some([s]) else None
      case _ => None
  }

  /** The TableDTO made from one table document: no columns yet. */
  function TableOf(doc: Document): (t: TableDTO)
    ensures t.name == MetaStr(doc.metadata, "name") && t.description == MetaStr(doc.metadata, "description")
    ensures t.column == [] && t.primaryKeys == PrimaryKeysOf(doc.metadata)
  {
    TableDTO(MetaStr(doc.metadata, "name"), MetaStr(doc.metadata, "description"), [], PrimaryKeysOf(doc.metadata))
  }

  /** buildTableListFromDocuments: one TableDTO per document, in document order. */
  method BuildTableList(docs: seq<Document>) returns (tables: seq<TableDTO>)
    ensures |tables| == |docs|
    ensures forall i :: 0 <= i < |docs| ==> tables[i] == TableOf(docs[i])
  {
    tables := [];
    for i := 0 to |docs|
      invariant |tables| == i
      invariant forall k :: 0 <= k < i ==> tables[k] == TableOf(docs[k])
    {
      tables := tables + [TableOf(docs[i])];
    }
  }

  // ---------------------------------------------------------------- attaching columns

  /** The ColumnDTO of a column document; samples that are blank or do not parse leave the data unset. */
  function ColumnOf(doc: Document): (c: ColumnDTO)
    ensures c.name == MetaStr(doc.metadata, "name") && c.columnType == MetaStr(doc.metadata, "type")
    ensures c.data.Some? ==> MetaStr(doc.metadata, "samples").Some?
                             && JsonStrings.DecodeList(MetaStr(doc.metadata, "samples").value) == c.data
  {
    var samples := MetaStr(doc.metadata, "samples");
    var data := if samples.Some? && HasText(samples.value) then JsonStrings.DecodeList(samples.value) else None;
    ColumnDTO(MetaStr(doc.metadata, "name"), MetaStr(doc.metadata, "description"), MetaStr(doc.metadata, "type"), data)
  }

  /**
   * `tableList.stream().filter(t -> t.getName().equals(tableName)).findFirst()`: the index of the
   * first table with that name; a table without a name reached before any match throws.
   */
  function FirstMatch(tables: seq<TableDTO>, name: Option<string>, from: nat): (r: Result<Option<nat>>)
    requires from <= |tables|
    ensures r.Ok? && r.value.Some? ==> from <= r.value.value < |tables| && tables[r.value.value].name == name
    ensures r.Ok? && r.value.Some? ==> forall k :: from <= k < r.value.value ==> tables[k].name.Some? && tables[k].name != name
    ensures r.Ok? && r.value.None? ==> forall k :: from <= k < |tables| ==> tables[k].name.Some? && tables[k].name != name
    ensures r.Err? ==> r.error == NullPointer
                       && exists k :: from <= k < |tables| && tables[k].name.None?
                                      && forall j :: from <= j < k ==> tables[j].name != name
    decreases |tables| - from
  {
    if from == |tables| then Ok(None)
    else if tables[from].name.None? then Err(NullPointer)
    else if tables[from].name == name then Ok(Some(from))
    else FirstMatch(tables, name, from + 1)
  }

  /** The table a column document belongs to, as FirstMatch finds it. */
  function MatchOf(tables: seq<TableDTO>, doc: Document): Result<Option<nat>>
  {
    FirstMatch(tables, MetaStr(doc.metadata, "tableName"), 0)
  }

  /** The columns attached to table `i`, in column-document order. */
  function AttachedTo(columns: seq<Document>, tables: seq<TableDTO>, i: nat): seq<ColumnDTO>
    decreases |columns|
  {
    if |columns| == 0 then []
    else
      var c := columns[|columns| - 1];
      AttachedTo(columns[..|columns| - 1], tables, i) + (if MatchOf(tables, c) == Ok(Some(i)) then [ColumnOf(c)] else [])
  }

  /**
   * What attachColumnsToTables leaves: every table with the columns that found it appended, or a
   * NullPointerException when some column's search meets a table without a name first.
   */
  function Attached(columns: seq<Document>, tables: seq<TableDTO>): (r: Result<seq<TableDTO>>)
  {
    if exists k :: 0 <= k < |columns| && MatchOf(tables, columns[k]).Err? then Err(NullPointer)
    else Ok(WithColumns(columns, tables))
  }

  /** Every table with the columns that found it appended. */
  function WithColumns(columns: seq<Document>, tables: seq<TableDTO>): (r: seq<TableDTO>)
    ensures |r| == |tables|
  {
    seq(|tables|, i requires 0 <= i < |tables| => tables[i].(column := tables[i].column + AttachedTo(columns, tables, i)))
  }

  /**
   * A column lands in a table exactly when that table is the first one with the column's table
   * name; a column whose table name matches no table is dropped.
   */
  lemma {:induction false} AttachedToSpec(columns: seq<Document>, tables: seq<TableDTO>, i: nat)
    ensures forall k :: 0 <= k < |columns| && MatchOf(tables, columns[k]) == Ok(Some(i)) ==>
              ColumnOf(columns[k]) in AttachedTo(columns, tables, i)
    ensures forall c :: c in AttachedTo(columns, tables, i) ==>
              exists k :: 0 <= k < |columns| && c == ColumnOf(columns[k]) && MatchOf(tables, columns[k]) == Ok(Some(i))
    decreases |columns|
  {
    if |columns| > 0 {
      var init := columns[..|columns| - 1];
      AttachedToSpec(init, tables, i);
      forall k | 0 <= k < |init| ensures init[k] == columns[k] {}
      forall c | c in AttachedTo(columns, tables, i)
        ensures exists k :: 0 <= k < |columns| && c == ColumnOf(columns[k]) && MatchOf(tables, columns[k]) == Ok(Some(i))
      {
        if c in AttachedTo(init, tables, i) {
          var k :| 0 <= k < |init| && c == ColumnOf(init[k]) && MatchOf(tables, init[k]) == Ok(Some(i));
          assert columns[k] == init[k];
        } else {
          assert c == ColumnOf(columns[|columns| - 1]);
        }
      }
    }
  }

  lemma AttachedToStep(columns: seq<Document>, tables: seq<TableDTO>, n: nat, i: nat)
    requires n < |columns|
    ensures AttachedTo(columns[..n + 1], tables, i) == AttachedTo(columns[..n], tables, i)
              + (if MatchOf(tables, columns[n]) == Ok(Some(i)) then [ColumnOf(columns[n])] else [])
  {
    assert columns[..n + 1][..n] == columns[..n];
  }

  /** One more column document, found in table `found` (or in none), extends every table's list accordingly. */
  lemma AttachStep(columns: seq<Document>, tables: seq<TableDTO>, n: nat, out: seq<TableDTO>, found: Option<nat>)
    requires n < |columns| && MatchOf(tables, columns[n]) == Ok(found)
    requires out == WithColumns(columns[..n], tables)
    requires found.Some? ==> found.value < |tables|
    ensures found.None? ==> out == WithColumns(columns[..n + 1], tables)
    ensures found.Some? ==> out[found.value := out[found.value].(column := out[found.value].column + [ColumnOf(columns[n])])]
                            == WithColumns(columns[..n + 1], tables)
  {
    forall i | 0 <= i < |tables|
      ensures AttachedTo(columns[..n + 1], tables, i) == AttachedTo(columns[..n], tables, i)
              + (if found == Some(i) then [ColumnOf(columns[n])] else [])
    {
      AttachedToStep(columns, tables, n, i);
    }
    var next := WithColumns(columns[..n + 1], tables);
    if found.None? {
      assert forall i :: 0 <= i < |tables| ==> next[i] == out[i];
    } else {
      var j := found.value;
      var updated := out[j := out[j].(column := out[j].column + [ColumnOf(columns[n])])];
      assert forall i :: 0 <= i < |tables| ==> next[i] == updated[i];
    }
  }

  lemma NoColumnsAttached(tables: seq<TableDTO>)
    ensures WithColumns([], tables) == tables
  {
    assert forall i :: 0 <= i < |tables| ==> WithColumns([], tables)[i] == tables[i];
  }

  /** attachColumnsToTables: each column document is appended to the first table of its name. */
  method AttachColumns(columns: seq<Document>, tables: seq<TableDTO>) returns (r: Result<seq<TableDTO>>)
    ensures r == Attached(columns, tables)
  {
    var out := tables;
    assert columns[..0] == [];
    NoColumnsAttached(tables);
    var n := 0;
    while n < |columns|
      invariant 0 <= n <= |columns|
      invariant forall k :: 0 <= k < n ==> MatchOf(tables, columns[k]).Ok?
      invariant out == WithColumns(columns[..n], tables)
    {
      var doc := columns[n];
      var column := ColumnOf(doc);
      var found := MatchOf(tables, doc);
      if found.Err? {
        return Err(NullPointer);
      }
      AttachStep(columns, tables, n, out, found.value);
      if found.value.Some? {
        var i := found.value.value;
        out := out[i := out[i].(column := out[i].column + [column])];
      }
      n := n + 1;
    }
    assert columns[..|columns|] == columns;
    return Ok(out);
  }

  // ---------------------------------------------------------------- assembling the schema

  /** The non-blank pieces of every recalled table's foreign-key summary. */
  function ForeignKeySet(tableDocs: seq<Document>): set<string>
  {
    set d, p | d in tableDocs && p in Split(ForeignKeySummary(d), '、') && HasText(p) :: p
  }

  /** The topK of the table lookup: one per missing table plus five. */
  function TableTopK(missing: set<string>): int
  {
    |missing| + 5
  }

  /** The topK of the column lookup: the maximum column count for every missing table. */
  function ColumnTopK(missing: set<string>, maxColumnsPerTable: int): int
  {
    |missing| * maxColumnsPerTable
  }

  /** The table documents after the closure: the recalled ones, then the newly found missing tables. */
  function ClosedTables(tableDocs: seq<Document>, fetchTables: (set<string>, int) -> seq<Document>): seq<Document>
  {
    var missing := MissingTables(tableDocs, RelatedNames(tableDocs));
    if missing == {} then tableDocs else AddUniqueDocuments(tableDocs, fetchTables(missing, TableTopK(missing)))
  }

  /** The column documents after the closure: the recalled ones, then the columns of the missing tables. */
  function ClosedColumns(tableDocs: seq<Document>, columnDocs: seq<Document>,
                         fetchColumns: (set<string>, int) -> seq<Document>, maxColumnsPerTable: int): seq<Document>
  {
    var missing := MissingTables(tableDocs, RelatedNames(tableDocs));
    if missing == {} then columnDocs
    else AddUniqueDocuments(columnDocs, fetchColumns(missing, ColumnTopK(missing, maxColumnsPerTable)))
  }

  /** `new ArrayList<>(set)`: the elements of a set in some order, each once. */
  method ListOfSet(s: set<string>) returns (r: seq<string>)
    ensures forall x :: x in r <==> x in s
    ensures |r| == |s|
    ensures TableMetadata.NoDuplicates(r)
  {
    r := [];
    var rest := s;
    while rest != {}
      invariant rest <= s
      invariant forall x :: x in r <==> x in s && x !in rest
      invariant |r| + |rest| == |s|
      invariant TableMetadata.NoDuplicates(r)
      decreases |rest|
    {
      var x :| x in rest;
      r := r + [x];
      rest := rest - {x};
    }
  }

  /**
   * buildSchemaFromDocuments: close the recalled tables over their foreign keys, build the table
   * list, attach the columns, and list the foreign keys of the tables that were recalled (not of
   * the tables the closure added).
   */
  method BuildSchemaFromDocuments(schema: SchemaDTO, columnDocs: seq<Document>, tableDocs: seq<Document>,
                                  fetchTables: (set<string>, int) -> seq<Document>,
                                  fetchColumns: (set<string>, int) -> seq<Document>,
                                  maxColumnsPerTable: int)
    returns (r: Result<SchemaDTO>)
    ensures var closedTables := ClosedTables(tableDocs, fetchTables);
            var closedColumns := ClosedColumns(tableDocs, columnDocs, fetchColumns, maxColumnsPerTable);
            var built := Attached(closedColumns, seq(|closedTables|, i requires 0 <= i < |closedTables| => TableOf(closedTables[i])));
            (r.Err? <==> built.Err?)
            && (r.Ok? ==> r.value.name == schema.name && r.value.table == built.value)
    ensures r.Ok? ==> (forall x :: x in r.value.foreignKeys <==> x in ForeignKeySet(tableDocs))
                      && TableMetadata.NoDuplicates(r.value.foreignKeys)
  {
    var related := RelatedNames(tableDocs);
    var missing := MissingTables(tableDocs, related);
    var tables := tableDocs;
    var cols := columnDocs;
    if missing != {} {
      var foundTables := fetchTables(missing, TableTopK(missing));
      if foundTables != [] {
        tables := AddUniqueDocuments(tables, foundTables);
      }
      var foundColumns := fetchColumns(missing, ColumnTopK(missing, maxColumnsPerTable));
      if foundColumns != [] {
        cols := AddUniqueDocuments(cols, foundColumns);
      }
    }
    assert tables == ClosedTables(tableDocs, fetchTables);
    assert cols == ClosedColumns(tableDocs, columnDocs, fetchColumns, maxColumnsPerTable);
    var tableList := BuildTableList(tables);
    assert tableList == seq(|tables|, i requires 0 <= i < |tables| => TableOf(tables[i]));
    var attached := AttachColumns(cols, tableList);
    if attached.Err? {
      return Err(attached.error);
    }
    var foreignKeys := ListOfSet(ForeignKeySet(tableDocs));
    return Ok(schema.(table := attached.value, foreignKeys := foreignKeys));
  }

  /** Without missing tables the schema has one table per recalled document, in recall order. */
  lemma NoClosureKeepsRecall(tableDocs: seq<Document>, fetchTables: (set<string>, int) -> seq<Document>)
    requires MissingTables(tableDocs, RelatedNames(tableDocs)) == {}
    ensures ClosedTables(tableDocs, fetchTables) == tableDocs
  {
  }

  /** The closure only appends: the recalled tables stay first, in order, and nothing recalled is repeated. */
  lemma ClosureExtendsRecall(tableDocs: seq<Document>, fetchTables: (set<string>, int) -> seq<Document>)
    ensures var c := ClosedTables(tableDocs, fetchTables);
            |c| >= |tableDocs| && c[..|tableDocs|] == tableDocs
            && forall d :: d in c[|tableDocs|..] ==> d.id !in Ids(tableDocs)
  {
  }
}
