/**
 * The prompt builders that render the recalled schema as text for the language model, and
 * the defaults they put in the template parameters. Rendering the templates themselves is
 * left to the caller.
 */
module PromptHelper {
  import opened Wrappers
  import opened JavaText
  import opened SchemaTypes
  import opened SeqUtil
  import UserPrompts

  // ---------------------------------------------------------------- parameter defaults

  /** What a blank evidence, business-knowledge or agent-knowledge text is replaced with. */
  const NONE_GIVEN := "无"

  /** The value put in the parameter map for a possibly blank text: "无" when blank. */
  function DefaultWhenBlank(text: Option<string>): (r: string)
    ensures IsBlankOpt(text) ==> r == NONE_GIVEN
    ensures !IsBlankOpt(text) ==> r == text.value
    ensures HasText(r)
  {
    assert NONE_GIVEN[0] == '无';
    if IsBlankOpt(text) then NONE_GIVEN else text.value
  }

  /**
   * The parameters of the mix-selector prompt: the schema rendered with column types, the
   * question, and the evidence, which is never blank.
   */
  function MixSelectorParams(evidence: Option<string>, question: string, schema: SchemaDTO): (r: map<string, string>)
    ensures r.Keys == {"schema_info", "question", "evidence"}
    ensures r["schema_info"] == DbPromptOf(schema, true) && r["question"] == question
    ensures HasText(r["evidence"])
    ensures !IsBlankOpt(evidence) ==> r["evidence"] == evidence.value
  {
    map["schema_info" := DbPromptOf(schema, true), "question" := question, "evidence" := DefaultWhenBlank(evidence)]
  }

  // ---------------------------------------------------------------- one column

  /** StringUtils.equals: null-safe equality, two nulls being equal. */
  predicate SameText(a: Option<string>, b: Option<string>)
  {
    a == b
  }

  /** The non-empty values of a column's sample data, in order. */
  function NonEmptyValues(data: seq<string>): (r: seq<string>)
    ensures |r| <= |data|
    ensures forall k :: 0 <= k < |r| ==> r[k] != "" && r[k] in data
    ensures forall k :: 0 <= k < |data| && data[k] != "" ==> data[k] in r
    ensures r == [] <==> forall k :: 0 <= k < |data| ==> data[k] == ""
  {
    if |data| == 0 then []
    else
      var rest := NonEmptyValues(data[1..]);
      assert forall k :: 1 <= k < |data| ==> data[k] == data[1..][k - 1];
      if data[0] == "" then rest else [data[0]] + rest
  }

  /** The examples a column line shows: the first three non-empty sample values. */
  function Examples(col: ColumnDTO): (ex: seq<string>)
    ensures |ex| <= 3
    ensures forall k :: 0 <= k < |ex| ==> ex[k] != "" && col.data.Some? && ex[k] in col.data.value
    ensures ex == [] <==> col.data.None? || forall k :: 0 <= k < |col.data.value| ==> col.data.value[k] == ""
  {
    var enumData := NonEmptyValues(col.data.UnwrapOr([]));
    enumData[..if |enumData| < 3 then |enumData| else 3]
  }

  /** The column type, upper-cased after a colon, when types are shown. */
  function TypePart(col: ColumnDTO, withColumnType: bool): (r: string)
    ensures !withColumnType ==> r == ""
    ensures withColumnType ==> |r| == 1 + |col.columnType.UnwrapOr("")| && r[0] == ':'
    ensures withColumnType ==> forall k :: 1 <= k < |r| ==> r[k] == UpperChar(col.columnType.UnwrapOr("")[k - 1])
  {
    if withColumnType then ":" + ToUpper(col.columnType.UnwrapOr("")) else ""
  }

  /** The column description, shown unless it equals the column name. */
  function DescriptionPart(col: ColumnDTO): (r: string)
    ensures SameText(col.description, col.name) <==> r == ""
    ensures !SameText(col.description, col.name) ==> r == ", " + col.description.UnwrapOr("")
  {
    if !SameText(col.description, col.name) then ", " + col.description.UnwrapOr("") else ""
  }

  const PRIMARY_KEY := ", Primary Key"

  /** The primary-key mark: present exactly when the table lists the column's name as a key. */
  function PrimaryKeyPart(t: TableDTO, col: ColumnDTO): (r: string)
    ensures r == PRIMARY_KEY <==> t.primaryKeys.Some? && col.name.Some? && col.name.value in t.primaryKeys.value
    ensures r != PRIMARY_KEY ==> r == ""
  {
    var pks := t.primaryKeys.UnwrapOr([]);
    if |pks| > 0 && col.name.Some? && col.name.value in pks then PRIMARY_KEY else ""
  }

  /** The examples list, left out for a column named "id" and for a column without non-empty samples. */
  function ExamplesPart(col: ColumnDTO): (r: string)
    ensures r == "" <==> Examples(col) == [] || col.name == Some("id")
    ensures r != "" ==> r == ", Examples: [" + Join(Examples(col), ",") + "]"
  {
    var ex := Examples(col);
    if |ex| > 0 && col.name != Some("id") then ", Examples: [" + Join(ex, ",") + "]" else ""
  }

  /** One column's line: "(name:TYPE, description, Primary Key, Examples: [...])". */
  function ColumnLine(t: TableDTO, col: ColumnDTO, withColumnType: bool): (r: string)
    ensures StartsWith(r, "(" + NullText(col.name)) && r[|r| - 1] == ')'
  {
    var r := "(" + NullText(col.name) + TypePart(col, withColumnType) + DescriptionPart(col)
             + PrimaryKeyPart(t, col) + ExamplesPart(col) + ")";
    assert r[..|"(" + NullText(col.name)|] == "(" + NullText(col.name);
    r
  }

  // ---------------------------------------------------------------- one table

  /**
   * The header line: the table name, then the description after a comma when it differs from
   * the name and is not blank.
   */
  function TableHeader(t: TableDTO): (r: string)
    ensures r == "# Table: " + NullText(t.name)
                 + (if !SameText(t.name, t.description) && !IsBlankOpt(t.description) then ", " + t.description.value else "")
                 + "\n"
  {
    if !SameText(t.name, t.description) then
      "# Table: " + NullText(t.name) + (if IsBlankOpt(t.description) then "" else ", " + t.description.value) + "\n"
    else
      "# Table: " + NullText(t.name) + "\n"
  }

  /** The lines of the table's columns, in column order. */
  function ColumnLines(t: TableDTO, withColumnType: bool): (r: seq<string>)
    ensures |r| == |t.column|
    ensures forall k :: 0 <= k < |r| ==> r[k] == ColumnLine(t, t.column[k], withColumnType)
  {
    seq(|t.column|, k requires 0 <= k < |t.column| => ColumnLine(t, t.column[k], withColumnType))
  }

  const OPEN_COLUMNS := "[\n"
  const COLUMN_SEPARATOR := ",\n"
  const CLOSE_COLUMNS := "\n]"

  /** buildMixMacSqlTablePrompt: the header, then the column lines between "[" and "]". */
  function TablePromptOf(t: TableDTO, withColumnType: bool): string
  {
    TableHeader(t) + OPEN_COLUMNS + Join(ColumnLines(t, withColumnType), COLUMN_SEPARATOR) + CLOSE_COLUMNS
  }

  /** buildMixMacSqlTablePrompt, building the column lines in a loop. */
  method BuildTablePrompt(t: TableDTO, withColumnType: bool) returns (r: string)
    ensures r == TablePromptOf(t, withColumnType)
  {
    ghost var lines := ColumnLines(t, withColumnType);
    var columnLines: seq<string> := [];
    var i := 0;
    while i < |t.column|
      invariant 0 <= i <= |t.column|
      invariant columnLines == lines[..i]
    {
      var line := ColumnLine(t, t.column[i], withColumnType);
      PrefixStep(lines, i);
      columnLines := columnLines + [line];
      i := i + 1;
    }
    FullPrefix(lines);
    r := TableHeader(t) + OPEN_COLUMNS + Join(columnLines, COLUMN_SEPARATOR) + CLOSE_COLUMNS;
  }

  /** Every part joined with a separator occurs in the joined text. */
  lemma {:induction false} JoinContains(parts: seq<string>, sep: string, k: nat)
    requires k < |parts|
    ensures Contains(Join(parts, sep), parts[k])
    decreases |parts|
  {
    var j := Join(parts, sep);
    if k == 0 {
      ContainsSelf(parts[0]);
      if |parts| > 1 {
        ContainsInfix("", parts[0], sep + Join(parts[1..], sep), parts[0]);
        assert j == "" + parts[0] + (sep + Join(parts[1..], sep));
      }
    } else {
      JoinContains(parts[1..], sep, k - 1);
      ContainsInfix(parts[0] + sep, Join(parts[1..], sep), "", parts[k]);
      assert j == (parts[0] + sep) + Join(parts[1..], sep) + "";
    }
  }

  /**
   * The table prompt opens with the table's name, closes the column list, and holds the line
   * of every column.
   */
  lemma TablePromptShape(t: TableDTO, withColumnType: bool)
    ensures var r := TablePromptOf(t, withColumnType);
            StartsWith(r, "# Table: " + NullText(t.name)) && r[|r| - 2..] == "\n]"
    ensures forall k :: 0 <= k < |t.column| ==>
              Contains(TablePromptOf(t, withColumnType), ColumnLine(t, t.column[k], withColumnType))
  {
    var r := TablePromptOf(t, withColumnType);
    var p := "# Table: " + NullText(t.name);
    var lines := ColumnLines(t, withColumnType);
    var before := TableHeader(t) + OPEN_COLUMNS;
    var body := Join(lines, COLUMN_SEPARATOR);
    var description := if !SameText(t.name, t.description) && !IsBlankOpt(t.description) then ", " + t.description.value else "";
    StartsWithSelf(p);
    StartsWithExtend(p, p, description);
    StartsWithExtend(p + description, p, "\n");
    StartsWithExtend(TableHeader(t), p, OPEN_COLUMNS);
    StartsWithExtend(before, p, body);
    StartsWithExtend(before + body, p, CLOSE_COLUMNS);
    EndsWithLast(before + body, CLOSE_COLUMNS);
    forall k | 0 <= k < |t.column|
      ensures Contains(r, ColumnLine(t, t.column[k], withColumnType))
    {
      JoinContains(lines, COLUMN_SEPARATOR, k);
      ContainsInfix(before, body, CLOSE_COLUMNS, lines[k]);
    }
  }

  // ---------------------------------------------------------------- the whole schema

  const DB_ID := "【DB_ID】 "
  const FOREIGN_KEYS := "【Foreign keys】\n"

  /** The "【DB_ID】" line, with an empty name for a null one. */
  function DbHeader(schema: SchemaDTO): string
  {
    DB_ID + schema.name.UnwrapOr("") + "\n"
  }

  /** The foreign-key section: present only when there are foreign keys, one per line. */
  function ForeignKeySection(schema: SchemaDTO): (r: string)
    ensures r == "" <==> |schema.foreignKeys| == 0
    ensures |schema.foreignKeys| > 0 ==> r == FOREIGN_KEYS + Join(schema.foreignKeys, "\n")
  {
    if |schema.foreignKeys| > 0 then FOREIGN_KEYS + Join(schema.foreignKeys, "\n") else ""
  }

  /** The prompts of the schema's tables, each followed by a blank line. */
  function TableBlocks(schema: SchemaDTO, withColumnType: bool): (r: seq<string>)
    ensures |r| == |schema.table|
    ensures forall k :: 0 <= k < |r| ==> r[k] == TablePromptOf(schema.table[k], withColumnType) + "\n"
  {
    seq(|schema.table|, k requires 0 <= k < |schema.table| => TablePromptOf(schema.table[k], withColumnType) + "\n")
  }

  /** buildMixMacSqlDbPrompt: the DB line, every table's prompt, then the foreign keys. */
  function DbPromptOf(schema: SchemaDTO, withColumnType: bool): string
  {
    DbHeader(schema) + Flatten(TableBlocks(schema, withColumnType)) + ForeignKeySection(schema)
  }

  /** buildMixMacSqlDbPrompt, appending the table prompts in a loop. */
  method BuildDbPrompt(schema: SchemaDTO, withColumnType: bool) returns (r: string)
    ensures r == DbPromptOf(schema, withColumnType)
  {
    var sb := DbHeader(schema);
    var i := 0;
    while i < |schema.table|
      invariant 0 <= i <= |schema.table|
      invariant sb == DbHeader(schema) + Flatten(TableBlocks(schema, withColumnType)[..i])
    {
      var tablePrompt := BuildTablePrompt(schema.table[i], withColumnType);
      FlattenPrefixStep(TableBlocks(schema, withColumnType), i);
      AppendAssoc(DbHeader(schema), Flatten(TableBlocks(schema, withColumnType)[..i]), tablePrompt + "\n");
      sb := sb + (tablePrompt + "\n");
      i := i + 1;
    }
    FullPrefix(TableBlocks(schema, withColumnType));
    r := sb + ForeignKeySection(schema);
  }

  /** Every part of a flattened list occurs in it. */
  lemma {:induction false} FlattenContains(parts: seq<string>, k: nat)
    requires k < |parts|
    ensures Contains(Flatten(parts), parts[k])
    decreases |parts|
  {
    var f := Flatten(parts);
    assert f == "" + parts[0] + Flatten(parts[1..]);
    if k == 0 {
      ContainsSelf(parts[0]);
      ContainsInfix("", parts[0], Flatten(parts[1..]), parts[0]);
    } else {
      FlattenContains(parts[1..], k - 1);
      ContainsInfix(parts[0], Flatten(parts[1..]), "", parts[k]);
      assert f == parts[0] + Flatten(parts[1..]) + "";
    }
  }

  lemma DbPromptStart(schema: SchemaDTO, withColumnType: bool)
    ensures StartsWith(DbPromptOf(schema, withColumnType), DB_ID + schema.name.UnwrapOr("") + "\n")
  {
    var h := DbHeader(schema);
    var body := Flatten(TableBlocks(schema, withColumnType));
    StartsWithSelf(h);
    StartsWithExtend(h, h, body);
    StartsWithExtend(h + body, h, ForeignKeySection(schema));
  }

  lemma DbPromptHoldsTable(schema: SchemaDTO, withColumnType: bool, k: nat)
    requires k < |schema.table|
    ensures Contains(DbPromptOf(schema, withColumnType), TablePromptOf(schema.table[k], withColumnType))
  {
    var blocks := TableBlocks(schema, withColumnType);
    var tp := TablePromptOf(schema.table[k], withColumnType);
    ContainsSelf(tp);
    ContainsInfix("", tp, "\n", tp);
    assert blocks[k] == "" + tp + "\n";
    FlattenContains(blocks, k);
    ContainsInfix(DbHeader(schema), Flatten(blocks), ForeignKeySection(schema), blocks[k]);
    ContainsTransitive(DbPromptOf(schema, withColumnType), blocks[k], tp);
  }

  lemma DbPromptHoldsTables(schema: SchemaDTO, withColumnType: bool)
    ensures forall k :: 0 <= k < |schema.table| ==>
              Contains(DbPromptOf(schema, withColumnType), TablePromptOf(schema.table[k], withColumnType))
  {
    forall k | 0 <= k < |schema.table|
      ensures Contains(DbPromptOf(schema, withColumnType), TablePromptOf(schema.table[k], withColumnType))
    {
      DbPromptHoldsTable(schema, withColumnType, k);
    }
  }

  lemma DbPromptEnd(schema: SchemaDTO, withColumnType: bool)
    ensures |schema.foreignKeys| > 0 ==>
              var r := DbPromptOf(schema, withColumnType);
              var fk := FOREIGN_KEYS + Join(schema.foreignKeys, "\n");
              |fk| <= |r| && r[|r| - |fk|..] == fk
  {
    EndsWithLast(DbHeader(schema) + Flatten(TableBlocks(schema, withColumnType)), ForeignKeySection(schema));
  }

  /**
   * The schema prompt opens with "【DB_ID】 " and the schema name ("" for null), holds the
   * prompt of every table, and ends with the foreign keys when there are any.
   */
  lemma DbPromptShape(schema: SchemaDTO, withColumnType: bool)
    ensures StartsWith(DbPromptOf(schema, withColumnType), DB_ID + schema.name.UnwrapOr("") + "\n")
    ensures forall k :: 0 <= k < |schema.table| ==>
              Contains(DbPromptOf(schema, withColumnType), TablePromptOf(schema.table[k], withColumnType))
    ensures |schema.foreignKeys| > 0 ==>
              var r := DbPromptOf(schema, withColumnType);
              var fk := FOREIGN_KEYS + Join(schema.foreignKeys, "\n");
              |fk| <= |r| && r[|r| - |fk|..] == fk
  {
    DbPromptStart(schema, withColumnType);
    DbPromptHoldsTables(schema, withColumnType);
    DbPromptEnd(schema, withColumnType);
  }

  // ---------------------------------------------------------------- the optimization section

  const OPTIMIZATION_HEADING := "## 优化要求\n"

  /**
   * renderOptimizationPrompt: a null or blank prompt renders as ""; `render` is the template
   * engine, None when rendering throws, in which case the raw prompt is used.
   */
  function RenderOptimizationPrompt(prompt: Option<string>, render: string -> Option<string>): (r: string)
    ensures prompt.None? || Trim(prompt.value) == "" ==> r == ""
    ensures prompt.Some? && Trim(prompt.value) != "" ==>
              r == (if render(prompt.value).Some? then render(prompt.value).value else prompt.value)
  {
    if prompt.None? || Trim(prompt.value) == "" then ""
    else match render(prompt.value)
         case Some(text) => text
         case None => prompt.value
  }

  /** The list item a configuration contributes: "- content\n", or nothing when the content is blank. */
  function OptimizationItem(config: UserPrompts.UserPromptConfig, render: string -> Option<string>): (r: string)
    ensures Trim(RenderOptimizationPrompt(config.systemPrompt, render)) == "" <==> r == ""
  {
    var content := RenderOptimizationPrompt(config.systemPrompt, render);
    if Trim(content) != "" then "- " + content + "\n" else ""
  }

  /** The item of every configuration, in order. */
  function OptimizationItems(configs: seq<UserPrompts.UserPromptConfig>, render: string -> Option<string>): (r: seq<string>)
    ensures |r| == |configs|
    ensures forall k :: 0 <= k < |configs| ==> r[k] == OptimizationItem(configs[k], render)
  {
    seq(|configs|, k requires 0 <= k < |configs| => OptimizationItem(configs[k], render))
  }

  /** The heading and the items of the configurations, before the final trim. */
  function OptimizationText(configs: seq<UserPrompts.UserPromptConfig>, render: string -> Option<string>): string
  {
    OPTIMIZATION_HEADING + Flatten(OptimizationItems(configs, render))
  }

  /** buildOptimizationSection: "" without configurations, otherwise the heading and the items, trimmed. */
  method BuildOptimizationSection(optimizationConfigs: Option<seq<UserPrompts.UserPromptConfig>>,
                                  render: string -> Option<string>) returns (r: string)
    ensures optimizationConfigs.None? || |optimizationConfigs.value| == 0 ==> r == ""
    ensures optimizationConfigs.Some? && |optimizationConfigs.value| > 0 ==>
              r == Trim(OptimizationText(optimizationConfigs.value, render))
  {
    if optimizationConfigs.None? || |optimizationConfigs.value| == 0 {
      return "";
    }
    var configs := optimizationConfigs.value;
    ghost var items := OptimizationItems(configs, render);
    var result := OPTIMIZATION_HEADING;
    var i := 0;
    while i < |configs|
      invariant 0 <= i <= |configs|
      invariant result == OPTIMIZATION_HEADING + Flatten(items[..i])
    {
      var optimizationContent := RenderOptimizationPrompt(configs[i].systemPrompt, render);
      FlattenPrefixStep(items, i);
      AppendAssoc(OPTIMIZATION_HEADING, Flatten(items[..i]), items[i]);
      if Trim(optimizationContent) != "" {
        result := result + ("- " + optimizationContent + "\n");
      } else {
        result := result + "";
      }
      i := i + 1;
    }
    FullPrefix(items);
    r := Trim(result);
  }

  lemma ItemsSnoc(configs: seq<UserPrompts.UserPromptConfig>, c: UserPrompts.UserPromptConfig, render: string -> Option<string>)
    ensures OptimizationItems(configs + [c], render) == OptimizationItems(configs, render) + [OptimizationItem(c, render)]
  {
    var cs := configs + [c];
    var items := OptimizationItems(cs, render);
    var before := OptimizationItems(configs, render);
    assert forall k :: 0 <= k < |configs| ==> items[k] == before[k] by {
      assert forall k :: 0 <= k < |configs| ==> cs[k] == configs[k];
    }
    assert cs[|configs|] == c;
    SnocEqual(items, before, OptimizationItem(c, render));
  }

  /** A configuration whose rendered content is blank adds nothing to the section. */
  lemma BlankItemSkipped(configs: seq<UserPrompts.UserPromptConfig>, c: UserPrompts.UserPromptConfig,
                         render: string -> Option<string>)
    requires Trim(RenderOptimizationPrompt(c.systemPrompt, render)) == ""
    ensures OptimizationText(configs + [c], render) == OptimizationText(configs, render)
  {
    ItemsSnoc(configs, c, render);
    FlattenSnoc(OptimizationItems(configs, render), OptimizationItem(c, render));
  }

  /** When every configuration renders blank, the section is the bare heading. */
  lemma AllBlankGivesHeading(configs: seq<UserPrompts.UserPromptConfig>, render: string -> Option<string>)
    requires forall k :: 0 <= k < |configs| ==> Trim(RenderOptimizationPrompt(configs[k].systemPrompt, render)) == ""
    ensures Trim(OptimizationText(configs, render)) == "## 优化要求"
  {
    var items := OptimizationItems(configs, render);
    FlattenBlank(items);
    var s := OPTIMIZATION_HEADING;
    assert OptimizationText(configs, render) == s;
    var b := TrimBounds(s);
    assert s[0] == '#' && s[|s| - 2] == '求' && s[|s| - 1] == '\n';
    assert b.0 == 0;
    assert b.1 == |s| - 1;
  }

  lemma {:induction false} FlattenBlank(items: seq<string>)
    requires forall k :: 0 <= k < |items| ==> items[k] == ""
    ensures Flatten(items) == ""
    decreases |items|
  {
    if |items| > 0 {
      FlattenBlank(items[1..]);
    }
  }
}
