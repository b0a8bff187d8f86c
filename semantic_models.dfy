/**
 * The semantic-model service: business names, synonyms and descriptions attached to the
 * columns of an agent's data source. The `semantic_model` and `agent_datasource` tables are
 * fields of the service, each a sequence in the order its query returns rows; `nextId` is the
 * next generated key.
 */
module SemanticModels {
  import opened Wrappers
  import opened JavaText

  /** A row of agent_datasource: which data sources an agent uses, and whether each is active. */
  datatype AgentDatasource = AgentDatasource(agentId: int, datasourceId: Option<int>, isActive: Option<int>)

  /** A row of semantic_model. */
  datatype SemanticModel = SemanticModel(
    id: int,
    agentId: Option<int>,
    datasourceId: Option<int>,
    tableName: Option<string>,
    columnName: Option<string>,
    businessName: Option<string>,
    synonyms: Option<string>,
    businessDescription: Option<string>,
    columnComment: Option<string>,
    dataType: Option<string>,
    status: Option<int>)

  /** The fields a request describes a column with (SemanticModelAddDTO and SemanticModelImportItem). */
  datatype ColumnEntry = ColumnEntry(
    tableName: Option<string>,
    columnName: Option<string>,
    businessName: Option<string>,
    synonyms: Option<string>,
    businessDescription: Option<string>,
    columnComment: Option<string>,
    dataType: Option<string>)

  /** BatchImportResult */
  datatype BatchImportResult = BatchImportResult(total: nat, successCount: nat, failCount: nat, errors: seq<string>)

  const ENABLED := 1
  const NO_DATASOURCE := "No datasource found for Agent ID "
  const LOOKUP_FAILED := "获取数据源ID失败: "

  // ---------------------------------------------------------------- data source of an agent

  predicate IsActive(ad: AgentDatasource)
  {
    ad.isActive == Some(1)
  }

  /** selectByAgentId: the agent's relations, in table order. */
  function RelationsOf(rels: seq<AgentDatasource>, agentId: int): (r: seq<AgentDatasource>)
    ensures forall ad :: ad in r <==> ad in rels && ad.agentId == agentId
    ensures |r| <= |rels|
  {
    if |rels| == 0 then []
    else RelationsOf(rels[..|rels| - 1], agentId)
         + (if rels[|rels| - 1].agentId == agentId then [rels[|rels| - 1]] else [])
  }

  /** The position of the first active relation at or after `from`, or -1. */
  function FirstActiveFrom(rs: seq<AgentDatasource>, from: nat): (k: int)
    requires from <= |rs|
    ensures k == -1 <==> forall j :: from <= j < |rs| ==> !IsActive(rs[j])
    ensures k != -1 ==> from <= k < |rs| && IsActive(rs[k]) && forall j :: from <= j < k ==> !IsActive(rs[j])
    decreases |rs| - from
  {
    if from == |rs| then -1
    else if IsActive(rs[from]) then from
    else FirstActiveFrom(rs, from + 1)
  }

  /** The data source an agent's queries use: the first active relation's, else the first relation's. */
  function ChosenDatasource(rs: seq<AgentDatasource>): (d: Option<int>)
    requires |rs| > 0
    ensures (exists k :: 0 <= k < |rs| && IsActive(rs[k]) && d == rs[k].datasourceId
                         && forall j :: 0 <= j < k ==> !IsActive(rs[j]))
            || ((forall j :: 0 <= j < |rs| ==> !IsActive(rs[j])) && d == rs[0].datasourceId)
  {
    var k := FirstActiveFrom(rs, 0);
    if k == -1 then rs[0].datasourceId else rs[k].datasourceId
  }

  // ---------------------------------------------------------------- queries and rows

  /**
   * selectByDatasourceIdAndTableNames: the enabled rows of the data source whose table is one
   * of the names.
   */
  function SelectByDatasourceAndTables(models: seq<SemanticModel>, datasourceId: int, tableNames: seq<string>)
    : (r: seq<SemanticModel>)
    ensures forall m :: m in r <==>
              m in models && m.datasourceId == Some(datasourceId) && m.status == Some(ENABLED)
              && m.tableName.Some? && m.tableName.value in tableNames
  {
    if |models| == 0 then []
    else
      var m := models[|models| - 1];
      SelectByDatasourceAndTables(models[..|models| - 1], datasourceId, tableNames)
      + (if m.datasourceId == Some(datasourceId) && m.status == Some(ENABLED)
            && m.tableName.Some? && m.tableName.value in tableNames
         then [m] else [])
  }

  /** A row holds the column of the agent: SQL equality never holds for a null table or column. */
  predicate SameColumn(m: SemanticModel, agentId: int, tableName: Option<string>, columnName: Option<string>)
  {
    tableName.Some? && columnName.Some?
    && m.agentId == Some(agentId) && m.tableName == tableName && m.columnName == columnName
  }

  /** selectByAgentIdAndTableNameAndColumnName (LIMIT 1): the position of the first such row, or -1. */
  function FindColumn(models: seq<SemanticModel>, agentId: int, tableName: Option<string>, columnName: Option<string>)
    : (k: int)
    ensures k == -1 <==> forall j :: 0 <= j < |models| ==> !SameColumn(models[j], agentId, tableName, columnName)
    ensures k != -1 ==> 0 <= k < |models| && SameColumn(models[k], agentId, tableName, columnName)
  {
    if |models| == 0 then -1
    else
      var k := FindColumn(models[..|models| - 1], agentId, tableName, columnName);
      if k != -1 then k
      else if SameColumn(models[|models| - 1], agentId, tableName, columnName) then |models| - 1
      else -1
  }

  /** How many rows hold the column. */
  function ColumnCount(models: seq<SemanticModel>, agentId: int, tableName: Option<string>, columnName: Option<string>)
    : (n: nat)
    ensures n <= |models|
    ensures n == 0 <==> FindColumn(models, agentId, tableName, columnName) == -1
  {
    if |models| == 0 then 0
    else ColumnCount(models[..|models| - 1], agentId, tableName, columnName)
         + (if SameColumn(models[|models| - 1], agentId, tableName, columnName) then 1 else 0)
  }

  /** A new row: the entry's fields, enabled. */
  function NewModel(id: int, agentId: int, datasourceId: Option<int>, e: ColumnEntry): (m: SemanticModel)
    ensures m.id == id && m.agentId == Some(agentId) && m.datasourceId == datasourceId && m.status == Some(ENABLED)
    ensures m.tableName == e.tableName && m.columnName == e.columnName
    ensures m.businessName == e.businessName && m.dataType == e.dataType
  {
    SemanticModel(id, Some(agentId), datasourceId, e.tableName, e.columnName, e.businessName, e.synonyms,
                  e.businessDescription, e.columnComment, e.dataType, Some(ENABLED))
  }

  /**
   * The row updateById leaves after the import set the five descriptive fields: a null field of
   * the entry keeps the stored value; the key, the data source and the status stay.
   */
  function UpdatedModel(stored: SemanticModel, e: ColumnEntry): (m: SemanticModel)
    ensures m.id == stored.id && m.agentId == stored.agentId && m.datasourceId == stored.datasourceId
    ensures m.tableName == stored.tableName && m.columnName == stored.columnName && m.status == stored.status
    ensures e.businessName.Some? ==> m.businessName == e.businessName
    ensures e.businessName.None? ==> m.businessName == stored.businessName
    ensures e.dataType.Some? ==> m.dataType == e.dataType
    ensures e.dataType.None? ==> m.dataType == stored.dataType
  {
    stored.(businessName := e.businessName.Or(stored.businessName), synonyms := e.synonyms.Or(stored.synonyms),
            businessDescription := e.businessDescription.Or(stored.businessDescription),
            columnComment := e.columnComment.Or(stored.columnComment), dataType := e.dataType.Or(stored.dataType))
  }

  /** The table and the next key after importing one entry: an update of the row that holds its column, or an insert. */
  function ImportOne(models: seq<SemanticModel>, nextId: int, agentId: int, datasourceId: Option<int>, e: ColumnEntry)
    : (r: (seq<SemanticModel>, int))
  {
    var k := FindColumn(models, agentId, e.tableName, e.columnName);
    if k == -1 then (models + [NewModel(nextId, agentId, datasourceId, e)], nextId + 1)
    else (models[k := UpdatedModel(models[k], e)], nextId)
  }

  /** The table and the next key after the first `n` entries, skipping those whose statement fails. */
  function ImportPrefix(models: seq<SemanticModel>, nextId: int, agentId: int, datasourceId: Option<int>,
                        items: seq<ColumnEntry>, failures: map<nat, string>, n: nat): (r: (seq<SemanticModel>, int))
    requires n <= |items|
    decreases n
  {
    if n == 0 then (models, nextId)
    else
      var before := ImportPrefix(models, nextId, agentId, datasourceId, items, failures, n - 1);
      if n - 1 in failures then before
      else ImportOne(before.0, before.1, agentId, datasourceId, items[n - 1])
  }

  lemma ImportPrefixStep(models: seq<SemanticModel>, nextId: int, agentId: int, datasourceId: Option<int>,
                         items: seq<ColumnEntry>, failures: map<nat, string>, i: nat)
    requires i < |items|
    ensures var before := ImportPrefix(models, nextId, agentId, datasourceId, items, failures, i);
            ImportPrefix(models, nextId, agentId, datasourceId, items, failures, i + 1)
            == if i in failures then before else ImportOne(before.0, before.1, agentId, datasourceId, items[i])
  {
  }

  /** How many of the first `n` entries fail. */
  function FailedBefore(failures: map<nat, string>, n: nat): (c: nat)
    ensures c <= n
  {
    if n == 0 then 0 else FailedBefore(failures, n - 1) + (if n - 1 in failures then 1 else 0)
  }

  /** The message of an entry whose statement failed; positions are counted from 1. */
  function ItemError(i: nat, e: ColumnEntry, message: string): (r: string)
    ensures StartsWith(r, "第" + IntToString(i + 1))
  {
    var head := "第" + IntToString(i + 1);
    var r := head + "条记录失败 (" + NullText(e.tableName) + "." + NullText(e.columnName) + "): " + message;
    assert r == head + ("条记录失败 (" + NullText(e.tableName) + "." + NullText(e.columnName) + "): " + message);
    StartsWithSelf(head);
    StartsWithExtend(head, head, "条记录失败 (" + NullText(e.tableName) + "." + NullText(e.columnName) + "): " + message);
    r
  }

  /** Every key is below the next key and no two rows share one. */
  predicate KeysValid(models: seq<SemanticModel>, nextId: int)
  {
    (forall i :: 0 <= i < |models| ==> models[i].id < nextId)
    && (forall i, j :: 0 <= i < j < |models| ==> models[i].id != models[j].id)
  }

  // ---------------------------------------------------------------- properties of the import

  /** Importing keeps the keys valid. */
  lemma ImportOneKeysValid(models: seq<SemanticModel>, nextId: int, agentId: int, datasourceId: Option<int>, e: ColumnEntry)
    requires KeysValid(models, nextId)
    ensures var r := ImportOne(models, nextId, agentId, datasourceId, e); KeysValid(r.0, r.1) && r.1 >= nextId
  {
  }

  lemma {:induction false} ImportPrefixKeysValid(models: seq<SemanticModel>, nextId: int, agentId: int,
                                                 datasourceId: Option<int>, items: seq<ColumnEntry>,
                                                 failures: map<nat, string>, n: nat)
    requires n <= |items| && KeysValid(models, nextId)
    ensures var r := ImportPrefix(models, nextId, agentId, datasourceId, items, failures, n); KeysValid(r.0, r.1)
    decreases n
  {
    if n > 0 {
      ImportPrefixKeysValid(models, nextId, agentId, datasourceId, items, failures, n - 1);
      var before := ImportPrefix(models, nextId, agentId, datasourceId, items, failures, n - 1);
      if n - 1 !in failures {
        ImportOneKeysValid(before.0, before.1, agentId, datasourceId, items[n - 1]);
      }
    }
  }

  /** Rows of other columns are left alone by an import. */
  lemma ColumnCountUpdate(models: seq<SemanticModel>, k: nat, m: SemanticModel, agentId: int,
                          tableName: Option<string>, columnName: Option<string>)
    requires k < |models|
    requires SameColumn(models[k], agentId, tableName, columnName) == SameColumn(m, agentId, tableName, columnName)
    ensures ColumnCount(models[k := m], agentId, tableName, columnName) == ColumnCount(models, agentId, tableName, columnName)
    decreases |models|
  {
    var last := |models| - 1;
    if k < last {
      assert models[k := m][..last] == models[..last][k := m];
      ColumnCountUpdate(models[..last], k, m, agentId, tableName, columnName);
    } else {
      assert models[k := m][..last] == models[..last];
    }
  }

  lemma ColumnCountAppend(models: seq<SemanticModel>, m: SemanticModel, agentId: int,
                          tableName: Option<string>, columnName: Option<string>)
    ensures ColumnCount(models + [m], agentId, tableName, columnName)
            == ColumnCount(models, agentId, tableName, columnName) + (if SameColumn(m, agentId, tableName, columnName) then 1 else 0)
  {
    assert (models + [m])[..|models|] == models;
  }

  /**
   * The import is an upsert: a column already held is updated in place, so its row count is
   * unchanged, and a column not yet held gets exactly one row. Importing the same entry again
   * therefore never duplicates it.
   */
  lemma ImportOneUpserts(models: seq<SemanticModel>, nextId: int, agentId: int, datasourceId: Option<int>, e: ColumnEntry)
    requires e.tableName.Some? && e.columnName.Some?
    ensures var r := ImportOne(models, nextId, agentId, datasourceId, e);
            var before := ColumnCount(models, agentId, e.tableName, e.columnName);
            ColumnCount(r.0, agentId, e.tableName, e.columnName) == (if before == 0 then 1 else before)
            && FindColumn(r.0, agentId, e.tableName, e.columnName) != -1
            && (before == 0 <==> |r.0| == |models| + 1)
  {
    var k := FindColumn(models, agentId, e.tableName, e.columnName);
    if k == -1 {
      ColumnCountAppend(models, NewModel(nextId, agentId, datasourceId, e), agentId, e.tableName, e.columnName);
    } else {
      ColumnCountUpdate(models, k, UpdatedModel(models[k], e), agentId, e.tableName, e.columnName);
    }
  }

  /** An entry without a table or column name never matches a row, so each import of it inserts a new row. */
  lemma ImportOneNullKeyInserts(models: seq<SemanticModel>, nextId: int, agentId: int, datasourceId: Option<int>, e: ColumnEntry)
    requires e.tableName.None? || e.columnName.None?
    ensures ImportOne(models, nextId, agentId, datasourceId, e) == (models + [NewModel(nextId, agentId, datasourceId, e)], nextId + 1)
  {
  }

  // ---------------------------------------------------------------- the service

  class SemanticModelService {
    /** agent_datasource, in the order selectByAgentId returns (newest first). */
    var agentDatasources: seq<AgentDatasource>
    /** semantic_model */
    var models: seq<SemanticModel>
    var nextId: int

    ghost predicate Valid()
      reads this
    {
      KeysValid(models, nextId)
    }

    constructor(agentDatasources: seq<AgentDatasource>)
      ensures this.agentDatasources == agentDatasources && models == [] && Valid()
    {
      this.agentDatasources := agentDatasources;
      models := [];
      nextId := 1;
    }

    /**
     * findDatasourceIdByAgentId: a RuntimeException when the agent has no relation; otherwise
     * the first active relation's data source, or the first relation's when none is active.
     */
    method FindDatasourceIdByAgentId(agentId: int) returns (r: Result<Option<int>>)
      ensures var rs := RelationsOf(agentDatasources, agentId);
              (r.Err? <==> |rs| == 0)
              && (r.Err? ==> r.error == Runtime(NO_DATASOURCE + IntToString(agentId)))
              && (r.Ok? ==> r.value == ChosenDatasource(rs))
    {
      var agentDatasourceList := RelationsOf(agentDatasources, agentId);
      if |agentDatasourceList| == 0 {
        return Err(Runtime(NO_DATASOURCE + IntToString(agentId)));
      }
      var i := 0;
      while i < |agentDatasourceList|
        invariant 0 <= i <= |agentDatasourceList|
        invariant forall j :: 0 <= j < i ==> !IsActive(agentDatasourceList[j])
      {
        var ad := agentDatasourceList[i];
        if ad.isActive.Some? && ad.isActive.value == 1 {
          return Ok(ad.datasourceId);
        }
        i := i + 1;
      }
      r := Ok(agentDatasourceList[0].datasourceId);
    }

    /**
     * getByAgentIdAndTableNames: the lookup's exception propagates; a null data source or a
     * null or empty name list gives no rows; otherwise the enabled rows of those tables.
     */
    method GetByAgentIdAndTableNames(agentId: int, tableNames: Option<seq<string>>) returns (r: Result<seq<SemanticModel>>)
      ensures var rs := RelationsOf(agentDatasources, agentId);
              (r.Err? <==> |rs| == 0)
              && (r.Ok? && (ChosenDatasource(rs).None? || tableNames.None? || |tableNames.value| == 0) ==> r.value == [])
              && (r.Ok? && ChosenDatasource(rs).Some? && tableNames.Some? && |tableNames.value| > 0 ==>
                    r.value == SelectByDatasourceAndTables(models, ChosenDatasource(rs).value, tableNames.value))
    {
      var found := FindDatasourceIdByAgentId(agentId);
      if found.Err? {
        return Err(found.error);
      }
      var datasourceId := found.value;
      if datasourceId.None? || tableNames.None? || |tableNames.value| == 0 {
        return Ok([]);
      }
      r := Ok(SelectByDatasourceAndTables(models, datasourceId.value, tableNames.value));
    }

    /** addSemanticModel(dto): inserts the entry, enabled, under the agent's data source, and answers true. */
    method AddSemanticModel(agentId: int, dto: ColumnEntry) returns (r: Result<bool>)
      requires Valid()
      modifies this
      ensures Valid() && agentDatasources == old(agentDatasources)
      ensures var rs := RelationsOf(agentDatasources, agentId);
              (r.Err? <==> |rs| == 0)
              && (r.Err? ==> models == old(models) && nextId == old(nextId))
              && (r.Ok? ==> r.value && nextId == old(nextId) + 1
                            && models == old(models) + [NewModel(old(nextId), agentId, ChosenDatasource(rs), dto)])
    {
      var found := FindDatasourceIdByAgentId(agentId);
      if found.Err? {
        return Err(found.error);
      }
      models := models + [NewModel(nextId, agentId, found.value, dto)];
      nextId := nextId + 1;
      r := Ok(true);
    }

    /** One entry of the import: the row holding its column is updated, or a new row inserted. */
    method ImportItem(agentId: int, datasourceId: Option<int>, item: ColumnEntry)
      modifies this
      ensures agentDatasources == old(agentDatasources)
      ensures (models, nextId) == ImportOne(old(models), old(nextId), agentId, datasourceId, item)
    {
      var k := FindColumn(models, agentId, item.tableName, item.columnName);
      if k != -1 {
        models := models[k := UpdatedModel(models[k], item)];
      } else {
        models := models + [NewModel(nextId, agentId, datasourceId, item)];
        nextId := nextId + 1;
      }
    }

    /**
     * batchImport: when the data source lookup fails every entry counts as failed and nothing
     * is written. Otherwise each entry is imported (an upsert on agent, table and column) or,
     * when its statement throws — `failures` maps such positions to the exception message —
     * counted as failed with a message; nothing else stops the loop.
     */
    method BatchImport(agentId: int, items: seq<ColumnEntry>, failures: map<nat, string>) returns (result: BatchImportResult)
      requires Valid()
      modifies this
      ensures Valid() && agentDatasources == old(agentDatasources)
      ensures result.total == |items| && result.successCount + result.failCount == result.total
      ensures var rs := RelationsOf(agentDatasources, agentId);
              if |rs| == 0 then
                result.failCount == |items| && result.successCount == 0
                && result.errors == [LOOKUP_FAILED + (NO_DATASOURCE + IntToString(agentId))]
                && models == old(models) && nextId == old(nextId)
              else
                result.failCount == FailedBefore(failures, |items|) && |result.errors| == result.failCount
                && (models, nextId) == ImportPrefix(old(models), old(nextId), agentId, ChosenDatasource(rs), items, failures, |items|)
    {
      result := BatchImportResult(|items|, 0, 0, []);
      var found := FindDatasourceIdByAgentId(agentId);
      if found.Err? {
        result := result.(failCount := |items|, errors := [LOOKUP_FAILED + found.error.message]);
        return;
      }
      ghost var models0, nextId0 := models, nextId;
      result := ImportItems(agentId, found.value, items, failures);
      ImportPrefixKeysValid(models0, nextId0, agentId, found.value, items, failures, |items|);
    }

    /** The loop of batchImport over the entries, once the data source is known. */
    method ImportItems(agentId: int, datasourceId: Option<int>, items: seq<ColumnEntry>, failures: map<nat, string>)
      returns (result: BatchImportResult)
      modifies this
      ensures agentDatasources == old(agentDatasources)
      ensures result.total == |items| && result.successCount + result.failCount == result.total
      ensures result.failCount == FailedBefore(failures, |items|) && |result.errors| == result.failCount
      ensures (models, nextId) == ImportPrefix(old(models), old(nextId), agentId, datasourceId, items, failures, |items|)
    {
      result := BatchImportResult(|items|, 0, 0, []);
      var i := 0;
      while i < |items|
        invariant 0 <= i <= |items|
        invariant agentDatasources == old(agentDatasources)
        invariant (models, nextId) == ImportPrefix(old(models), old(nextId), agentId, datasourceId, items, failures, i)
        invariant result.total == |items| && result.successCount + result.failCount == i
        invariant result.failCount == FailedBefore(failures, i) && |result.errors| == result.failCount
      {
        var item := items[i];
        ImportPrefixStep(old(models), old(nextId), agentId, datasourceId, items, failures, i);
        if i in failures {
          result := result.(failCount := result.failCount + 1,
                            errors := result.errors + [ItemError(i, item, failures[i])]);
        } else {
          ImportItem(agentId, datasourceId, item);
          result := result.(successCount := result.successCount + 1);
        }
        i := i + 1;
      }
    }
  }

  /** With no failing statement every entry succeeds. */
  lemma {:induction false} NoFailuresNoneFail(failures: map<nat, string>, n: nat)
    requires forall k :: k in failures ==> k >= n
    ensures FailedBefore(failures, n) == 0
  {
    if n > 0 {
      NoFailuresNoneFail(failures, n - 1);
    }
  }
}
