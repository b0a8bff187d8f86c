/**
 * The knowledge bases (Dify datasets) bound to agents: binding one, unbinding one by an
 * "agentId:datasetId" key, listing the bindings grouped by agent, and translating Dify's
 * indexing and search codes into display labels. The agent_dataset_binding table is the field
 * `bindings`.
 */
module DifyKnowledge {
  import opened Wrappers
  import opened JavaText

  /** A row of agent_dataset_binding. */
  datatype Binding = Binding(
    id: int,
    agentId: Option<int>,
    datasetId: Option<string>,
    datasetName: Option<string>,
    indexingTechnique: Option<string>,
    searchMethod: Option<string>)

  /** AddDatasetQo */
  datatype AddDatasetQo = AddDatasetQo(
    agentId: Option<int>,
    datasetId: Option<string>,
    datasetName: Option<string>,
    indexingTechnique: Option<string>,
    searchMethod: Option<string>)

  /** DatasetItemDto: one bound dataset as listed for an agent. */
  datatype DatasetItemDto = DatasetItemDto(
    agentId: Option<int>,
    datasetId: Option<string>,
    datasetName: Option<string>,
    indexingTechnique: Option<string>,
    searchMethod: Option<string>)

  /** The retrieval settings of a Dify dataset. */
  datatype RetrievalModel = RetrievalModel(searchMethod: Option<string>)

  /** A dataset as the Dify API returns it. */
  datatype DifyDatasetData = DifyDatasetData(
    id: Option<string>,
    name: Option<string>,
    description: Option<string>,
    authorName: Option<string>,
    updatedAt: Option<int>,
    indexingTechnique: Option<string>,
    retrievalModelDict: Option<RetrievalModel>)

  /** DifyDatasetDto: a Dify dataset as shown to the user. */
  datatype DifyDatasetDto = DifyDatasetDto(
    id: Option<string>,
    name: Option<string>,
    description: Option<string>,
    indexingTechnique: Option<string>,
    searchMethod: Option<string>,
    authorName: Option<string>,
    updatedTime: Option<int>)

  const INDEXING_TECHNIQUE_MAP: map<string, string> := map["high_quality" := "高质量", "economy" := "经济"]
  const SEARCH_METHOD_MAP: map<string, string> :=
    map["semantic_search" := "向量检索", "full_text_search" := "全文检索", "hybrid_search" := "混合检索"]
  const ECONOMY := "economy"
  const INVERTED_INDEX := "倒排索引"

  /** Map.getOrDefault: a null key or a key without a mapping gives the default. */
  function GetOrDefault(m: map<string, string>, key: Option<string>, default: Option<string>): (r: Option<string>)
    ensures key.Some? && key.value in m ==> r == Some(m[key.value])
    ensures key.None? || key.value !in m ==> r == default
  {
    if key.Some? && key.value in m then Some(m[key.value]) else default
  }

  // ---------------------------------------------------------------- conversions

  /**
   * convertToDifyDatasetDto: the indexing code is translated (unknown codes pass through); the
   * search method is "倒排索引" for the economy technique, otherwise the translated method of
   * the retrieval settings, or null when there is none.
   */
  function ConvertToDifyDatasetDto(data: DifyDatasetData): (dto: DifyDatasetDto)
    ensures dto.id == data.id && dto.name == data.name && dto.authorName == data.authorName
    ensures dto.updatedTime == data.updatedAt
    ensures data.indexingTechnique == Some("high_quality") ==> dto.indexingTechnique == Some("高质量")
    ensures data.indexingTechnique == Some(ECONOMY) ==> dto.indexingTechnique == Some("经济") && dto.searchMethod == Some(INVERTED_INDEX)
    ensures data.indexingTechnique.None? || data.indexingTechnique.value !in INDEXING_TECHNIQUE_MAP ==>
              dto.indexingTechnique == data.indexingTechnique
    ensures data.indexingTechnique != Some(ECONOMY) && (data.retrievalModelDict.None? || data.retrievalModelDict.value.searchMethod.None?) ==>
              dto.searchMethod.None?
    ensures dto.searchMethod == Some("全文检索") ==> data.indexingTechnique != Some(ECONOMY)
  {
    var searchMethod :=
      if data.retrievalModelDict.Some? && data.retrievalModelDict.value.searchMethod.Some? then
        GetOrDefault(SEARCH_METHOD_MAP, data.retrievalModelDict.value.searchMethod, data.retrievalModelDict.value.searchMethod)
      else None;
    DifyDatasetDto(data.id, data.name, data.description,
                   GetOrDefault(INDEXING_TECHNIQUE_MAP, data.indexingTechnique, data.indexingTechnique),
                   if data.indexingTechnique == Some(ECONOMY) then Some(INVERTED_INDEX) else searchMethod,
                   data.authorName, data.updatedAt)
  }

  /**
   * getDatasetPage: no response, or a response without data, lists nothing; otherwise every
   * dataset converted, in order.
   */
  function DatasetPage(response: Option<Option<seq<DifyDatasetData>>>): (r: seq<DifyDatasetDto>)
    ensures response.None? || response.value.None? ==> r == []
    ensures response.Some? && response.value.Some? ==>
              |r| == |response.value.value|
              && forall k :: 0 <= k < |r| ==> r[k] == ConvertToDifyDatasetDto(response.value.value[k])
  {
    if response.None? || response.value.None? then []
    else
      var data := response.value.value;
      seq(|data|, k requires 0 <= k < |data| => ConvertToDifyDatasetDto(data[k]))
  }

  /**
   * convertBindingToDifyDatasetDto: the labels are computed first and then overwritten by
   * the stored codes, so the listing carries the raw codes.
   */
  function ConvertBindingToDatasetItem(binding: Binding): (dto: DatasetItemDto)
    ensures dto.agentId == binding.agentId && dto.datasetId == binding.datasetId && dto.datasetName == binding.datasetName
    ensures dto.indexingTechnique == binding.indexingTechnique && dto.searchMethod == binding.searchMethod
  {
    var dto := DatasetItemDto(binding.agentId, binding.datasetId, binding.datasetName,
                              GetOrDefault(INDEXING_TECHNIQUE_MAP, binding.indexingTechnique, binding.indexingTechnique),
                              None);
    var dto := dto.(searchMethod := if binding.indexingTechnique == Some(ECONOMY) then Some(INVERTED_INDEX)
                                    else GetOrDefault(SEARCH_METHOD_MAP, binding.searchMethod, binding.searchMethod));
    var dto := dto.(indexingTechnique := binding.indexingTechnique);
    dto.(searchMethod := binding.searchMethod)
  }

  /**
   * The binding listing never shows the economy label "倒排索引" unless that is the stored
   * search method, unlike the dataset listing, which always does for economy datasets.
   */
  lemma BindingKeepsEconomyCode(binding: Binding, data: DifyDatasetData)
    requires binding.indexingTechnique == Some(ECONOMY) && binding.searchMethod == Some("semantic_search")
    requires data.indexingTechnique == Some(ECONOMY)
    ensures ConvertBindingToDatasetItem(binding).searchMethod == Some("semantic_search")
    ensures ConvertBindingToDatasetItem(binding).indexingTechnique == Some(ECONOMY)
    ensures ConvertToDifyDatasetDto(data).searchMethod == Some(INVERTED_INDEX)
    ensures ConvertToDifyDatasetDto(data).indexingTechnique == Some("经济")
  {
  }

  // ---------------------------------------------------------------- the delete key

  /**
   * The "agentId:datasetId" key deleteKnowledge takes apart: split on ':' (trailing empty
   * parts dropped), the first part read as an int, the second taken as the dataset id; a
   * missing part is an ArrayIndexOutOfBoundsException and a bad number a
   * NumberFormatException. Parts after the second are ignored.
   */
  function ParseDeleteKey(key: string): (r: Result<(int, string)>)
    ensures r.Ok? ==> |Split(key, ':')| >= 2 && ParseInt(Split(key, ':')[0]) == Ok(r.value.0)
                      && r.value.1 == Split(key, ':')[1]
    ensures r.Ok? <==> |Split(key, ':')| >= 2 && ParseInt(Split(key, ':')[0]).Ok?
    ensures |Split(key, ':')| == 0 ==> r == Err(IndexOutOfBounds)
    ensures |Split(key, ':')| >= 1 && ParseInt(Split(key, ':')[0]).Err? ==> r == Err(ParseInt(Split(key, ':')[0]).error)
    ensures |Split(key, ':')| == 1 && ParseInt(Split(key, ':')[0]).Ok? ==> r == Err(IndexOutOfBounds)
  {
    var parts := Split(key, ':');
    if |parts| == 0 then Err(IndexOutOfBounds)
    else
      var agentId := ParseInt(parts[0]);
      if agentId.Err? then Err(agentId.error)
      else if |parts| < 2 then Err(IndexOutOfBounds)
      else Ok((agentId.value, parts[1]))
  }

  /** A key written as agentId, ':' and a non-empty dataset id without ':' reads back as the pair. */
  lemma ParseDeleteKeyRoundTrip(agentId: int, datasetId: string)
    requires INT_MIN <= agentId <= INT_MAX
    requires datasetId != "" && ':' !in datasetId
    ensures ParseDeleteKey(IntToString(agentId) + ":" + datasetId) == Ok((agentId, datasetId))
  {
    var a := IntToString(agentId);
    assert ':' !in a by {
      var t := NatToString(if agentId < 0 then -agentId else agentId);
      assert forall i :: 0 <= i < |t| ==> IsDigit(t[i]);
      if agentId < 0 {
        assert forall i :: 1 <= i < |a| ==> a[i] == t[i - 1];
      }
    }
    var parts := [a, datasetId];
    assert Join(parts, [':']) == a + ":" + datasetId by {
      assert Join(parts[1..], [':']) == datasetId;
    }
    SplitOfJoin(parts, ':');
    ParseIntRoundTrip(agentId);
  }

  /** A key with nothing after the colon, such as "12:", loses its empty part and fails on the dataset id. */
  lemma ParseDeleteKeyMissingDataset(agentId: int)
    requires INT_MIN <= agentId <= INT_MAX
    ensures ParseDeleteKey(IntToString(agentId) + ":") == Err(IndexOutOfBounds)
  {
    var a := IntToString(agentId);
    assert ':' !in a by {
      var t := NatToString(if agentId < 0 then -agentId else agentId);
      assert forall i :: 0 <= i < |t| ==> IsDigit(t[i]);
      if agentId < 0 {
        assert forall i :: 1 <= i < |a| ==> a[i] == t[i - 1];
      }
    }
    var parts := [a];
    assert Join(parts, [':']) == a;
    SplitOfJoin(parts, ':');
    assert Split(a, ':') == [a];
    SplitTrailingSeparator(a);
    ParseIntRoundTrip(agentId);
  }

  /** A single trailing separator adds only an empty part, which split drops. */
  lemma SplitTrailingSeparator(a: string)
    requires a != "" && ':' !in a
    ensures Split(a + ":", ':') == [a]
  {
    var parts := [a, ""];
    assert Join(parts, [':']) == a + ":" by {
      assert Join(parts[1..], [':']) == "";
    }
    PiecesOfJoin(parts, ':');
    var s := a + ":";
    assert s[|a|] == ':';
    assert parts[..1] == [a];
  }

  // ---------------------------------------------------------------- grouping

  /** The rows selectByAgentIds returns: those whose agent is one of the ids, in table order. */
  function SelectByAgentIds(bindings: seq<Binding>, agentIds: seq<int>): (r: seq<Binding>)
    ensures forall b :: b in r <==> b in bindings && b.agentId.Some? && b.agentId.value in agentIds
  {
    if |bindings| == 0 then []
    else
      var b := bindings[|bindings| - 1];
      SelectByAgentIds(bindings[..|bindings| - 1], agentIds)
      + (if b.agentId.Some? && b.agentId.value in agentIds then [b] else [])
  }

  /** The items of one agent, in order. */
  function ItemsOf(items: seq<DatasetItemDto>, agentId: int): (r: seq<DatasetItemDto>)
    ensures forall x :: x in r <==> x in items && x.agentId == Some(agentId)
    ensures |r| <= |items|
  {
    if |items| == 0 then []
    else ItemsOf(items[..|items| - 1], agentId)
         + (if items[|items| - 1].agentId == Some(agentId) then [items[|items| - 1]] else [])
  }

  /** Collectors.groupingBy(agentId): each agent of the items to its items, in encounter order. */
  function GroupByAgent(items: seq<DatasetItemDto>): (m: map<int, seq<DatasetItemDto>>)
    ensures forall a :: a in m <==> exists k :: 0 <= k < |items| && items[k].agentId == Some(a)
    ensures forall a :: a in m ==> m[a] == ItemsOf(items, a) && |m[a]| > 0
  {
    map a | a in AgentsOf(items) :: ItemsOf(items, a)
  }

  function AgentsOf(items: seq<DatasetItemDto>): (s: set<int>)
    ensures forall a :: a in s <==> exists k :: 0 <= k < |items| && items[k].agentId == Some(a)
  {
    set k | 0 <= k < |items| && items[k].agentId.Some? :: items[k].agentId.value
  }

  function ConvertAll(bindings: seq<Binding>): (r: seq<DatasetItemDto>)
    ensures |r| == |bindings| && forall k :: 0 <= k < |r| ==> r[k] == ConvertBindingToDatasetItem(bindings[k])
  {
    seq(|bindings|, k requires 0 <= k < |bindings| => ConvertBindingToDatasetItem(bindings[k]))
  }

  // ---------------------------------------------------------------- the service

  /** No two bindings share a non-null agent and dataset. */
  predicate NoDuplicateBinding(bindings: seq<Binding>)
  {
    forall i, j :: 0 <= i < j < |bindings| && bindings[i].agentId.Some? && bindings[i].datasetId.Some? ==>
      !(bindings[j].agentId == bindings[i].agentId && bindings[j].datasetId == bindings[i].datasetId)
  }

  /** selectByAgentIdAndDatasetId finds a row: SQL equality never holds for a null key. */
  predicate IsBound(bindings: seq<Binding>, agentId: Option<int>, datasetId: Option<string>)
  {
    agentId.Some? && datasetId.Some?
    && exists k :: 0 <= k < |bindings| && bindings[k].agentId == agentId && bindings[k].datasetId == datasetId
  }

  /** DELETE ... WHERE agent_id = ? AND dataset_id IN (?): the rows kept. */
  function DeleteBinding(bindings: seq<Binding>, agentId: int, datasetId: string): (r: seq<Binding>)
    ensures forall b :: b in r <==> b in bindings && !(b.agentId == Some(agentId) && b.datasetId == Some(datasetId))
    ensures |r| <= |bindings|
  {
    if |bindings| == 0 then []
    else
      var b := bindings[|bindings| - 1];
      DeleteBinding(bindings[..|bindings| - 1], agentId, datasetId)
      + (if b.agentId == Some(agentId) && b.datasetId == Some(datasetId) then [] else [b])
  }

  class DifyAgentKnowledgeService {
    /** agent_dataset_binding, in the order selectByAgentIds returns (newest first). */
    var bindings: seq<Binding>
    var nextId: int

    ghost predicate Valid()
      reads this
    {
      NoDuplicateBinding(bindings)
    }

    constructor()
      ensures bindings == [] && Valid()
    {
      bindings := [];
      nextId := 1;
    }

    /**
     * addKnowledge: an agent already bound to the dataset answers true without writing;
     * otherwise the binding is inserted and the one inserted row makes the answer true.
     */
    method AddKnowledge(request: AddDatasetQo) returns (r: bool)
      requires Valid()
      modifies this
      ensures Valid() && r
      ensures IsBound(old(bindings), request.agentId, request.datasetId) ==> bindings == old(bindings)
      ensures !IsBound(old(bindings), request.agentId, request.datasetId) ==>
                bindings == old(bindings) + [Binding(old(nextId), request.agentId, request.datasetId, request.datasetName,
                                                     request.indexingTechnique, request.searchMethod)]
    {
      if IsBound(bindings, request.agentId, request.datasetId) {
        return true;
      }
      var binding := Binding(nextId, request.agentId, request.datasetId, request.datasetName,
                             request.indexingTechnique, request.searchMethod);
      bindings := bindings + [binding];
      nextId := nextId + 1;
      r := true;
    }

    /**
     * deleteKnowledge: the key's parse error propagates; otherwise the agent's binding to the
     * dataset is removed, and the answer says whether a row went.
     */
    method DeleteKnowledge(key: string) returns (r: Result<bool>)
      requires Valid()
      modifies this
      ensures Valid()
      ensures ParseDeleteKey(key).Err? ==> r == Err(ParseDeleteKey(key).error) && bindings == old(bindings)
      ensures ParseDeleteKey(key).Ok? ==>
                var (agentId, datasetId) := ParseDeleteKey(key).value;
                bindings == DeleteBinding(old(bindings), agentId, datasetId)
                && r == Ok(|bindings| < |old(bindings)|)
    {
      var request := ParseDeleteKey(key);
      if request.Err? {
        return Err(request.error);
      }
      var (agentId, datasetId) := request.value;
      var before := |bindings|;
      bindings := DeleteBinding(bindings, agentId, datasetId);
      assert forall i :: 0 <= i < |bindings| ==> bindings[i] in old(bindings);
      DeleteKeepsNoDuplicate(old(bindings), agentId, datasetId);
      r := Ok(|bindings| < before);
    }

    /**
     * getByAgent: the selected bindings converted and grouped by agent; none selected gives
     * none. Each group lists that agent's bindings in table order.
     */
    method GetByAgent(agentIds: seq<int>) returns (r: map<int, seq<DatasetItemDto>>)
      ensures forall a :: a in r <==> a in agentIds && exists k :: 0 <= k < |bindings| && bindings[k].agentId == Some(a)
      ensures forall a :: a in r ==> r[a] == ItemsOf(ConvertAll(SelectByAgentIds(bindings, agentIds)), a) && |r[a]| > 0
    {
      var selected := SelectByAgentIds(bindings, agentIds);
      SelectedAgents(bindings, agentIds);
      if |selected| == 0 {
        return map[];
      }
      r := GroupByAgent(ConvertAll(selected));
    }
  }

  /** The agents of the converted selection are the requested agents that have a binding. */
  lemma SelectedAgents(bindings: seq<Binding>, agentIds: seq<int>)
    ensures var items := ConvertAll(SelectByAgentIds(bindings, agentIds));
            forall a :: (exists k :: 0 <= k < |items| && items[k].agentId == Some(a)) <==>
                        a in agentIds && exists k :: 0 <= k < |bindings| && bindings[k].agentId == Some(a)
  {
    var selected := SelectByAgentIds(bindings, agentIds);
    var items := ConvertAll(selected);
    forall a
      ensures (exists k :: 0 <= k < |items| && items[k].agentId == Some(a)) ==>
              a in agentIds && exists k :: 0 <= k < |bindings| && bindings[k].agentId == Some(a)
    {
      if k :| 0 <= k < |items| && items[k].agentId == Some(a) {
        assert selected[k] in bindings;
      }
    }
    forall a | a in agentIds && exists k :: 0 <= k < |bindings| && bindings[k].agentId == Some(a)
      ensures exists k :: 0 <= k < |items| && items[k].agentId == Some(a)
    {
      var k :| 0 <= k < |bindings| && bindings[k].agentId == Some(a);
      assert bindings[k] in selected;
      var j :| 0 <= j < |selected| && selected[j] == bindings[k];
      assert items[j].agentId == Some(a);
    }
  }

  lemma DeleteKeepsNoDuplicate(bindings: seq<Binding>, agentId: int, datasetId: string)
    requires NoDuplicateBinding(bindings)
    ensures NoDuplicateBinding(DeleteBinding(bindings, agentId, datasetId))
    decreases |bindings|
  {
    if |bindings| > 0 {
      var init := bindings[..|bindings| - 1];
      assert NoDuplicateBinding(init);
      DeleteKeepsNoDuplicate(init, agentId, datasetId);
      var kept := DeleteBinding(init, agentId, datasetId);
      assert forall i :: 0 <= i < |kept| ==> kept[i] in init;
    }
  }
}
