/**
 * The preset questions an agent offers: creating one with defaults, updating one, and
 * replacing an agent's whole list in order. The agent_preset_question table is the field
 * `rows`; `nextId` is the next generated key.
 */
module PresetQuestions {
  import opened Wrappers
  import opened SeqUtil

  /** AgentPresetQuestion */
  datatype PresetQuestion = PresetQuestion(
    id: Option<int>,
    agentId: Option<int>,
    question: Option<string>,
    sortOrder: Option<int>,
    isActive: Option<bool>)

  /** create's defaults: a null sort order becomes 0 and a null active flag true. */
  function WithDefaults(q: PresetQuestion): (r: PresetQuestion)
    ensures r.sortOrder.Some? && r.isActive.Some?
    ensures q.sortOrder.Some? ==> r.sortOrder == q.sortOrder
    ensures q.sortOrder.None? ==> r.sortOrder == Some(0)
    ensures q.isActive.Some? ==> r.isActive == q.isActive
    ensures q.isActive.None? ==> r.isActive == Some(true)
    ensures r.(sortOrder := q.sortOrder, isActive := q.isActive) == q
  {
    q.(sortOrder := Some(q.sortOrder.UnwrapOr(0)), isActive := Some(q.isActive.UnwrapOr(true)))
  }

  /** The mapper's update on one row: the non-null question, sort order and flag of `q` replace the stored ones. */
  function UpdatedRow(stored: PresetQuestion, q: PresetQuestion): (r: PresetQuestion)
    ensures r.id == stored.id && r.agentId == stored.agentId
    ensures r.question == (if q.question.Some? then q.question else stored.question)
    ensures r.sortOrder == (if q.sortOrder.Some? then q.sortOrder else stored.sortOrder)
    ensures r.isActive == (if q.isActive.Some? then q.isActive else stored.isActive)
  {
    stored.(question := if q.question.Some? then q.question else stored.question,
            sortOrder := if q.sortOrder.Some? then q.sortOrder else stored.sortOrder,
            isActive := if q.isActive.Some? then q.isActive else stored.isActive)
  }

  /** UPDATE ... WHERE id = q.id over the table. */
  function UpdateWhereId(rows: seq<PresetQuestion>, q: PresetQuestion): (r: seq<PresetQuestion>)
    ensures |r| == |rows|
    ensures forall i :: 0 <= i < |rows| ==> r[i] == if rows[i].id == q.id then UpdatedRow(rows[i], q) else rows[i]
  {
    if |rows| == 0 then []
    else UpdateWhereId(rows[..|rows| - 1], q)
         + [if rows[|rows| - 1].id == q.id then UpdatedRow(rows[|rows| - 1], q) else rows[|rows| - 1]]
  }

  /** deleteByAgentId: the rows of other agents, in order. */
  function DeleteByAgent(rows: seq<PresetQuestion>, agentId: int): (r: seq<PresetQuestion>)
    ensures forall x :: x in r <==> x in rows && x.agentId != Some(agentId)
    ensures |r| <= |rows|
  {
    if |rows| == 0 then []
    else DeleteByAgent(rows[..|rows| - 1], agentId)
         + (if rows[|rows| - 1].agentId != Some(agentId) then [rows[|rows| - 1]] else [])
  }

  /** selectAllByAgentId (before ordering): the agent's rows, in table order. */
  function RowsOfAgent(rows: seq<PresetQuestion>, agentId: int): (r: seq<PresetQuestion>)
    ensures forall x :: x in r <==> x in rows && x.agentId == Some(agentId)
  {
    if |rows| == 0 then []
    else RowsOfAgent(rows[..|rows| - 1], agentId)
         + (if rows[|rows| - 1].agentId == Some(agentId) then [rows[|rows| - 1]] else [])
  }

  /** The row batchSave stores for the k-th question, under key `id`. */
  function BatchRow(q: PresetQuestion, agentId: int, k: nat, id: int): (r: PresetQuestion)
    ensures r.id == Some(id) && r.agentId == Some(agentId) && r.sortOrder == Some(k)
    ensures r.question == q.question
    ensures r.isActive == (if q.isActive.Some? then q.isActive else Some(true))
  {
    WithDefaults(q.(agentId := Some(agentId), sortOrder := Some(k))).(id := Some(id))
  }

  /** The rows batchSave appends: the k-th question at sort order k under key firstId + k. */
  function BatchRows(questions: seq<PresetQuestion>, agentId: int, firstId: int): (r: seq<PresetQuestion>)
    ensures |r| == |questions|
    ensures forall k :: 0 <= k < |r| ==> r[k] == BatchRow(questions[k], agentId, k, firstId + k)
  {
    seq(|questions|, k requires 0 <= k < |questions| => BatchRow(questions[k], agentId, k, firstId + k))
  }

  lemma {:induction false} RowsOfAgentAppend(a: seq<PresetQuestion>, b: seq<PresetQuestion>, agentId: int)
    ensures RowsOfAgent(a + b, agentId) == RowsOfAgent(a, agentId) + RowsOfAgent(b, agentId)
    decreases |b|
  {
    if |b| == 0 {
      assert a + b == a;
    } else {
      var last := |b| - 1;
      assert (a + b)[..|a + b| - 1] == a + b[..last];
      RowsOfAgentAppend(a, b[..last], agentId);
    }
  }

  lemma {:induction false} RowsOfAgentNone(rows: seq<PresetQuestion>, agentId: int)
    requires forall i :: 0 <= i < |rows| ==> rows[i].agentId != Some(agentId)
    ensures RowsOfAgent(rows, agentId) == []
    decreases |rows|
  {
    if |rows| > 0 {
      RowsOfAgentNone(rows[..|rows| - 1], agentId);
    }
  }

  lemma {:induction false} RowsOfAgentAll(rows: seq<PresetQuestion>, agentId: int)
    requires forall i :: 0 <= i < |rows| ==> rows[i].agentId == Some(agentId)
    ensures RowsOfAgent(rows, agentId) == rows
    decreases |rows|
  {
    if |rows| > 0 {
      var init := rows[..|rows| - 1];
      assert forall i :: 0 <= i < |init| ==> init[i] == rows[i];
      RowsOfAgentAll(init, agentId);
      InitLast(rows);
    }
  }

  /**
   * After batchSave the agent's questions are exactly the saved list, in list order, the k-th
   * at sort order k; so the mapper's ORDER BY sort_order returns them in the order given.
   */
  lemma BatchSaveReplacesList(rows: seq<PresetQuestion>, questions: seq<PresetQuestion>, agentId: int, firstId: int)
    ensures var after := DeleteByAgent(rows, agentId) + BatchRows(questions, agentId, firstId);
            RowsOfAgent(after, agentId) == BatchRows(questions, agentId, firstId)
            && forall k :: 0 <= k < |questions| ==> RowsOfAgent(after, agentId)[k].sortOrder == Some(k)
  {
    var kept := DeleteByAgent(rows, agentId);
    var added := BatchRows(questions, agentId, firstId);
    RowsOfAgentAppend(kept, added, agentId);
    DeleteLeavesNone(rows, agentId);
    RowsOfAgentNone(kept, agentId);
    RowsOfAgentAll(added, agentId);
    assert RowsOfAgent(kept + added, agentId) == [] + added;
    assert [] + added == added;
  }

  lemma DeleteLeavesNone(rows: seq<PresetQuestion>, agentId: int)
    ensures var kept := DeleteByAgent(rows, agentId);
            forall i :: 0 <= i < |kept| ==> kept[i].agentId != Some(agentId)
  {
    var kept := DeleteByAgent(rows, agentId);
    assert forall i :: 0 <= i < |kept| ==> kept[i] in kept;
  }

  /** batchSave leaves every other agent's questions as they were. */
  lemma BatchSaveKeepsOthers(rows: seq<PresetQuestion>, questions: seq<PresetQuestion>, agentId: int, firstId: int, other: int)
    requires other != agentId
    ensures RowsOfAgent(DeleteByAgent(rows, agentId) + BatchRows(questions, agentId, firstId), other)
            == RowsOfAgent(rows, other)
  {
    var added := BatchRows(questions, agentId, firstId);
    RowsOfAgentAppend(DeleteByAgent(rows, agentId), added, other);
    RowsOfAgentNone(added, other);
    DeleteKeepsOthers(rows, agentId, other);
  }

  lemma {:induction false} DeleteKeepsOthers(rows: seq<PresetQuestion>, agentId: int, other: int)
    requires other != agentId
    ensures RowsOfAgent(DeleteByAgent(rows, agentId), other) == RowsOfAgent(rows, other)
    decreases |rows|
  {
    if |rows| > 0 {
      var init := rows[..|rows| - 1];
      var last := rows[|rows| - 1];
      DeleteKeepsOthers(init, agentId, other);
      RowsOfAgentAppend(DeleteByAgent(init, agentId), if last.agentId != Some(agentId) then [last] else [], other);
    }
  }

  class PresetQuestionService {
    /** agent_preset_question */
    var rows: seq<PresetQuestion>
    var nextId: int

    constructor()
      ensures rows == [] && nextId == 1
    {
      rows := [];
      nextId := 1;
    }

    /** create: the question with its defaults is inserted and returned with its generated key. */
    method Create(question: PresetQuestion) returns (created: PresetQuestion)
      modifies this
      ensures created == WithDefaults(question).(id := Some(old(nextId)))
      ensures rows == old(rows) + [created] && nextId == old(nextId) + 1
    {
      created := WithDefaults(question).(id := Some(nextId));
      rows := rows + [created];
      nextId := nextId + 1;
    }

    /** update: the request is aimed at `id` whatever id it carried, and its non-null fields are written. */
    method Update(id: int, question: PresetQuestion)
      modifies this
      ensures rows == UpdateWhereId(old(rows), question.(id := Some(id))) && nextId == old(nextId)
    {
      var q := question.(id := Some(id));
      rows := UpdateWhereId(rows, q);
    }

    /** deleteByAgentId */
    method DeleteByAgentId(agentId: int)
      modifies this
      ensures rows == DeleteByAgent(old(rows), agentId) && nextId == old(nextId)
    {
      rows := DeleteByAgent(rows, agentId);
    }

    /**
     * batchSave: the agent's questions are deleted, then each question of the list is created
     * for the agent with its position as sort order.
     */
    method BatchSave(agentId: int, questions: seq<PresetQuestion>)
      modifies this
      ensures rows == DeleteByAgent(old(rows), agentId) + BatchRows(questions, agentId, old(nextId))
      ensures nextId == old(nextId) + |questions|
    {
      DeleteByAgentId(agentId);
      ghost var kept := rows;
      ghost var added := BatchRows(questions, agentId, nextId);
      var i := 0;
      while i < |questions|
        invariant 0 <= i <= |questions|
        invariant nextId == old(nextId) + i
        invariant rows == kept + added[..i]
      {
        var question := questions[i].(agentId := Some(agentId), sortOrder := Some(i));
        if question.isActive.None? {
          question := question.(isActive := Some(true));
        }
        var created := Create(question);
        PrefixStep(added, i);
        AppendAssoc(kept, added[..i], [added[i]]);
        i := i + 1;
      }
      FullPrefix(added);
    }
  }
}
