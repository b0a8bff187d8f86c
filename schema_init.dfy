/**
 * SchemaServiceImpl.schema: initialising an agent's schema. Old schema documents are cleared,
 * the foreign keys and tables are read through the dialect accessor, every table is enriched
 * (in parallel batches when there are more than five), and the column and table documents are
 * written to the agent's vector store, columns first. Every call to the store may throw; the
 * first exception ends the initialisation with false.
 */
module SchemaInit {
  import opened Wrappers
  import opened Documents
  import opened SchemaTypes
  import TableMetadata
  import SeqUtil
  import SchemaService

  // ---------------------------------------------------------------- the vector store

  /** The vector type a schema document is stored under; every other kind of document is `Other`. */
  datatype VectorType = ColumnDoc | TableDoc | Other(name: string)

  datatype StoredDocument = StoredDocument(agentId: string, vectorType: VectorType, doc: Document)

  predicate AgentHasDocuments(entries: seq<StoredDocument>, agentId: string)
  {
    exists i :: 0 <= i < |entries| && entries[i].agentId == agentId
  }

  /** The entries left after deleting the agent's documents of one vector type, in order. */
  function Remove(entries: seq<StoredDocument>, agentId: string, t: VectorType): (r: seq<StoredDocument>)
    ensures forall e :: e in r <==> e in entries && !(e.agentId == agentId && e.vectorType == t)
    ensures |r| <= |entries|
    decreases |entries|
  {
    if |entries| == 0 then []
    else
      (if entries[0].agentId == agentId && entries[0].vectorType == t then [] else [entries[0]])
      + Remove(entries[1..], agentId, t)
  }

  /** clearSchemaDataForAgent: nothing when the agent has no documents, else its column and then its table documents go. */
  function Cleared(entries: seq<StoredDocument>, agentId: string): seq<StoredDocument>
  {
    if !AgentHasDocuments(entries, agentId) then entries
    else Remove(Remove(entries, agentId, ColumnDoc), agentId, TableDoc)
  }

  /** Clearing removes exactly the agent's column and table documents; other agents and other kinds stay. */
  lemma ClearedSpec(entries: seq<StoredDocument>, agentId: string)
    ensures forall e :: e in Cleared(entries, agentId) <==>
              e in entries && !(e.agentId == agentId && (e.vectorType == ColumnDoc || e.vectorType == TableDoc))
  {
    if !AgentHasDocuments(entries, agentId) {
      forall e | e in entries ensures e.agentId != agentId {
        var i :| 0 <= i < |entries| && entries[i] == e;
      }
    }
  }

  /** The documents of one batch as the store files them. */
  function Stamp(agentId: string, t: VectorType, docs: seq<Document>): (r: seq<StoredDocument>)
    ensures |r| == |docs|
  {
    seq(|docs|, i requires 0 <= i < |docs| => StoredDocument(agentId, t, docs[i]))
  }

  lemma StampAppend(agentId: string, t: VectorType, a: seq<Document>, b: seq<Document>)
    ensures Stamp(agentId, t, a + b) == Stamp(agentId, t, a) + Stamp(agentId, t, b)
  {
  }

  // ---------------------------------------------------------------- writes that may fail

  /** One write schema initialisation makes to the store. */
  datatype StoreOp =
    | DeleteOp(agentId: string, vectorType: VectorType)
    | AddOp(agentId: string, vectorType: VectorType, docs: seq<Document>)

  function ApplyOp(entries: seq<StoredDocument>, op: StoreOp): seq<StoredDocument>
  {
    match op
    case DeleteOp(a, t) => Remove(entries, a, t)
    case AddOp(a, t, docs) => entries + Stamp(a, t, docs)
  }

  /** The entries after every write of `ops` succeeded. */
  function Fold(entries: seq<StoredDocument>, ops: seq<StoreOp>): seq<StoredDocument>
    decreases |ops|
  {
    if |ops| == 0 then entries else Fold(ApplyOp(entries, ops[0]), ops[1..])
  }

  /** Where a run of writes leaves the store: its entries, the calls made so far, and the exception that ended it. */
  datatype Progress = Progress(entries: seq<StoredDocument>, calls: nat, failure: Option<JavaError>)

  /**
   * The writes made one after the other. The store call numbered k throws when `outcome(k)`
   * names an exception; a call that throws writes nothing and ends the run.
   */
  function Run(entries: seq<StoredDocument>, ops: seq<StoreOp>, outcome: nat -> Option<JavaError>, calls: nat): (p: Progress)
    ensures p.failure.None? ==> p.calls == calls + |ops|
    ensures p.failure.Some? ==> calls < p.calls <= calls + |ops|
    decreases |ops|
  {
    if |ops| == 0 then Progress(entries, calls, None)
    else if outcome(calls).Some? then Progress(entries, calls + 1, outcome(calls))
    else Run(ApplyOp(entries, ops[0]), ops[1..], outcome, calls + 1)
  }

  /** Running two lists of writes is running the first and, when it did not fail, the second from where it stopped. */
  lemma {:induction false} RunAppend(entries: seq<StoredDocument>, a: seq<StoreOp>, b: seq<StoreOp>,
                                     outcome: nat -> Option<JavaError>, calls: nat)
    ensures var p := Run(entries, a, outcome, calls);
            Run(entries, a + b, outcome, calls) == if p.failure.Some? then p else Run(p.entries, b, outcome, p.calls)
    decreases |a|
  {
    if |a| == 0 {
      assert a + b == b;
    } else if outcome(calls).None? {
      assert (a + b)[1..] == a[1..] + b;
      RunAppend(ApplyOp(entries, a[0]), a[1..], b, outcome, calls + 1);
    }
  }

  /**
   * A run leaves the store as far as it got: the entries are those of some prefix of the writes
   * all succeeding, and of all of them when nothing failed.
   */
  lemma {:induction false} RunAsFarAsItGot(entries: seq<StoredDocument>, ops: seq<StoreOp>,
                                           outcome: nat -> Option<JavaError>, calls: nat)
    ensures Run(entries, ops, outcome, calls).failure.None? ==> Run(entries, ops, outcome, calls).entries == Fold(entries, ops)
    ensures exists n :: 0 <= n <= |ops| && Run(entries, ops, outcome, calls).entries == Fold(entries, ops[..n])
    decreases |ops|
  {
    if |ops| == 0 {
      assert ops[..0] == ops;
    } else if outcome(calls).Some? {
      assert ops[..0] == [];
    } else {
      var next := ApplyOp(entries, ops[0]);
      RunAsFarAsItGot(next, ops[1..], outcome, calls + 1);
      var n :| 0 <= n <= |ops[1..]| && Run(next, ops[1..], outcome, calls + 1).entries == Fold(next, ops[1..][..n]);
      assert ops[..n + 1][1..] == ops[1..][..n];
      assert Fold(entries, ops[..n + 1]) == Fold(next, ops[1..][..n]);
    }
  }

  /** When none of the calls it makes throws, a run completes every write. */
  lemma {:induction false} RunWithoutFailures(entries: seq<StoredDocument>, ops: seq<StoreOp>,
                                              outcome: nat -> Option<JavaError>, calls: nat)
    requires forall k :: calls <= k < calls + |ops| ==> outcome(k).None?
    ensures Run(entries, ops, outcome, calls) == Progress(Fold(entries, ops), calls + |ops|, None)
    decreases |ops|
  {
    if |ops| > 0 {
      assert outcome(calls).None?;
      RunWithoutFailures(ApplyOp(entries, ops[0]), ops[1..], outcome, calls + 1);
    }
  }

  /** clearSchemaDataForAgent's writes: none when the agent has no documents, else its column and then its table documents. */
  function ClearOps(entries: seq<StoredDocument>, agentId: string): seq<StoreOp>
  {
    if !AgentHasDocuments(entries, agentId) then [] else [DeleteOp(agentId, ColumnDoc), DeleteOp(agentId, TableDoc)]
  }

  lemma FoldClearOps(entries: seq<StoredDocument>, agentId: string)
    ensures Fold(entries, ClearOps(entries, agentId)) == Cleared(entries, agentId)
  {
    if AgentHasDocuments(entries, agentId) {
      var x, y := DeleteOp(agentId, ColumnDoc), DeleteOp(agentId, TableDoc);
      FoldPair(entries, x, y);
    }
  }

  lemma FoldPair(entries: seq<StoredDocument>, x: StoreOp, y: StoreOp)
    ensures Fold(entries, [x, y]) == ApplyOp(ApplyOp(entries, x), y)
  {
    var e1 := ApplyOp(entries, x);
    assert [x, y][1..] == [y];
    assert [y][1..] == [];
    assert Fold(entries, [x, y]) == Fold(e1, [y]);
    assert Fold(e1, [y]) == Fold(ApplyOp(e1, y), []);
  }

  /** Two writes: the first call's exception, else the second's, else both writes done. */
  lemma RunPair(entries: seq<StoredDocument>, x: StoreOp, y: StoreOp, outcome: nat -> Option<JavaError>, calls: nat)
    ensures Run(entries, [x, y], outcome, calls) ==
            if outcome(calls).Some? then Progress(entries, calls + 1, outcome(calls))
            else if outcome(calls + 1).Some? then Progress(ApplyOp(entries, x), calls + 2, outcome(calls + 1))
            else Progress(ApplyOp(ApplyOp(entries, x), y), calls + 2, None)
  {
    assert [x, y][1..] == [y];
    assert [y][1..] == [];
    if outcome(calls).None? {
      var e1 := ApplyOp(entries, x);
      assert Run(entries, [x, y], outcome, calls) == Run(e1, [y], outcome, calls + 1);
      if outcome(calls + 1).None? {
        assert Run(e1, [y], outcome, calls + 1) == Run(ApplyOp(e1, y), [], outcome, calls + 2);
      }
    }
  }

  /** The clearing run spelled out: nothing to do, or the two deletes as far as they got. */
  lemma ClearRunCases(entries: seq<StoredDocument>, agentId: string, outcome: nat -> Option<JavaError>, calls: nat)
    ensures Run(entries, ClearOps(entries, agentId), outcome, calls) ==
            if !AgentHasDocuments(entries, agentId) then Progress(entries, calls, None)
            else if outcome(calls).Some? then Progress(entries, calls + 1, outcome(calls))
            else if outcome(calls + 1).Some? then Progress(Remove(entries, agentId, ColumnDoc), calls + 2, outcome(calls + 1))
            else Progress(Remove(Remove(entries, agentId, ColumnDoc), agentId, TableDoc), calls + 2, None)
  {
    if AgentHasDocuments(entries, agentId) {
      RunPair(entries, DeleteOp(agentId, ColumnDoc), DeleteOp(agentId, TableDoc), outcome, calls);
    }
  }

  /** One addDocuments call per batch, in order. */
  function AddOps(agentId: string, t: VectorType, batches: seq<seq<Document>>): (ops: seq<StoreOp>)
    ensures |ops| == |batches|
    ensures forall i :: 0 <= i < |batches| ==> ops[i] == AddOp(agentId, t, batches[i])
  {
    seq(|batches|, i requires 0 <= i < |batches| => AddOp(agentId, t, batches[i]))
  }

  /** Writing the batches one after the other appends their concatenation. */
  lemma {:induction false} FoldAddOps(entries: seq<StoredDocument>, agentId: string, t: VectorType, batches: seq<seq<Document>>)
    ensures Fold(entries, AddOps(agentId, t, batches)) == entries + Stamp(agentId, t, SeqUtil.Flatten(batches))
    decreases |batches|
  {
    if |batches| == 0 {
      assert Stamp(agentId, t, []) == [];
    } else {
      var ops := AddOps(agentId, t, batches);
      assert ops[1..] == AddOps(agentId, t, batches[1..]);
      FoldAddOps(entries + Stamp(agentId, t, batches[0]), agentId, t, batches[1..]);
      StampAppend(agentId, t, batches[0], SeqUtil.Flatten(batches[1..]));
    }
  }

  /** A single write: the call's exception, or the write done. */
  lemma RunOne(entries: seq<StoredDocument>, op: StoreOp, outcome: nat -> Option<JavaError>, calls: nat)
    ensures Run(entries, [op], outcome, calls) ==
            if outcome(calls).Some? then Progress(entries, calls + 1, outcome(calls))
            else Progress(ApplyOp(entries, op), calls + 1, None)
  {
    assert [op][1..] == [];
  }

  /** The batches up to i + 1 run as those up to i followed by batch i. */
  lemma AddStep(entries: seq<StoredDocument>, agentId: string, t: VectorType, batches: seq<seq<Document>>, i: nat,
                outcome: nat -> Option<JavaError>, calls: nat, e: seq<StoredDocument>, c: nat)
    requires i < |batches|
    requires Run(entries, AddOps(agentId, t, batches[..i]), outcome, calls) == Progress(e, c, None)
    ensures Run(entries, AddOps(agentId, t, batches[..i + 1]), outcome, calls) ==
            if outcome(c).Some? then Progress(e, c + 1, outcome(c))
            else Progress(e + Stamp(agentId, t, batches[i]), c + 1, None)
  {
    var before := AddOps(agentId, t, batches[..i]);
    var op := AddOp(agentId, t, batches[i]);
    assert AddOps(agentId, t, batches[..i + 1]) == before + [op];
    RunAppend(entries, before, [op], outcome, calls);
    RunOne(e, op, outcome, c);
  }

  /** A run of batches that failed at batch i ends there. */
  lemma AddStop(entries: seq<StoredDocument>, agentId: string, t: VectorType, batches: seq<seq<Document>>, i: nat,
                outcome: nat -> Option<JavaError>, calls: nat)
    requires i < |batches|
    requires Run(entries, AddOps(agentId, t, batches[..i + 1]), outcome, calls).failure.Some?
    ensures Run(entries, AddOps(agentId, t, batches), outcome, calls) == Run(entries, AddOps(agentId, t, batches[..i + 1]), outcome, calls)
  {
    var a, b := AddOps(agentId, t, batches[..i + 1]), AddOps(agentId, t, batches[i + 1..]);
    assert AddOps(agentId, t, batches) == a + b;
    RunAppend(entries, a, b, outcome, calls);
  }

  /** storeSchemaDocuments' writes: every batch of column documents, then every batch of table documents. */
  function StoreOps(agentId: string, columns: seq<Document>, tables: seq<Document>,
                    batch: seq<Document> -> seq<seq<Document>>): seq<StoreOp>
  {
    AddOps(agentId, ColumnDoc, batch(columns)) + AddOps(agentId, TableDoc, batch(tables))
  }

  lemma FoldStoreOps(entries: seq<StoredDocument>, agentId: string, columns: seq<Document>, tables: seq<Document>,
                     batch: seq<Document> -> seq<seq<Document>>)
    ensures Fold(entries, StoreOps(agentId, columns, tables, batch))
            == entries + Stamp(agentId, ColumnDoc, SeqUtil.Flatten(batch(columns)))
                       + Stamp(agentId, TableDoc, SeqUtil.Flatten(batch(tables)))
  {
    var a, b := AddOps(agentId, ColumnDoc, batch(columns)), AddOps(agentId, TableDoc, batch(tables));
    FoldAppend(entries, a, b);
    FoldAddOps(entries, agentId, ColumnDoc, batch(columns));
    FoldAddOps(Fold(entries, a), agentId, TableDoc, batch(tables));
  }

  lemma {:induction false} FoldAppend(entries: seq<StoredDocument>, a: seq<StoreOp>, b: seq<StoreOp>)
    ensures Fold(entries, a + b) == Fold(Fold(entries, a), b)
    decreases |a|
  {
    if |a| == 0 {
      assert a + b == b;
    } else {
      assert (a + b)[1..] == a[1..] + b;
      FoldAppend(ApplyOp(entries, a[0]), a[1..], b);
    }
  }

  /**
   * The agent's vector store (AgentVectorStoreService) as schema initialisation uses it.
   * `calls` counts the writes made; the write numbered k throws when `outcome(k)` names an exception.
   */
  class AgentVectorStore {
    var entries: seq<StoredDocument>
    var calls: nat
    const outcome: nat -> Option<JavaError>

    constructor (initial: seq<StoredDocument>, outcome: nat -> Option<JavaError>)
      ensures entries == initial && calls == 0 && this.outcome == outcome
    {
      entries := initial;
      calls := 0;
      this.outcome := outcome;
    }

    predicate HasDocuments(agentId: string)
      reads this
    {
      AgentHasDocuments(entries, agentId)
    }

    /** deleteDocumentsByVectorType: the agent's documents of that type go, unless the call throws. */
    method DeleteDocumentsByVectorType(agentId: string, t: VectorType) returns (failure: Option<JavaError>)
      modifies this
      ensures calls == old(calls) + 1 && failure == outcome(old(calls))
      ensures failure.None? ==> entries == Remove(old(entries), agentId, t)
      ensures failure.Some? ==> entries == old(entries)
    {
      failure := outcome(calls);
      calls := calls + 1;
      if failure.None? {
        entries := Remove(entries, agentId, t);
      }
    }

    /** addDocuments: the batch is filed under the agent, unless the call throws. */
    method AddDocuments(agentId: string, t: VectorType, batch: seq<Document>) returns (failure: Option<JavaError>)
      modifies this
      ensures calls == old(calls) + 1 && failure == outcome(old(calls))
      ensures failure.None? ==> entries == old(entries) + Stamp(agentId, t, batch)
      ensures failure.Some? ==> entries == old(entries)
    {
      failure := outcome(calls);
      calls := calls + 1;
      if failure.None? {
        entries := entries + Stamp(agentId, t, batch);
      }
    }

    /** clearSchemaDataForAgent: the two deletes, stopping at the first that throws. */
    method ClearSchemaData(agentId: string) returns (failure: Option<JavaError>)
      modifies this
      ensures Progress(entries, calls, failure) == Run(old(entries), ClearOps(old(entries), agentId), outcome, old(calls))
    {
      ClearRunCases(entries, agentId, outcome, calls);
      if !HasDocuments(agentId) {
        return None;
      }
      failure := DeleteDocumentsByVectorType(agentId, ColumnDoc);
      if failure.Some? {
        return;
      }
      failure := DeleteDocumentsByVectorType(agentId, TableDoc);
    }

    /** Writes the batches one after the other, stopping at the first call that throws. */
    method AddBatches(agentId: string, t: VectorType, batches: seq<seq<Document>>) returns (failure: Option<JavaError>)
      modifies this
      ensures Progress(entries, calls, failure) == Run(old(entries), AddOps(agentId, t, batches), outcome, old(calls))
    {
      var i := 0;
      while i < |batches|
        invariant 0 <= i <= |batches|
        invariant Progress(entries, calls, None) == Run(old(entries), AddOps(agentId, t, batches[..i]), outcome, old(calls))
      {
        AddStep(old(entries), agentId, t, batches, i, outcome, old(calls), entries, calls);
        failure := AddDocuments(agentId, t, batches[i]);
        if failure.Some? {
          AddStop(old(entries), agentId, t, batches, i, outcome, old(calls));
          return;
        }
        i := i + 1;
      }
      assert batches[..|batches|] == batches;
      return None;
    }

    /**
     * storeSchemaDocuments: every batch of column documents, then every batch of table
     * documents; `batch` is the batching strategy. The first call that throws ends it.
     */
    method StoreSchemaDocuments(agentId: string, columns: seq<Document>, tables: seq<Document>,
                                batch: seq<Document> -> seq<seq<Document>>)
      returns (failure: Option<JavaError>)
      modifies this
      ensures Progress(entries, calls, failure) == Run(old(entries), StoreOps(agentId, columns, tables, batch), outcome, old(calls))
    {
      RunAppend(entries, AddOps(agentId, ColumnDoc, batch(columns)), AddOps(agentId, TableDoc, batch(tables)), outcome, calls);
      failure := AddBatches(agentId, ColumnDoc, batch(columns));
      if failure.Some? {
        return;
      }
      failure := AddBatches(agentId, TableDoc, batch(tables));
    }
  }

  // ---------------------------------------------------------------- enrichment in batches

  /**
   * The batch size of the parallel path: ceil(n / parallelism) with parallelism = min(2 * processors, n).
   */
  function ParallelBatchSize(n: nat, processors: nat): (size: nat)
    requires n >= 1 && processors >= 1
    ensures size >= 1
    ensures var p := if 2 * processors < n then 2 * processors else n;
            size * p >= n && (size - 1) * p < n
  {
    var p := if 2 * processors < n then 2 * processors else n;
    (n + p - 1) / p
  }

  /** partitionList: `subList(i, min(i + batchSize, n))` for i = 0, batchSize, 2 * batchSize, ... */
  method PartitionList<T>(list: seq<T>, batchSize: nat) returns (parts: seq<seq<T>>)
    requires batchSize >= 1
    ensures parts == SeqUtil.Slices(list, batchSize)
  {
    parts := [];
    var i := 0;
    while i < |list|
      invariant 0 <= i
      invariant i < |list| ==> parts + SeqUtil.Slices(list[i..], batchSize) == SeqUtil.Slices(list, batchSize)
      invariant i >= |list| ==> parts == SeqUtil.Slices(list, batchSize)
      decreases |list| - i
    {
      var end := if i + batchSize < |list| then i + batchSize else |list|;
      var rest := list[i..];
      if end == |list| {
        assert SeqUtil.Slices(rest, batchSize) == [rest];
        assert list[i..end] == rest;
      } else {
        assert SeqUtil.Slices(rest, batchSize) == [rest[..batchSize]] + SeqUtil.Slices(rest[batchSize..], batchSize);
        assert rest[..batchSize] == list[i..end] && rest[batchSize..] == list[end..];
      }
      parts := parts + [list[i..end]];
      i := i + batchSize;
    }
    if |list| == 0 {
      assert parts == [] == SeqUtil.Slices(list, batchSize);
    }
  }

  /**
   * processTablesInParallel: the tables cut into batches, each batch enriched by
   * batchEnrichTableMetadata; any failing batch fails the whole step.
   */
  method ProcessTablesInParallel(tables: seq<TableInfo>, processors: nat,
                                 showColumns: string -> Result<seq<ColumnInfo>>, isSqlServer: bool,
                                 query: string -> Result<Option<seq<Row>>>, foreignKeyMap: map<string, seq<string>>)
    returns (r: Result<seq<TableInfo>>)
    requires |tables| >= 1 && processors >= 1
    ensures var whole := TableMetadata.EnrichAll(tables, showColumns, isSqlServer, query, foreignKeyMap);
            (r.Ok? <==> whole.Ok?) && (r.Ok? ==> r.value == whole.value)
  {
    var batchSize := ParallelBatchSize(|tables|, processors);
    var batches := PartitionList(tables, batchSize);
    SeqUtil.SlicesSpec(tables, batchSize);
    var done: seq<TableInfo> := [];
    var i := 0;
    while i < |batches|
      invariant 0 <= i <= |batches|
      invariant TableMetadata.EnrichAll(SeqUtil.Flatten(batches[..i]), showColumns, isSqlServer, query, foreignKeyMap) == Ok(done)
    {
      var part := TableMetadata.BatchEnrichTableMetadata(batches[i], showColumns, isSqlServer, query, foreignKeyMap);
      SeqUtil.FlattenSnoc(batches[..i], batches[i]);
      assert batches[..i + 1] == batches[..i] + [batches[i]];
      TableMetadata.EnrichAllAppend(SeqUtil.Flatten(batches[..i]), batches[i], showColumns, isSqlServer, query, foreignKeyMap);
      if part.Err? {
        SuffixFails(batches, i, showColumns, isSqlServer, query, foreignKeyMap);
        return Err(part.error);
      }
      done := done + part.value;
      i := i + 1;
    }
    assert batches[..|batches|] == batches;
    return Ok(done);
  }

  /** A failing batch fails the enrichment of the whole list. */
  lemma SuffixFails(batches: seq<seq<TableInfo>>, i: nat,
                    showColumns: string -> Result<seq<ColumnInfo>>, isSqlServer: bool,
                    query: string -> Result<Option<seq<Row>>>, foreignKeyMap: map<string, seq<string>>)
    requires i < |batches|
    requires TableMetadata.EnrichAll(SeqUtil.Flatten(batches[..i + 1]), showColumns, isSqlServer, query, foreignKeyMap).Err?
    ensures TableMetadata.EnrichAll(SeqUtil.Flatten(batches), showColumns, isSqlServer, query, foreignKeyMap).Err?
  {
    PrefixFails(batches, i + 1, TableMetadata.EnrichStep(showColumns, isSqlServer, query, foreignKeyMap));
  }

  lemma PrefixFails<A, B>(batches: seq<seq<A>>, n: nat, f: A -> Result<B>)
    requires n <= |batches| && MapResult(SeqUtil.Flatten(batches[..n]), f).Err?
    ensures MapResult(SeqUtil.Flatten(batches), f).Err?
  {
    var front, back := batches[..n], batches[n..];
    assert batches == front + back;
    SeqUtil.FlattenAppend(front, back);
    MapResultAppend(SeqUtil.Flatten(front), SeqUtil.Flatten(back), f);
  }

  // ---------------------------------------------------------------- schema initialisation

  /** What the dialect accessor yields for one data source: its foreign keys, tables, columns and sample rows. */
  datatype SchemaSource = SchemaSource(
    foreignKeys: Result<seq<ForeignKeyInfo>>,
    tables: Result<seq<TableInfo>>,
    showColumns: string -> Result<seq<ColumnInfo>>,
    isSqlServer: bool,
    sampleQuery: string -> Result<Option<seq<Row>>>)

  /** The enriched tables of a source, or the first failure on the way. */
  function EnrichedTables(src: SchemaSource): Result<seq<TableInfo>>
  {
    if src.foreignKeys.Err? then Err(src.foreignKeys.error)
    else if src.tables.Err? then Err(src.tables.error)
    else TableMetadata.EnrichAll(src.tables.value, src.showColumns, src.isSqlServer, src.sampleQuery,
                                 SchemaService.ForeignKeyMap(src.foreignKeys.value))
  }

  /** The store entries a successful initialisation leaves. */
  function Stored(entries: seq<StoredDocument>, agentId: string, columnDocs: seq<Document>, tableDocs: seq<Document>,
                  batch: seq<Document> -> seq<seq<Document>>): seq<StoredDocument>
  {
    Cleared(entries, agentId) + Stamp(agentId, ColumnDoc, SeqUtil.Flatten(batch(columnDocs)))
                              + Stamp(agentId, TableDoc, SeqUtil.Flatten(batch(tableDocs)))
  }

  /** The progress of clearing the agent's old documents. */
  function ClearRun(entries: seq<StoredDocument>, agentId: string, outcome: nat -> Option<JavaError>, calls: nat): Progress
  {
    Run(entries, ClearOps(entries, agentId), outcome, calls)
  }

  /** The progress of storing the documents of the enriched tables after a successful clear. */
  function StoreRun(cleared: Progress, agentId: string, enriched: seq<TableInfo>,
                    convertColumns: seq<TableInfo> -> seq<Document>, convertTables: seq<TableInfo> -> seq<Document>,
                    batch: seq<Document> -> seq<seq<Document>>, outcome: nat -> Option<JavaError>): Progress
  {
    Run(cleared.entries, StoreOps(agentId, convertColumns(enriched), convertTables(enriched), batch), outcome, cleared.calls)
  }

  /**
   * schema: false without touching the store when no accessor fits the configuration; otherwise
   * the old schema documents are cleared first. Any exception on the way (a store call that
   * throws, a failed read or enrichment) gives false and leaves the store as far as it got; the
   * result is true exactly when clearing, reading, enriching and every write succeed.
   */
  method Schema(store: AgentVectorStore, agentId: string, accessor: Result<SchemaSource>, processors: nat,
                convertColumns: seq<TableInfo> -> seq<Document>, convertTables: seq<TableInfo> -> seq<Document>,
                batch: seq<Document> -> seq<seq<Document>>)
    returns (ok: bool)
    requires processors >= 1
    modifies store
    ensures accessor.Err? ==> !ok && store.entries == old(store.entries) && store.calls == old(store.calls)
    ensures accessor.Ok? ==>
              var cleared := ClearRun(old(store.entries), agentId, store.outcome, old(store.calls));
              (cleared.failure.Some? || EnrichedTables(accessor.value).Err?) ==> !ok && store.entries == cleared.entries
    ensures accessor.Ok? ==>
              var cleared := ClearRun(old(store.entries), agentId, store.outcome, old(store.calls));
              var enriched := EnrichedTables(accessor.value);
              cleared.failure.None? && enriched.Ok? ==>
                var stored := StoreRun(cleared, agentId, enriched.value, convertColumns, convertTables, batch, store.outcome);
                (ok <==> stored.failure.None?) && store.entries == stored.entries
  {
    if accessor.Err? {
      return false;
    }
    var src := accessor.value;
    var failure := store.ClearSchemaData(agentId);
    if failure.Some? {
      return false;
    }
    if src.foreignKeys.Err? {
      return false;
    }
    var foreignKeyMap := SchemaService.BuildForeignKeyMap(src.foreignKeys.value);
    if src.tables.Err? {
      return false;
    }
    var tables := src.tables.value;
    var enriched: Result<seq<TableInfo>>;
    if |tables| > 5 {
      enriched := ProcessTablesInParallel(tables, processors, src.showColumns, src.isSqlServer, src.sampleQuery, foreignKeyMap);
    } else {
      enriched := TableMetadata.BatchEnrichTableMetadata(tables, src.showColumns, src.isSqlServer, src.sampleQuery, foreignKeyMap);
    }
    if enriched.Err? {
      return false;
    }
    var columnDocs := convertColumns(enriched.value);
    var tableDocs := convertTables(enriched.value);
    failure := store.StoreSchemaDocuments(agentId, columnDocs, tableDocs, batch);
    return failure.None?;
  }

  /**
   * A successful initialisation leaves the entries clearing kept followed by the agent's new
   * column and table documents.
   */
  lemma SuccessStores(entries: seq<StoredDocument>, agentId: string, enriched: seq<TableInfo>,
                      convertColumns: seq<TableInfo> -> seq<Document>, convertTables: seq<TableInfo> -> seq<Document>,
                      batch: seq<Document> -> seq<seq<Document>>, outcome: nat -> Option<JavaError>, calls: nat)
    requires ClearRun(entries, agentId, outcome, calls).failure.None?
    requires StoreRun(ClearRun(entries, agentId, outcome, calls), agentId, enriched, convertColumns, convertTables, batch, outcome).failure.None?
    ensures StoreRun(ClearRun(entries, agentId, outcome, calls), agentId, enriched, convertColumns, convertTables, batch, outcome).entries
            == Stored(entries, agentId, convertColumns(enriched), convertTables(enriched), batch)
  {
    var cleared := ClearRun(entries, agentId, outcome, calls);
    RunAsFarAsItGot(entries, ClearOps(entries, agentId), outcome, calls);
    FoldClearOps(entries, agentId);
    var ops := StoreOps(agentId, convertColumns(enriched), convertTables(enriched), batch);
    RunAsFarAsItGot(cleared.entries, ops, outcome, cleared.calls);
    FoldStoreOps(cleared.entries, agentId, convertColumns(enriched), convertTables(enriched), batch);
  }

  /**
   * With a store whose calls never throw, the result is true exactly when reading and enriching
   * succeed, and the store is then the cleared entries plus the new documents.
   */
  lemma ReliableStore(entries: seq<StoredDocument>, agentId: string, enriched: seq<TableInfo>,
                      convertColumns: seq<TableInfo> -> seq<Document>, convertTables: seq<TableInfo> -> seq<Document>,
                      batch: seq<Document> -> seq<seq<Document>>, outcome: nat -> Option<JavaError>, calls: nat)
    requires forall k :: outcome(k).None?
    ensures ClearRun(entries, agentId, outcome, calls) ==
            Progress(Cleared(entries, agentId), calls + |ClearOps(entries, agentId)|, None)
    ensures StoreRun(ClearRun(entries, agentId, outcome, calls), agentId, enriched, convertColumns, convertTables, batch, outcome).failure.None?
  {
    RunWithoutFailures(entries, ClearOps(entries, agentId), outcome, calls);
    FoldClearOps(entries, agentId);
    var cleared := ClearRun(entries, agentId, outcome, calls);
    RunWithoutFailures(cleared.entries, StoreOps(agentId, convertColumns(enriched), convertTables(enriched), batch), outcome, cleared.calls);
  }

  /**
   * With a batching strategy that loses and reorders nothing, a successful initialisation stores
   * the agent's column documents and then its table documents, each exactly once, after the
   * entries clearing kept.
   */
  lemma StoredInOrder(entries: seq<StoredDocument>, agentId: string, columnDocs: seq<Document>, tableDocs: seq<Document>,
                      batch: seq<Document> -> seq<seq<Document>>)
    requires SeqUtil.Flatten(batch(columnDocs)) == columnDocs && SeqUtil.Flatten(batch(tableDocs)) == tableDocs
    ensures var r := Stored(entries, agentId, columnDocs, tableDocs, batch);
            var k := |Cleared(entries, agentId)|;
            |r| == k + |columnDocs| + |tableDocs|
            && (forall i :: 0 <= i < |columnDocs| ==> r[k + i] == StoredDocument(agentId, ColumnDoc, columnDocs[i]))
            && (forall i :: 0 <= i < |tableDocs| ==> r[k + |columnDocs| + i] == StoredDocument(agentId, TableDoc, tableDocs[i]))
  {
    var cleared := Cleared(entries, agentId);
    var c := Stamp(agentId, ColumnDoc, columnDocs);
    var t := Stamp(agentId, TableDoc, tableDocs);
    var r := cleared + c + t;
    assert Stored(entries, agentId, columnDocs, tableDocs, batch) == r;
    forall i | 0 <= i < |columnDocs| ensures r[|cleared| + i] == StoredDocument(agentId, ColumnDoc, columnDocs[i]) {
      assert r[|cleared| + i] == c[i];
    }
    forall i | 0 <= i < |tableDocs| ensures r[|cleared| + |columnDocs| + i] == StoredDocument(agentId, TableDoc, tableDocs[i]) {
      assert r[|cleared| + |columnDocs| + i] == t[i];
    }
  }
}
