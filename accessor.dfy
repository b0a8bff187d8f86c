/**
 * AbstractAccessor: every database operation runs through accessDb, which opens a pooled
 * connection, dispatches on the operation name to the dialect's DDL executor, and closes the
 * connection again whatever happens.
 */
module Accessor {
  import opened Wrappers

  /** The operations accessDb knows. */
  datatype Operation =
    | ShowDatabases | ShowSchemas | ShowTables | FetchTables | ShowColumns
    | ShowForeignKeys | SampleColumn | ScanTable | ExecuteSqlAndReturnObject

  /** The name each typed wrapper passes to accessDb. */
  function OperationName(op: Operation): string
  {
    match op
    case ShowDatabases => "showDatabases"
    case ShowSchemas => "showSchemas"
    case ShowTables => "showTables"
    case FetchTables => "fetchTables"
    case ShowColumns => "showColumns"
    case ShowForeignKeys => "showForeignKeys"
    case SampleColumn => "sampleColumn"
    case ScanTable => "scanTable"
    case ExecuteSqlAndReturnObject => "executeSqlAndReturnObject"
  }

  /** The switch of accessDb: the operation a name selects, or none for an unknown name. */
  function ParseOperation(name: string): (r: Option<Operation>)
    ensures r.Some? ==> OperationName(r.value) == name
  {
    match name
    case "showDatabases" => Some(ShowDatabases)
    case "showSchemas" => Some(ShowSchemas)
    case "showTables" => Some(ShowTables)
    case "fetchTables" => Some(FetchTables)
    case "showColumns" => Some(ShowColumns)
    case "showForeignKeys" => Some(ShowForeignKeys)
    case "sampleColumn" => Some(SampleColumn)
    case "scanTable" => Some(ScanTable)
    case "executeSqlAndReturnObject" => Some(ExecuteSqlAndReturnObject)
    case _ => None
  }

  /** Every wrapper's name selects its own operation, so the names are all different. */
  lemma OperationNameParses(op: Operation)
    ensures ParseOperation(OperationName(op)) == Some(op)
  {
  }

  lemma OperationNamesDistinct(a: Operation, b: Operation)
    requires OperationName(a) == OperationName(b)
    ensures a == b
  {
    OperationNameParses(a);
    OperationNameParses(b);
  }

  /** Only showDatabases and showSchemas run without reading the query parameter. */
  predicate ReadsParameter(op: Operation)
  {
    op != ShowDatabases && op != ShowSchemas
  }

  /**
   * The body of the switch for an open connection: an unknown name throws
   * UnsupportedOperationException, a null parameter read by the operation throws
   * NullPointerException, and otherwise the executor's result or exception is passed on unchanged.
   */
  function Dispatch<P, T>(name: string, param: Option<P>, execute: (Operation, Option<P>) -> Result<T>): (r: Result<T>)
    ensures ParseOperation(name).None? ==> r == Err(UnsupportedOperation("Unknown method: " + name))
    ensures ParseOperation(name).Some? && ReadsParameter(ParseOperation(name).value) && param.None? ==> r == Err(NullPointer)
    ensures ParseOperation(name).Some? && (!ReadsParameter(ParseOperation(name).value) || param.Some?) ==>
              r == execute(ParseOperation(name).value, param)
  {
    match ParseOperation(name)
    case None => Err(UnsupportedOperation("Unknown method: " + name))
    case Some(op) => if ReadsParameter(op) && param.None? then Err(NullPointer) else execute(op, param)
  }

  /** What happens to pooled connections. */
  datatype Event = Acquired | Executed(op: Operation) | Released

  /** The connection life-cycle of one accessor, as a log of events. */
  class ConnectionLog {
    var events: seq<Event>

    constructor ()
      ensures events == []
    {
      events := [];
    }

    /**
     * accessDb: a connection that cannot be obtained ends the call with the pool's exception and
     * nothing else happens; otherwise the connection is released on every path, after the
     * executor ran if it ran at all, and the result is the dispatch's.
     */
    method AccessDb<P, T>(connection: Result<()>, executor: Result<()>, name: string, param: Option<P>,
                          execute: (Operation, Option<P>) -> Result<T>)
      returns (r: Result<T>)
      modifies this
      ensures connection.Err? ==> r == Err(connection.error) && events == old(events)
      ensures connection.Ok? && executor.Err? ==> r == Err(executor.error) && events == old(events) + [Acquired, Released]
      ensures connection.Ok? && executor.Ok? ==> r == Dispatch(name, param, execute)
      ensures connection.Ok? && executor.Ok? ==>
                events == old(events) + [Acquired] + Ran(name, param) + [Released]
    {
      if connection.Err? {
        return Err(connection.error);
      }
      events := events + [Acquired];
      if executor.Err? {
        events := events + [Released];
        return Err(executor.error);
      }
      var op := ParseOperation(name);
      if op.None? {
        r := Err(UnsupportedOperation("Unknown method: " + name));
      } else if ReadsParameter(op.value) && param.None? {
        r := Err(NullPointer);
      } else {
        events := events + [Executed(op.value)];
        r := execute(op.value, param);
      }
      events := events + [Released];
    }

    /**
     * The typed wrappers: each calls accessDb with its own operation name; showDatabases and
     * showSchemas pass a null parameter.
     */
    method Call<P, T>(op: Operation, connection: Result<()>, executor: Result<()>, param: Option<P>,
                      execute: (Operation, Option<P>) -> Result<T>)
      returns (r: Result<T>)
      modifies this
      ensures connection.Ok? && executor.Ok? && (param.Some? || !ReadsParameter(op)) ==>
                r == execute(op, WrapperParameter(op, param))
                && events == old(events) + [Acquired, Executed(op), Released]
      ensures connection.Ok? && executor.Ok? && param.None? && ReadsParameter(op) ==>
                r == Err(NullPointer) && events == old(events) + [Acquired, Released]
      ensures connection.Err? ==> r == Err(connection.error) && events == old(events)
    {
      OperationNameParses(op);
      r := AccessDb(connection, executor, OperationName(op), WrapperParameter(op, param), execute);
    }
  }

  /** The events of the dispatch itself: the executor runs only for a known name with the parameter it needs. */
  function Ran<P>(name: string, param: Option<P>): (r: seq<Event>)
    ensures |r| <= 1
    ensures r != [] <==> ParseOperation(name).Some? && (!ReadsParameter(ParseOperation(name).value) || param.Some?)
  {
    match ParseOperation(name)
    case None => []
    case Some(op) => if ReadsParameter(op) && param.None? then [] else [Executed(op)]
  }

  /** The parameter a wrapper passes on: null for showDatabases and showSchemas. */
  function WrapperParameter<P>(op: Operation, param: Option<P>): (r: Option<P>)
    ensures ReadsParameter(op) ==> r == param
    ensures !ReadsParameter(op) ==> r.None?
  {
    if ReadsParameter(op) then param else None
  }
}
