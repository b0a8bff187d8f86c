/**
 * The conditional edges of the workflow graph: each reads the state after a node and names
 * the node to run next.
 */
module Dispatchers {
  import opened Wrappers
  import opened JavaText
  import opened WorkflowState
  import PlanProcess
  import PlanExecutor

  // ---------------------------------------------------------------- plan execution

  const MAX_REPAIR_ATTEMPTS := 2

  /**
   * PlanExecutorDispatcher: a passed validation goes to PLAN_NEXT_NODE (the end when unset or
   * "END"); a failed or missing one goes back to the planner until more than two repairs
   * have been counted, and then ends.
   */
  function PlanExecutorDispatch(s: GraphState): (r: string)
    ensures s.planValidationStatus != Some(true) ==>
              r == (if RepairCount(s) > MAX_REPAIR_ATTEMPTS then END else PLANNER_NODE)
    ensures s.planValidationStatus == Some(true) && s.planNextNode.None? ==> r == END
    ensures s.planValidationStatus == Some(true) && s.planNextNode.Some? ==>
              r == (if s.planNextNode.value == END_TEXT then END else s.planNextNode.value)
  {
    var validationPassed := s.planValidationStatus.UnwrapOr(false);
    if validationPassed then
      var nextNode := s.planNextNode.UnwrapOr(END);
      if nextNode == END_TEXT then END else nextNode
    else if RepairCount(s) > MAX_REPAIR_ATTEMPTS then END
    else PLANNER_NODE
  }

  /** The literal the plan may carry for the end. */
  const END_TEXT := "END"

  /**
   * A plan the execution node rejects goes back to the planner exactly when fewer than two
   * repairs had been counted before it, so with the count starting at 0 a run gets at most
   * three validations of generated plans.
   */
  lemma RejectedPlanRoute(s: GraphState, convert: string -> Result<Option<Plan>>)
    requires !PlanExecutor.PlanSound(s, convert)
    ensures var u := PlanExecutor.Apply(s, convert).value;
            PlanExecutorDispatch(Merge(s, u)) == (if RepairCount(s) >= MAX_REPAIR_ATTEMPTS then END else PLANNER_NODE)
  {
    PlanExecutor.ApplyValidation(s, convert);
  }

  /**
   * A sound plan, with review off and a current step within the plan, is routed to the node
   * that step names.
   */
  lemma SoundPlanRoute(s: GraphState, convert: string -> Result<Option<Plan>>)
    requires PlanExecutor.PlanSound(s, convert)
    requires s.humanReviewEnabled != Some(true)
    requires var c := s.planCurrentStep.UnwrapOr(1);
             1 <= c <= |PlanProcess.GetPlan(s, convert).value.executionPlan.value|
    ensures var steps := PlanProcess.GetPlan(s, convert).value.executionPlan.value;
            var u := PlanExecutor.Apply(s, convert).value;
            PlanExecutorDispatch(Merge(s, u)) == steps[s.planCurrentStep.UnwrapOr(1) - 1].toolToUse.value
  {
    PlanExecutor.ApplyRoutes(s, convert);
    PlanExecutor.ApplyValidation(s, convert);
  }

  // ---------------------------------------------------------------- Python execution

  /**
   * PythonExecutorDispatcher: fallback mode and success go to the analysis; a failure is
   * retried by regenerating the code until the tries reach the maximum, and then ends.
   */
  function PythonExecutorDispatch(s: GraphState, pythonMaxTriesCount: int): (r: string)
    ensures r in {PYTHON_ANALYZE_NODE, PYTHON_GENERATE_NODE, END}
    ensures r == END <==>
              s.pythonFallbackMode != Some(true) && s.pythonIsSuccess != Some(true)
              && s.pythonTriesCount.UnwrapOr(0) >= pythonMaxTriesCount
    ensures r == PYTHON_GENERATE_NODE <==>
              s.pythonFallbackMode != Some(true) && s.pythonIsSuccess != Some(true)
              && s.pythonTriesCount.UnwrapOr(0) < pythonMaxTriesCount
  {
    if s.pythonFallbackMode.UnwrapOr(false) then PYTHON_ANALYZE_NODE
    else if !s.pythonIsSuccess.UnwrapOr(false) then
      if s.pythonTriesCount.UnwrapOr(0) >= pythonMaxTriesCount then END else PYTHON_GENERATE_NODE
    else PYTHON_ANALYZE_NODE
  }

  // ---------------------------------------------------------------- SQL generation

  /**
   * SqlGenerateDispatcher: no output is retried while the count is below the maximum (an unset
   * count counts as the maximum) and ends otherwise; the output END ends; any other output goes
   * to the semantic consistency check.
   */
  function SqlGenerateDispatch(s: GraphState, maxSqlRetryCount: int): (r: string)
    ensures r in {SQL_GENERATE_NODE, END, SEMANTIC_CONSISTENCY_NODE}
    ensures r == SQL_GENERATE_NODE <==>
              s.sqlGenerateOutput.None? && s.sqlGenerateCount.Some? && s.sqlGenerateCount.value < maxSqlRetryCount
    ensures r == SEMANTIC_CONSISTENCY_NODE <==> s.sqlGenerateOutput.Some? && s.sqlGenerateOutput.value != END
  {
    match s.sqlGenerateOutput
    case None =>
      var currentCount := s.sqlGenerateCount.UnwrapOr(maxSqlRetryCount);
      if currentCount < maxSqlRetryCount then SQL_GENERATE_NODE else END
    case Some(output) =>
      if output == END then END else SEMANTIC_CONSISTENCY_NODE
  }

  // ---------------------------------------------------------------- table relation

  const MAX_RETRY_COUNT := 3
  const RETRYABLE_PREFIX := "RETRYABLE:"

  /** isRetryableError */
  predicate IsRetryableError(errorMessage: string)
  {
    StartsWith(errorMessage, RETRYABLE_PREFIX)
  }

  /**
   * TableRelationDispatcher: a retryable error is retried while fewer than three retries were
   * made, any other error ends; without an error, an output goes on to the feasibility
   * assessment and no output ends.
   */
  function TableRelationDispatch(s: GraphState): (r: string)
    ensures r in {TABLE_RELATION_NODE, END, FEASIBILITY_ASSESSMENT_NODE}
    ensures r == TABLE_RELATION_NODE <==>
              s.tableRelationExceptionOutput.Some? && IsRetryableError(s.tableRelationExceptionOutput.value)
              && s.tableRelationRetryCount.UnwrapOr(0) < MAX_RETRY_COUNT
    ensures r == FEASIBILITY_ASSESSMENT_NODE <==>
              (s.tableRelationExceptionOutput.None? || s.tableRelationExceptionOutput.value == "")
              && s.tableRelationOutput.Some?
  {
    var errorFlag := s.tableRelationExceptionOutput;
    var retryCount := s.tableRelationRetryCount.UnwrapOr(0);
    if errorFlag.Some? && errorFlag.value != "" then
      if IsRetryableError(errorFlag.value) && retryCount < MAX_RETRY_COUNT then TABLE_RELATION_NODE else END
    else if s.tableRelationOutput.Some? then FEASIBILITY_ASSESSMENT_NODE
    else END
  }

  // ---------------------------------------------------------------- query enhancement

  /** String.trim().isEmpty() on a possibly null string counts null as empty. */
  predicate TrimmedEmpty(s: Option<string>)
  {
    s.None? || Trim(s.value) == ""
  }

  /**
   * QueryEnhanceDispatcher: schema recall needs an output with a non-empty canonical query and
   * at least one expanded query; anything less ends the run.
   */
  function QueryEnhanceDispatch(s: GraphState): (r: string)
    ensures r in {END, SCHEMA_RECALL_NODE}
    ensures r == SCHEMA_RECALL_NODE <==>
              s.queryEnhanceNodeOutput.Some?
              && !TrimmedEmpty(s.queryEnhanceNodeOutput.value.canonicalQuery)
              && s.queryEnhanceNodeOutput.value.expandedQueries.Some?
              && |s.queryEnhanceNodeOutput.value.expandedQueries.value| > 0
  {
    match s.queryEnhanceNodeOutput
    case None => END
    case Some(output) =>
      var isCanonicalQueryEmpty := TrimmedEmpty(output.canonicalQuery);
      var isExpandedQueriesEmpty := output.expandedQueries.None? || |output.expandedQueries.value| == 0;
      if isCanonicalQueryEmpty || isExpandedQueriesEmpty then END else SCHEMA_RECALL_NODE
  }

  // ---------------------------------------------------------------- intent recognition

  /** The label the classifier gives to chit-chat and unrelated requests. */
  const CHAT_OR_IRRELEVANT := "《闲聊或无关指令》"

  /**
   * IntentRecognitionDispatcher: a missing or empty classification and the chit-chat label
   * end the run; every other label goes on to evidence recall.
   */
  function IntentRecognitionDispatch(s: GraphState): (r: string)
    ensures r in {END, EVIDENCE_RECALL_NODE}
    ensures r == EVIDENCE_RECALL_NODE <==>
              s.intentRecognitionNodeOutput.Some?
              && !TrimmedEmpty(s.intentRecognitionNodeOutput.value.classification)
              && s.intentRecognitionNodeOutput.value.classification.value != CHAT_OR_IRRELEVANT
  {
    match s.intentRecognitionNodeOutput
    case None => END
    case Some(result) =>
      if TrimmedEmpty(result.classification) then END
      else if result.classification.value == CHAT_OR_IRRELEVANT then END
      else EVIDENCE_RECALL_NODE
  }

  /** An example: a classification padded with spaces is not the chit-chat label, as the comparison is exact. */
  lemma PaddedChatLabelProceeds(s: GraphState)
    requires s.intentRecognitionNodeOutput == Some(IntentRecognitionOutput(Some(" " + CHAT_OR_IRRELEVANT)))
    ensures IntentRecognitionDispatch(s) == EVIDENCE_RECALL_NODE
  {
    var c := " " + CHAT_OR_IRRELEVANT;
    assert c[1] == '《' && c[1] > ' ';
    assert c != CHAT_OR_IRRELEVANT by { assert |c| != |CHAT_OR_IRRELEVANT|; }
  }
}
