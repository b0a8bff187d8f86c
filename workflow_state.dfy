/**
 * The slice of the workflow graph's shared state that the planning nodes and the edge
 * dispatchers read and write. Each key is a field; a node's result (the map of keys it puts)
 * is a value of the same shape in which the keys it does not put are None, and the graph
 * merges it into the state key by key.
 */
module WorkflowState {
  import opened Wrappers

  // ---------------------------------------------------------------- node names

  /** The graph's end marker (StateGraph.END). */
  const END := "__END__"
  const PLANNER_NODE := "PLANNER_NODE"
  const PLAN_EXECUTOR_NODE := "PLAN_EXECUTOR_NODE"
  const SQL_GENERATE_NODE := "SQL_GENERATE_NODE"
  const PYTHON_GENERATE_NODE := "PYTHON_GENERATE_NODE"
  const PYTHON_ANALYZE_NODE := "PYTHON_ANALYZE_NODE"
  const REPORT_GENERATOR_NODE := "REPORT_GENERATOR_NODE"
  const HUMAN_FEEDBACK_NODE := "HUMAN_FEEDBACK_NODE"
  const SEMANTIC_CONSISTENCY_NODE := "SEMANTIC_CONSISTENCY_NODE"
  const TABLE_RELATION_NODE := "TABLE_RELATION_NODE"
  const FEASIBILITY_ASSESSMENT_NODE := "FEASIBILITY_ASSESSMENT_NODE"
  const SCHEMA_RECALL_NODE := "SCHEMA_RECALL_NODE"
  const EVIDENCE_RECALL_NODE := "EVIDENCE_RECALL_NODE"

  // ---------------------------------------------------------------- values held in the state

  /** A value of the human feedback map: a Boolean, or any other object by its toString. */
  datatype FeedbackValue = BoolValue(b: bool) | TextValue(text: string)

  /** QueryEnhanceOutputDTO: the fields the dispatcher looks at. */
  datatype QueryEnhanceOutput = QueryEnhanceOutput(canonicalQuery: Option<string>, expandedQueries: Option<seq<string>>)

  /** IntentRecognitionOutputDTO: the classification label. */
  datatype IntentRecognitionOutput = IntentRecognitionOutput(classification: Option<string>)

  /** A step's parameters, ExecutionStep.ToolParameters. */
  datatype ToolParameters = ToolParameters(instruction: Option<string>, summaryAndRecommendations: Option<string>)

  /** ExecutionStep: its number, the node it runs and the node's parameters. */
  datatype ExecutionStep = ExecutionStep(step: int, toolToUse: Option<string>, toolParameters: Option<ToolParameters>)

  /** Plan: the list of execution steps (null when the planner gave none). */
  datatype Plan = Plan(executionPlan: Option<seq<ExecutionStep>>)

  /** The state keys read or written here, each with the type of value it holds; None is an absent key. */
  datatype GraphState = GraphState(
    plannerNodeOutput: Option<string>,
    planCurrentStep: Option<int>,
    planRepairCount: Option<int>,
    planValidationStatus: Option<bool>,
    planValidationError: Option<string>,
    planNextNode: Option<string>,
    humanReviewEnabled: Option<bool>,
    humanNextNode: Option<string>,
    humanFeedbackData: Option<map<string, FeedbackValue>>,
    isOnlyNl2Sql: Option<bool>,
    pythonFallbackMode: Option<bool>,
    pythonIsSuccess: Option<bool>,
    pythonTriesCount: Option<int>,
    sqlGenerateOutput: Option<string>,
    sqlGenerateCount: Option<int>,
    tableRelationExceptionOutput: Option<string>,
    tableRelationRetryCount: Option<int>,
    tableRelationOutput: Option<string>,
    queryEnhanceNodeOutput: Option<QueryEnhanceOutput>,
    intentRecognitionNodeOutput: Option<IntentRecognitionOutput>)

  /** The empty state, and the empty node result that puts no key. */
  const EMPTY := GraphState(None, None, None, None, None, None, None, None, None, None,
                            None, None, None, None, None, None, None, None, None, None)

  /** The state after a node's result is merged in: every key the node put replaces the old value. */
  function Merge(s: GraphState, u: GraphState): GraphState
  {
    GraphState(
      u.plannerNodeOutput.Or(s.plannerNodeOutput),
      u.planCurrentStep.Or(s.planCurrentStep),
      u.planRepairCount.Or(s.planRepairCount),
      u.planValidationStatus.Or(s.planValidationStatus),
      u.planValidationError.Or(s.planValidationError),
      u.planNextNode.Or(s.planNextNode),
      u.humanReviewEnabled.Or(s.humanReviewEnabled),
      u.humanNextNode.Or(s.humanNextNode),
      u.humanFeedbackData.Or(s.humanFeedbackData),
      u.isOnlyNl2Sql.Or(s.isOnlyNl2Sql),
      u.pythonFallbackMode.Or(s.pythonFallbackMode),
      u.pythonIsSuccess.Or(s.pythonIsSuccess),
      u.pythonTriesCount.Or(s.pythonTriesCount),
      u.sqlGenerateOutput.Or(s.sqlGenerateOutput),
      u.sqlGenerateCount.Or(s.sqlGenerateCount),
      u.tableRelationExceptionOutput.Or(s.tableRelationExceptionOutput),
      u.tableRelationRetryCount.Or(s.tableRelationRetryCount),
      u.tableRelationOutput.Or(s.tableRelationOutput),
      u.queryEnhanceNodeOutput.Or(s.queryEnhanceNodeOutput),
      u.intentRecognitionNodeOutput.Or(s.intentRecognitionNodeOutput))
  }

  /** A node result that puts no key leaves the state as it was. */
  lemma MergeNothing(s: GraphState)
    ensures Merge(s, EMPTY) == s
  {
  }

  /**
   * Merging two node results one after the other is merging them into each other first, the
   * later one winning on every key both put: the order of the results is all that matters.
   */
  lemma MergeInOrder(s: GraphState, u: GraphState, v: GraphState)
    ensures Merge(Merge(s, u), v) == Merge(s, Merge(u, v))
  {
  }

  /** PLAN_REPAIR_COUNT, 0 when unset. */
  function RepairCount(s: GraphState): (r: int)
    ensures s.planRepairCount.None? ==> r == 0
  {
    s.planRepairCount.UnwrapOr(0)
  }
}
