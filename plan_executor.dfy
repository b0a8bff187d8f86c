/**
 * The plan execution node: it validates the planner's plan before every step and, when the
 * plan is sound, names the node that runs the current step.
 */
module PlanExecutor {
  import opened Wrappers
  import opened JavaText
  import opened WorkflowState
  import opened PlanProcess

  /** The nodes a plan step may name. */
  const SUPPORTED_NODES: set<string> := {SQL_GENERATE_NODE, PYTHON_GENERATE_NODE, REPORT_GENERATOR_NODE}

  // The validation messages.
  const INVALID_TOOL := "Validation failed: Plan contains an invalid tool name: '"
  const MISSING_PARAMETERS := "Validation failed: Tool parameters are missing for step "
  const MISSING_SQL_INSTRUCTION := "Validation failed: SQL generation node is missing description in step "
  const MISSING_PYTHON_INSTRUCTION := "Validation failed: Python generation node is missing instruction in step "
  const MISSING_SUMMARY := "Validation failed: Report generation node is missing summary_and_recommendations in step "
  const NOT_JSON := "Validation failed: The plan is not a valid JSON structure. Error: "
  const NO_STEPS := "Validation failed: The generated plan is empty or has no execution steps."

  /** Spring's StringUtils.hasText on a possibly null string. */
  predicate HasTextOpt(s: Option<string>)
  {
    s.Some? && HasText(s.value)
  }

  /** What a sound step looks like: a supported node, parameters, and the text that node needs. */
  predicate StepSound(step: ExecutionStep)
  {
    step.toolToUse.Some? && step.toolToUse.value in SUPPORTED_NODES
    && step.toolParameters.Some?
    && (if step.toolToUse.value == REPORT_GENERATOR_NODE
        then HasTextOpt(step.toolParameters.value.summaryAndRecommendations)
        else HasTextOpt(step.toolParameters.value.instruction))
  }

  /** validateExecutionStep: the reason a step is rejected, or None when it passes. */
  function ValidateExecutionStep(step: ExecutionStep): (r: Option<string>)
    ensures r.None? <==> StepSound(step)
  {
    var n := IntToString(step.step);
    if step.toolToUse.None? || step.toolToUse.value !in SUPPORTED_NODES then
      Some(INVALID_TOOL + NullText(step.toolToUse) + "' in step " + n)
    else if step.toolParameters.None? then
      Some(MISSING_PARAMETERS + n)
    else
      var tool := step.toolToUse.value;
      var parameters := step.toolParameters.value;
      if tool == SQL_GENERATE_NODE && !HasTextOpt(parameters.instruction) then
        Some(MISSING_SQL_INSTRUCTION + n)
      else if tool == PYTHON_GENERATE_NODE && !HasTextOpt(parameters.instruction) then
        Some(MISSING_PYTHON_INSTRUCTION + n)
      else if tool == REPORT_GENERATOR_NODE && !HasTextOpt(parameters.summaryAndRecommendations) then
        Some(MISSING_SUMMARY + n)
      else None
  }

  /** The position of the first rejected step, or -1 when every step passes. */
  function FirstRejected(steps: seq<ExecutionStep>): (i: int)
    ensures -1 <= i < |steps|
    ensures i == -1 <==> forall k :: 0 <= k < |steps| ==> StepSound(steps[k])
    ensures i >= 0 ==> !StepSound(steps[i]) && forall k :: 0 <= k < i ==> StepSound(steps[k])
  {
    if |steps| == 0 then -1
    else if !StepSound(steps[0]) then 0
    else
      var j := FirstRejected(steps[1..]);
      if j == -1 then -1 else j + 1
  }

  /** validateExecutionPlanStructure: a step list that is present and not empty. */
  predicate HasSteps(plan: Plan)
  {
    plan.executionPlan.Some? && |plan.executionPlan.value| > 0
  }

  /** The message of an exception thrown while reading the plan ("null" when it has none). */
  function MessageOf(e: JavaError): string
  {
    match e
    case IllegalArgument(m) => m
    case IllegalState(m) => m
    case UnsupportedOperation(m) => m
    case Runtime(m) => m
    case NumberFormat(m) => m
    case _ => "null"
  }

  /** buildValidationResult(state, false, message): the failure, with PLAN_REPAIR_COUNT one higher. */
  function Rejected(s: GraphState, message: string): (u: GraphState)
  {
    EMPTY.(planValidationStatus := Some(false), planValidationError := Some(message),
           planRepairCount := Some(RepairCount(s) + 1))
  }

  /**
   * determineNextNode: a supported node or the human feedback node becomes the next node; any
   * other name is reported as unsupported. A null name makes Set.contains throw.
   */
  function DetermineNextNode(toolToUse: Option<string>): (r: Result<GraphState>)
    ensures toolToUse.None? ==> r == Err(NullPointer)
    ensures toolToUse.Some? && (toolToUse.value in SUPPORTED_NODES || toolToUse.value == HUMAN_FEEDBACK_NODE) ==>
              r == Ok(EMPTY.(planNextNode := toolToUse, planValidationStatus := Some(true)))
    ensures r.Ok? && r.value.planValidationStatus == Some(false) ==>
              toolToUse.value !in SUPPORTED_NODES && toolToUse.value != HUMAN_FEEDBACK_NODE
  {
    match toolToUse
    case None => Err(NullPointer)
    case Some(tool) =>
      if tool in SUPPORTED_NODES || tool == HUMAN_FEEDBACK_NODE then
        Ok(EMPTY.(planNextNode := Some(tool), planValidationStatus := Some(true)))
      else
        Ok(EMPTY.(planValidationStatus := Some(false), planValidationError := Some("Unsupported node type: " + tool)))
  }

  /**
   * apply: validate the plan (it must parse, have steps, and every step must pass), then
   * route: to human feedback while review is enabled, to the end or the report once every step
   * has run (resetting the step to 1), and otherwise to the node of the current step.
   */
  function Apply(s: GraphState, convert: string -> Result<Option<Plan>>): (r: Result<GraphState>)
  {
    match GetPlan(s, convert)
    case Err(e) => Ok(Rejected(s, NOT_JSON + MessageOf(e)))
    case Ok(plan) =>
      if !HasSteps(plan) then
        Ok(Rejected(s, NO_STEPS))
      else
        var steps := plan.executionPlan.value;
        var bad := FirstRejected(steps);
        if bad >= 0 then Ok(Rejected(s, ValidateExecutionStep(steps[bad]).value))
        else if s.humanReviewEnabled == Some(true) then
          Ok(EMPTY.(planValidationStatus := Some(true), planNextNode := Some(HUMAN_FEEDBACK_NODE)))
        else
          var currentStep := GetCurrentStepNumber(s);
          var isOnlyNl2Sql := s.isOnlyNl2Sql.UnwrapOr(false);
          if currentStep > |steps| then
            Ok(EMPTY.(planCurrentStep := Some(1), planNextNode := Some(if isOnlyNl2Sql then END else REPORT_GENERATOR_NODE),
                      planValidationStatus := Some(true)))
          else if currentStep < 1 then Err(IndexOutOfBounds)
          else DetermineNextNode(steps[currentStep - 1].toolToUse)
  }

  /** The plan passes validation: it parses, has steps, and every step is sound. */
  predicate PlanSound(s: GraphState, convert: string -> Result<Option<Plan>>)
  {
    var p := GetPlan(s, convert);
    p.Ok? && HasSteps(p.value) && forall k :: 0 <= k < |p.value.executionPlan.value| ==> StepSound(p.value.executionPlan.value[k])
  }

  /**
   * Validation passes exactly for a sound plan, and every failure carries a repair count one
   * higher than before: the "unsupported node" answer of determineNextNode, which does not
   * count a repair, is never given, because validation has already vetted every step's node.
   */
  lemma ApplyValidation(s: GraphState, convert: string -> Result<Option<Plan>>)
    ensures var r := Apply(s, convert);
            r.Ok? ==> r.value.planValidationStatus.Some?
    ensures var r := Apply(s, convert);
            r.Ok? ==> (r.value.planValidationStatus == Some(true) <==> PlanSound(s, convert))
    ensures var r := Apply(s, convert);
            r.Ok? && r.value.planValidationStatus == Some(false) ==> r.value.planRepairCount == Some(RepairCount(s) + 1)
    ensures !PlanSound(s, convert) ==> Apply(s, convert).Ok?
  {
    var p := GetPlan(s, convert);
    if p.Ok? && HasSteps(p.value) {
      var steps := p.value.executionPlan.value;
      if FirstRejected(steps) == -1 && s.humanReviewEnabled != Some(true) {
        var c := GetCurrentStepNumber(s);
        if 1 <= c <= |steps| {
          assert StepSound(steps[c - 1]);
        }
      }
    }
  }

  /**
   * Routing of a sound plan: human feedback while review is on; past the last step, the end
   * (NL2SQL only) or the report with the step reset to 1; a current step below 1 is an index
   * error; otherwise the current step's own node.
   */
  lemma ApplyRoutes(s: GraphState, convert: string -> Result<Option<Plan>>)
    requires PlanSound(s, convert)
    ensures var r := Apply(s, convert);
            var steps := GetPlan(s, convert).value.executionPlan.value;
            var c := GetCurrentStepNumber(s);
            (s.humanReviewEnabled == Some(true) ==> r.Ok? && r.value.planNextNode == Some(HUMAN_FEEDBACK_NODE))
            && (s.humanReviewEnabled != Some(true) && c > |steps| ==>
                  r.Ok? && r.value.planCurrentStep == Some(1)
                  && r.value.planNextNode == Some(if s.isOnlyNl2Sql == Some(true) then END else REPORT_GENERATOR_NODE))
            && (s.humanReviewEnabled != Some(true) && c < 1 ==> r == Err(IndexOutOfBounds))
            && (s.humanReviewEnabled != Some(true) && 1 <= c <= |steps| ==>
                  r.Ok? && r.value.planNextNode == steps[c - 1].toolToUse && steps[c - 1].toolToUse.value in SUPPORTED_NODES)
  {
    var steps := GetPlan(s, convert).value.executionPlan.value;
    var c := GetCurrentStepNumber(s);
    if 1 <= c <= |steps| {
      assert StepSound(steps[c - 1]);
    }
  }
}
