/** Reading the plan and its current step out of the workflow state, and recording step results. */
module PlanProcess {
  import opened Wrappers
  import opened JavaText
  import opened WorkflowState

  const STEP_PREFIX := "step_"

  /**
   * getPlan: the planner's output parsed into a plan. `convert` is the JSON bean converter:
   * it fails with the exception it throws, or gives None for a null result.
   */
  function GetPlan(s: GraphState, convert: string -> Result<Option<Plan>>): (r: Result<Plan>)
    ensures s.plannerNodeOutput.None? ==> r == Err(IllegalState("计划节点输出为空"))
    ensures r.Ok? <==> s.plannerNodeOutput.Some? && convert(s.plannerNodeOutput.value).Ok?
                       && convert(s.plannerNodeOutput.value).value.Some?
    ensures r.Ok? ==> Some(r.value) == convert(s.plannerNodeOutput.value).value
  {
    match s.plannerNodeOutput
    case None => Err(IllegalState("计划节点输出为空"))
    case Some(output) =>
      match convert(output)
      case Err(e) => Err(e)
      case Ok(None) => Err(IllegalState("计划解析失败"))
      case Ok(Some(plan)) => Ok(plan)
  }

  /** getCurrentStepNumber: PLAN_CURRENT_STEP, 1 when unset. */
  function GetCurrentStepNumber(s: GraphState): (r: int)
    ensures s.planCurrentStep.None? ==> r == 1
    ensures s.planCurrentStep.Some? ==> r == s.planCurrentStep.value
  {
    s.planCurrentStep.UnwrapOr(1)
  }

  /**
   * getCurrentExecutionStep(plan, currentStep): the step at 1-based position currentStep;
   * an empty or missing step list, or a position outside it, is an IllegalStateException.
   */
  function GetCurrentExecutionStep(plan: Plan, currentStep: int): (r: Result<ExecutionStep>)
    ensures r.Ok? <==> plan.executionPlan.Some? && 1 <= currentStep <= |plan.executionPlan.value|
    ensures r.Ok? ==> r.value == plan.executionPlan.value[currentStep - 1]
    ensures r.Err? ==> r.error.IllegalState?
  {
    match plan.executionPlan
    case None => Err(IllegalState("执行计划为空"))
    case Some(steps) =>
      if |steps| == 0 then Err(IllegalState("执行计划为空"))
      else
        var stepIndex := currentStep - 1;
        if stepIndex < 0 || stepIndex >= |steps| then Err(IllegalState("当前步骤索引超出范围: " + IntToString(stepIndex)))
        else Ok(steps[stepIndex])
  }

  /** The key a step's result is stored under. */
  function StepKey(stepNumber: int): string
  {
    STEP_PREFIX + IntToString(stepNumber)
  }

  /** Different (32-bit) step numbers have different keys. */
  lemma StepKeyInjective(a: int, b: int)
    requires INT_MIN <= a <= INT_MAX && INT_MIN <= b <= INT_MAX
    ensures StepKey(a) == StepKey(b) ==> a == b
  {
    if StepKey(a) == StepKey(b) {
      assert IntToString(a) == StepKey(a)[|STEP_PREFIX|..];
      assert IntToString(b) == StepKey(b)[|STEP_PREFIX|..];
      ParseIntRoundTrip(a);
      ParseIntRoundTrip(b);
    }
  }

  /**
   * addStepResult: a copy of the results with "step_" + n set to the result; every other key
   * keeps its value (the input map itself is a value and cannot change).
   */
  function AddStepResult(existingResults: map<string, string>, stepNumber: int, result: string): (r: map<string, string>)
    ensures r.Keys == existingResults.Keys + {StepKey(stepNumber)}
    ensures r[StepKey(stepNumber)] == result
    ensures forall k :: k in existingResults && k != StepKey(stepNumber) ==> r[k] == existingResults[k]
  {
    existingResults[StepKey(stepNumber) := result]
  }

  /** Recording another step's result keeps the earlier step's result. */
  lemma AddStepResultKeeps(existingResults: map<string, string>, a: int, b: int, ra: string, rb: string)
    requires INT_MIN <= a <= INT_MAX && INT_MIN <= b <= INT_MAX && a != b
    ensures AddStepResult(AddStepResult(existingResults, a, ra), b, rb)[StepKey(a)] == ra
  {
    StepKeyInjective(a, b);
  }
}
