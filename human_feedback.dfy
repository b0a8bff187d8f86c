/**
 * The human review node: it waits for feedback on the plan, passes an approved plan on to
 * execution, and sends a rejected one back to the planner, giving up after three repairs.
 */
module HumanFeedback {
  import opened Wrappers
  import opened JavaText
  import opened WorkflowState

  /** The routes it writes under "human_next_node" that are not node names. */
  const END_LABEL := "END"
  const WAIT_FOR_FEEDBACK := "WAIT_FOR_FEEDBACK"
  const MAX_REPAIRS := 3
  const REJECTED_BY_USER := "Plan rejected by user"

  /** Object.toString of a feedback value. */
  function FeedbackText(v: FeedbackValue): (r: string)
    ensures v.TextValue? ==> r == v.text
  {
    match v
    case BoolValue(b) => if b then "true" else "false"
    case TextValue(t) => t
  }

  /** Boolean.parseBoolean: "true" in any letter case. */
  predicate ParseBoolean(s: string)
  {
    EqualsIgnoreCase(s, "true")
  }

  /** The approval decision: "feedback" when present (a Boolean as is, anything else parsed), approval otherwise. */
  predicate Approved(feedbackData: map<string, FeedbackValue>)
  {
    if "feedback" !in feedbackData then true
    else match feedbackData["feedback"]
         case BoolValue(b) => b
         case TextValue(t) => ParseBoolean(t)
  }

  /** The reason recorded for a rejection: the feedback content when non-empty, a fixed text otherwise. */
  function RejectionReason(feedbackData: map<string, FeedbackValue>): (r: string)
    ensures |r| > 0
    ensures "feedback_content" in feedbackData && |FeedbackText(feedbackData["feedback_content"])| > 0 ==>
              r == FeedbackText(feedbackData["feedback_content"])
  {
    var content := if "feedback_content" in feedbackData then FeedbackText(feedbackData["feedback_content"]) else "";
    if |content| > 0 then content else REJECTED_BY_USER
  }

  /**
   * apply: after three repairs the run ends; without feedback it waits; an approval goes on to
   * plan execution with review switched off; a rejection goes back to the planner with one more
   * repair counted, the step reset to 1, review kept on, the reason recorded and the old plan cleared.
   */
  function Apply(s: GraphState): (u: GraphState)
    ensures RepairCount(s) >= MAX_REPAIRS ==> u == EMPTY.(humanNextNode := Some(END_LABEL))
    ensures u.humanNextNode.Some?
            && u.humanNextNode.value in {END_LABEL, WAIT_FOR_FEEDBACK, PLAN_EXECUTOR_NODE, PLANNER_NODE}
    ensures u.humanNextNode == Some(PLANNER_NODE) <==>
              RepairCount(s) < MAX_REPAIRS && s.humanFeedbackData.Some? && |s.humanFeedbackData.value| > 0
              && !Approved(s.humanFeedbackData.value)
    ensures u.humanNextNode == Some(PLANNER_NODE) ==>
              u.planRepairCount == Some(RepairCount(s) + 1) && u.planCurrentStep == Some(1)
              && u.humanReviewEnabled == Some(true) && u.plannerNodeOutput == Some("")
              && u.planValidationError == Some(RejectionReason(s.humanFeedbackData.value))
    ensures u.humanNextNode == Some(PLAN_EXECUTOR_NODE) ==>
              u == EMPTY.(humanNextNode := Some(PLAN_EXECUTOR_NODE), humanReviewEnabled := Some(false))
    ensures u.humanNextNode != Some(PLANNER_NODE) ==> u.planRepairCount.None?
  {
    var repairCount := RepairCount(s);
    if repairCount >= MAX_REPAIRS then EMPTY.(humanNextNode := Some(END_LABEL))
    else
      var feedbackData := s.humanFeedbackData.UnwrapOr(map[]);
      if |feedbackData| == 0 then EMPTY.(humanNextNode := Some(WAIT_FOR_FEEDBACK))
      else if Approved(feedbackData) then
        EMPTY.(humanNextNode := Some(PLAN_EXECUTOR_NODE), humanReviewEnabled := Some(false))
      else
        EMPTY.(humanNextNode := Some(PLANNER_NODE), planRepairCount := Some(repairCount + 1),
               planCurrentStep := Some(1), humanReviewEnabled := Some(true),
               planValidationError := Some(RejectionReason(feedbackData)), plannerNodeOutput := Some(""))
  }

  /**
   * The number of times a run goes back to the planner when the node is given the feedback
   * maps in turn, each result merged into the state before the next round.
   */
  function Rejections(s: GraphState, feedbacks: seq<map<string, FeedbackValue>>): nat
    decreases |feedbacks|
  {
    if |feedbacks| == 0 then 0
    else
      var s1 := s.(humanFeedbackData := Some(feedbacks[0]));
      var u := Apply(s1);
      (if u.humanNextNode == Some(PLANNER_NODE) then 1 else 0) + Rejections(Merge(s1, u), feedbacks[1..])
  }

  /** However the reviewer answers, a plan is sent back for repair at most 3 - repairCount times. */
  lemma {:induction false} RejectionsBounded(s: GraphState, feedbacks: seq<map<string, FeedbackValue>>)
    ensures Rejections(s, feedbacks) <= if RepairCount(s) >= MAX_REPAIRS then 0 else MAX_REPAIRS - RepairCount(s)
    decreases |feedbacks|
  {
    if |feedbacks| > 0 {
      var s1 := s.(humanFeedbackData := Some(feedbacks[0]));
      var u := Apply(s1);
      var s2 := Merge(s1, u);
      RejectionsBounded(s2, feedbacks[1..]);
      if u.humanNextNode == Some(PLANNER_NODE) {
        assert RepairCount(s2) == RepairCount(s) + 1;
      } else {
        assert RepairCount(s2) == RepairCount(s);
      }
    }
  }
}
