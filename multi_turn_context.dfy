/**
 * The per-thread dialogue memory: a pending turn collects the planner's streamed output, and
 * finishing it stores (question, abbreviated plan) in a bounded first-in-first-out history
 * that later prompts read back as text.
 */
module MultiTurnContext {
  import opened Wrappers
  import opened JavaText

  /** A stored turn: the user's question and the planner output kept for it. */
  datatype ConversationTurn = ConversationTurn(userQuestion: string, plan: string)

  /** A turn in progress: its question and what the planner has streamed so far. */
  datatype PendingTurn = PendingTurn(userQuestion: string, plan: string)

  const NO_HISTORY := "(无)"

  /** One turn as prompt text. */
  function Render(turn: ConversationTurn): string
  {
    "用户: " + turn.userQuestion + "\nAI计划: " + turn.plan
  }

  function RenderAll(turns: seq<ConversationTurn>): (r: seq<string>)
    ensures |r| == |turns| && forall i :: 0 <= i < |turns| ==> r[i] == Render(turns[i])
  {
    if |turns| == 0 then [] else [Render(turns[0])] + RenderAll(turns[1..])
  }

  /** The context text of a history: a placeholder when empty, the rendered turns one per line otherwise. */
  function ContextOf(turns: seq<ConversationTurn>): (r: string)
  {
    if |turns| == 0 then NO_HISTORY else Join(RenderAll(turns), "\n")
  }

  /** A turn added to a non-empty history shows up as one more line at the end of the context. */
  lemma {:induction false} ContextSnoc(turns: seq<ConversationTurn>, turn: ConversationTurn)
    requires |turns| > 0
    ensures ContextOf(turns + [turn]) == ContextOf(turns) + "\n" + Render(turn)
    decreases |turns|
  {
    if |turns| == 1 {
      assert turns == [turns[0]];
      assert RenderAll(turns) == [Render(turns[0])];
      assert RenderAll(turns + [turn]) == [Render(turns[0]), Render(turn)];
      assert Join([Render(turns[0]), Render(turn)], "\n") == Render(turns[0]) + "\n" + Join([Render(turn)], "\n");
    } else {
      ContextSnoc(turns[1..], turn);
      assert (turns + [turn])[1..] == turns[1..] + [turn];
      assert RenderAll(turns + [turn])[1..] == RenderAll(turns[1..] + [turn]);
    }
  }

  /** The context of a single turn is that turn's text. */
  lemma ContextSingle(turn: ConversationTurn)
    ensures ContextOf([turn]) == Render(turn)
  {
    assert RenderAll([turn]) == [Render(turn)];
  }

  /** The deque once the oldest turns are dropped until there is room for one more. */
  function Evicted(deque: seq<ConversationTurn>, maxTurnHistory: nat): (r: seq<ConversationTurn>)
    requires maxTurnHistory >= 1
  {
    if |deque| < maxTurnHistory then deque else deque[|deque| - (maxTurnHistory - 1)..]
  }

  /** Eviction keeps the newest turns, in order, and leaves room for exactly one more. */
  lemma EvictedSpec(deque: seq<ConversationTurn>, maxTurnHistory: nat)
    requires maxTurnHistory >= 1
    ensures var r := Evicted(deque, maxTurnHistory);
            |r| < maxTurnHistory
            && |r| == (if |deque| < maxTurnHistory then |deque| else maxTurnHistory - 1)
            && r == deque[|deque| - |r|..]
  {
  }

  /** The eviction loop of finishTurn: the first turn is polled while the deque is full. */
  method PollOldest(deque: seq<ConversationTurn>, maxTurnHistory: int) returns (r: seq<ConversationTurn>)
    requires maxTurnHistory >= 1
    ensures r == Evicted(deque, maxTurnHistory)
  {
    var m: nat := maxTurnHistory;
    r := deque;
    while |r| >= m
      invariant |r| <= |deque| && r == deque[|deque| - |r|..]
      invariant |deque| < m ==> r == deque
      invariant |deque| >= m ==> |r| >= m - 1
    {
      r := r[1..];
    }
  }

  class MultiTurnContextManager {
    var history: map<string, seq<ConversationTurn>>
    var pendingTurns: map<string, PendingTurn>
    const maxTurnHistory: int
    const maxPlanLength: int

    /** Every thread's history fits within maxTurnHistory. */
    ghost predicate Valid()
      reads this
    {
      maxTurnHistory >= 1 && forall t :: t in history ==> |history[t]| <= maxTurnHistory
    }

    constructor (maxTurnHistory: int, maxPlanLength: int)
      requires maxTurnHistory >= 1
      ensures Valid()
      ensures this.maxTurnHistory == maxTurnHistory && this.maxPlanLength == maxPlanLength
      ensures history == map[] && pendingTurns == map[]
    {
      this.maxTurnHistory := maxTurnHistory;
      this.maxPlanLength := maxPlanLength;
      history := map[];
      pendingTurns := map[];
    }

    /** The stored turns of a thread, none when it has no history yet. */
    function Turns(threadId: string): (r: seq<ConversationTurn>)
      reads this
      ensures threadId !in history ==> r == []
    {
      if threadId in history then history[threadId] else []
    }

    /** beginTurn: a blank thread id or question is ignored; otherwise the trimmed question becomes pending. */
    method BeginTurn(threadId: string, userQuestion: string)
      requires Valid()
      modifies this
      ensures Valid() && history == old(history)
      ensures IsBlank(threadId) || IsBlank(userQuestion) ==> pendingTurns == old(pendingTurns)
      ensures !IsBlank(threadId) && !IsBlank(userQuestion) ==>
                pendingTurns == old(pendingTurns)[threadId := PendingTurn(Trim(userQuestion), "")]
    {
      if IsBlank(threadId) || IsBlank(userQuestion) {
        return;
      }
      pendingTurns := pendingTurns[threadId := PendingTurn(Trim(userQuestion), "")];
    }

    /** appendPlannerChunk: a non-blank chunk extends the thread's pending plan, if there is one. */
    method AppendPlannerChunk(threadId: string, chunk: string)
      requires Valid()
      modifies this
      ensures Valid() && history == old(history)
      ensures IsBlank(threadId) || IsBlank(chunk) || threadId !in old(pendingTurns) ==> pendingTurns == old(pendingTurns)
      ensures !IsBlank(threadId) && !IsBlank(chunk) && threadId in old(pendingTurns) ==>
                var p := old(pendingTurns)[threadId];
                pendingTurns == old(pendingTurns)[threadId := PendingTurn(p.userQuestion, p.plan + chunk)]
    {
      if IsBlank(threadId) || IsBlank(chunk) {
        return;
      }
      if threadId in pendingTurns {
        var pending := pendingTurns[threadId];
        pendingTurns := pendingTurns[threadId := PendingTurn(pending.userQuestion, pending.plan + chunk)];
      }
    }

    /**
     * finishTurn: the pending turn is always removed. A blank plan stores nothing; otherwise the
     * trimmed plan, abbreviated to maxPlanLength (which fails for a length below 4), is added at
     * the end of the thread's history after the oldest turns make room.
     */
    method FinishTurn(threadId: string) returns (r: Result<()>)
      requires Valid()
      modifies this
      ensures Valid()
      ensures pendingTurns == old(pendingTurns) - {threadId}
      ensures threadId !in old(pendingTurns) || IsBlank(Trim(old(pendingTurns)[threadId].plan)) ==>
                r.Ok? && history == old(history)
      ensures threadId in old(pendingTurns) && !IsBlank(Trim(old(pendingTurns)[threadId].plan)) ==>
                var pending := old(pendingTurns)[threadId];
                var deque := if threadId in old(history) then old(history)[threadId] else [];
                match Abbreviate(Trim(pending.plan), maxPlanLength)
                case Err(e) => r == Err(e) && history == old(history)
                case Ok(plan) =>
                  r.Ok?
                  && history == old(history)[threadId := Evicted(deque, maxTurnHistory) + [ConversationTurn(pending.userQuestion, plan)]]
    {
      if threadId !in pendingTurns {
        return Ok(());
      }
      var pending := pendingTurns[threadId];
      pendingTurns := pendingTurns - {threadId};
      var plan := Trim(pending.plan);
      if IsBlank(plan) {
        return Ok(());
      }
      var abbreviated := Abbreviate(plan, maxPlanLength);
      if abbreviated.Err? {
        return Err(abbreviated.error);
      }
      var deque := if threadId in history then history[threadId] else [];
      deque := PollOldest(deque, maxTurnHistory);
      EvictedSpec(if threadId in history then history[threadId] else [], maxTurnHistory);
      history := history[threadId := deque + [ConversationTurn(pending.userQuestion, abbreviated.value)]];
      r := Ok(());
    }

    /** discardPending: the thread's pending turn is dropped and the history is untouched. */
    method DiscardPending(threadId: string)
      requires Valid()
      modifies this
      ensures Valid() && history == old(history)
      ensures pendingTurns == old(pendingTurns) - {threadId}
    {
      pendingTurns := pendingTurns - {threadId};
    }

    /**
     * restartLastTurn: the newest stored turn is removed and its question becomes pending again
     * with an empty plan; with no stored turn nothing changes.
     */
    method RestartLastTurn(threadId: string)
      requires Valid()
      modifies this
      ensures Valid()
      ensures |old(Turns(threadId))| == 0 ==> history == old(history) && pendingTurns == old(pendingTurns)
      ensures |old(Turns(threadId))| > 0 ==>
                var deque := old(history)[threadId];
                history == old(history)[threadId := deque[..|deque| - 1]]
                && pendingTurns == old(pendingTurns)[threadId := PendingTurn(deque[|deque| - 1].userQuestion, "")]
    {
      if threadId !in history || |history[threadId]| == 0 {
        return;
      }
      var deque := history[threadId];
      var lastTurn := deque[|deque| - 1];
      history := history[threadId := deque[..|deque| - 1]];
      pendingTurns := pendingTurns[threadId := PendingTurn(lastTurn.userQuestion, "")];
    }

    /** buildContext: the thread's history as prompt text. */
    function BuildContext(threadId: string): (r: string)
      reads this
      ensures |Turns(threadId)| == 0 ==> r == NO_HISTORY
      ensures |Turns(threadId)| == 1 ==> r == Render(Turns(threadId)[0])
    {
      ContextSingleOf(Turns(threadId));
      ContextOf(Turns(threadId))
    }
  }

  lemma ContextSingleOf(turns: seq<ConversationTurn>)
    ensures |turns| == 1 ==> ContextOf(turns) == Render(turns[0])
  {
    if |turns| == 1 {
      assert turns == [turns[0]];
      ContextSingle(turns[0]);
    }
  }
}
