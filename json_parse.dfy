/**
 * JsonParseUtil: turning model output into an object. The text after the last `</think>` tag
 * is parsed; when that fails, the language model is asked up to three times to repair the
 * JSON, and each repaired text is parsed in turn.
 *
 * The JSON parser, the model call and the markdown code-block extraction are not part of this
 * model: they are the parameters bundled in `Oracles`.
 */
module JsonParse {
  import opened Wrappers
  import opened JavaText

  const MAX_RETRY_COUNT := 3
  const THINK_END_TAG := "</think>"
  /** The error text handed to the model when no parse error has been kept. */
  const UNKNOWN_ERROR := "Unknown error"
  const BLANK_INPUT := "Input JSON string cannot be null or empty"
  const FIX_FAILED := "Failed to parse JSON after 3 LLM fix attempts"

  /** What parsing a text gives: the object, or the parser's error message. */
  datatype ParseOutcome<T> = Parsed(value: T) | Failed(message: string)

  /**
   * The collaborators: `parse` is the object mapper reading the target type; `llm` answers the
   * repair prompt for a text and an error message (None: a null answer or an exception);
   * `extract` is the markdown code-block extraction (None: a null result).
   */
  datatype Oracles<T> = Oracles(
    parse: string -> ParseOutcome<T>,
    llm: (string, string) -> Option<string>,
    extract: string -> Option<string>)

  // ---------------------------------------------------------------- think tags

  /** removeThinkTags on a non-null text: the trimmed text after the last `</think>`, or the trimmed text. */
  function StripThink(text: string): (r: string)
    ensures text == "" ==> r == ""
    ensures !Contains(text, THINK_END_TAG) ==> r == Trim(text)
    ensures Contains(text, THINK_END_TAG) ==>
              r == Trim(text[LastIndexOf(text, THINK_END_TAG) + |THINK_END_TAG|..])
  {
    if text == "" then text
    else
      var lastEndTagIndex := LastIndexOf(text, THINK_END_TAG);
      if lastEndTagIndex != -1 then
        var contentStartIndex := lastEndTagIndex + |THINK_END_TAG|;
        Trim(text[contentStartIndex..])
      else Trim(text)
  }

  /** removeThinkTags: null and empty texts come back unchanged. */
  function RemoveThinkTags(text: Option<string>): (r: Option<string>)
    ensures text.None? <==> r.None?
    ensures text == Some("") ==> r == Some("")
    ensures text.Some? ==> r == Some(StripThink(text.value))
  {
    if text.None? then text else Some(StripThink(text.value))
  }

  /** An occurrence in the tail of a concatenation is an occurrence in the whole. */
  lemma OccursShift(a: string, b: string, x: string, j: int)
    ensures OccursAt(b, x, j) ==> OccursAt(a + b, x, |a| + j)
  {
    if OccursAt(b, x, j) {
      assert (a + b)[|a| + j..|a| + j + |x|] == b[j..j + |x|];
    }
  }

  /** An occurrence past the head of a concatenation is an occurrence in the tail. */
  lemma OccursUnshift(a: string, b: string, x: string, i: int)
    requires i >= |a|
    ensures OccursAt(a + b, x, i) ==> OccursAt(b, x, i - |a|)
  {
    if OccursAt(a + b, x, i) {
      assert (a + b)[i..i + |x|] == b[i - |a|..i - |a| + |x|];
    }
  }

  /** Text found in a slice is found in the whole. */
  lemma SliceContains(s: string, lo: nat, hi: nat, x: string)
    requires lo <= hi <= |s|
    ensures Contains(s[lo..hi], x) ==> Contains(s, x)
  {
    if Contains(s[lo..hi], x) {
      var j :| 0 <= j <= hi - lo && OccursAt(s[lo..hi], x, j);
      forall t | 0 <= t < |x|
        ensures s[lo + j + t] == x[t]
      {
        assert s[lo..hi][j..j + |x|][t] == x[t];
      }
      assert s[lo + j..lo + j + |x|] == x;
      assert OccursAt(s, x, lo + j);
    }
  }

  /** Trimming cannot create an occurrence. */
  lemma TrimContains(s: string, x: string)
    ensures Contains(Trim(s), x) ==> Contains(s, x)
  {
    var b := TrimBounds(s);
    SliceContains(s, b.0, b.1, x);
  }

  /** What follows the last occurrence holds no further occurrence. */
  lemma AfterLastFree(text: string, x: string)
    requires Contains(text, x) && x != ""
    ensures !Contains(text[LastIndexOf(text, x) + |x|..], x)
  {
    var start := LastIndexOf(text, x) + |x|;
    var tail := text[start..];
    assert text == text[..start] + tail;
    forall j | 0 <= j <= |tail|
      ensures !OccursAt(tail, x, j)
    {
      OccursShift(text[..start], tail, x, j);
    }
  }

  /** The stripped text never holds a `</think>` tag. */
  lemma StripThinkTagFree(text: string)
    ensures !Contains(StripThink(text), THINK_END_TAG)
  {
    if text != "" {
      if Contains(text, THINK_END_TAG) {
        AfterLastFree(text, THINK_END_TAG);
        TrimContains(text[LastIndexOf(text, THINK_END_TAG) + |THINK_END_TAG|..], THINK_END_TAG);
      } else {
        TrimContains(text, THINK_END_TAG);
      }
    }
  }

  /** Stripping twice is stripping once. */
  lemma StripThinkIdempotent(text: string)
    ensures StripThink(StripThink(text)) == StripThink(text)
  {
    StripThinkTagFree(text);
    if text != "" {
      if Contains(text, THINK_END_TAG) {
        TrimIdempotent(text[LastIndexOf(text, THINK_END_TAG) + |THINK_END_TAG|..]);
      } else {
        TrimIdempotent(text);
      }
    }
  }

  /** No occurrence of the tag starts inside the tag itself: only its first character is '<'. */
  lemma TagOverlapFree(think: string, body: string, i: int)
    requires |think| < i < |think| + |THINK_END_TAG|
    ensures !OccursAt(think + THINK_END_TAG + body, THINK_END_TAG, i)
  {
    var s := think + THINK_END_TAG + body;
    assert s[i] == THINK_END_TAG[i - |think|];
    assert THINK_END_TAG[i - |think|] != '<';
    if i + |THINK_END_TAG| <= |s| {
      assert s[i..i + |THINK_END_TAG|][0] == s[i];
    }
  }

  /**
   * A reasoning part closed by `</think>` followed by an answer without the tag strips to the
   * trimmed answer.
   */
  lemma StripThinkAnswer(think: string, body: string)
    requires !Contains(body, THINK_END_TAG)
    ensures StripThink(think + THINK_END_TAG + body) == Trim(body)
  {
    var s := think + THINK_END_TAG + body;
    var head := think + THINK_END_TAG;
    assert s == head + body;
    assert s[|think|..|think| + |THINK_END_TAG|] == THINK_END_TAG;
    assert OccursAt(s, THINK_END_TAG, |think|);
    forall i | |think| < i
      ensures !OccursAt(s, THINK_END_TAG, i)
    {
      if i < |head| {
        TagOverlapFree(think, body, i);
      } else {
        OccursUnshift(head, body, THINK_END_TAG, i);
      }
    }
    assert LastIndexOf(s, THINK_END_TAG) == |think|;
    assert s[|head|..] == body;
  }

  // ---------------------------------------------------------------- repair loop

  /**
   * callLlmToFix: the model's answer with think tags stripped and a code block extracted;
   * the text itself when the answer or the extraction is null, or the call fails.
   */
  function CallLlmToFix<T>(json: string, errorMessage: string, o: Oracles<T>): (r: string)
    ensures o.llm(json, errorMessage).None? ==> r == json
    ensures o.llm(json, errorMessage).Some? ==>
              r == json || o.extract(StripThink(o.llm(json, errorMessage).value)) == Some(r)
    ensures o.llm(json, errorMessage).Some? && o.extract(StripThink(o.llm(json, errorMessage).value)).Some? ==>
              r == o.extract(StripThink(o.llm(json, errorMessage).value)).value
    ensures o.llm(json, errorMessage).Some? && o.extract(StripThink(o.llm(json, errorMessage).value)).None? ==>
              r == json
  {
    match o.llm(json, errorMessage)
    case None => json
    case Some(fixedJson) =>
      var cleanedJson := o.extract(StripThink(fixedJson));
      if cleanedJson.Some? then cleanedJson.value else json
  }

  function MessageOf<T>(p: ParseOutcome<T>): string
  {
    if p.Failed? then p.message else ""
  }

  /**
   * The k-th text the loop parses: the stripped input first, then each repair of the one
   * before. The first repair is asked with "Unknown error", because the initial parse error is
   * not kept; every later one with the previous repair's parse error.
   */
  function Candidate<T>(json: string, o: Oracles<T>, k: nat): (c: string)
    ensures k == 0 ==> c == StripThink(json)
    decreases k
  {
    if k == 0 then StripThink(json)
    else
      var previous := Candidate(json, o, k - 1);
      var message := if k == 1 then UNKNOWN_ERROR else MessageOf(o.parse(previous));
      CallLlmToFix(previous, message, o)
  }

  /** One repair inside the loop: the error kept from the last attempt, or "Unknown error", goes to the model. */
  method Repair<T>(json: string, o: Oracles<T>, i: nat, currentJson: string, lastException: Option<string>)
    returns (fixed: string)
    requires currentJson == Candidate(json, o, i)
    requires lastException == if i == 0 then None else Some(MessageOf(o.parse(currentJson)))
    ensures fixed == Candidate(json, o, i + 1)
  {
    fixed := CallLlmToFix(currentJson, if lastException.Some? then lastException.value else UNKNOWN_ERROR, o);
  }

  /** None of the first `n` candidates parses. */
  predicate FailsBefore<T>(json: string, o: Oracles<T>, n: nat)
  {
    forall k :: 0 <= k < n ==> o.parse(Candidate(json, o, k)).Failed?
  }

  lemma FailsBeforeStep<T>(json: string, o: Oracles<T>, n: nat)
    requires FailsBefore(json, o, n) && o.parse(Candidate(json, o, n)).Failed?
    ensures FailsBefore(json, o, n + 1)
  {
  }

  /**
   * tryConvertToObjectInternal: the first candidate that parses gives the object; `calls`
   * counts the model calls made, at most three; when the third repair fails too the result is
   * an IllegalArgumentException.
   */
  method TryConvertToObjectInternal<T>(json: string, o: Oracles<T>) returns (r: Result<T>, calls: nat)
    ensures calls <= MAX_RETRY_COUNT
    ensures FailsBefore(json, o, calls)
    ensures r.Ok? ==> o.parse(Candidate(json, o, calls)) == Parsed(r.value)
    ensures r.Err? ==> calls == MAX_RETRY_COUNT && o.parse(Candidate(json, o, calls)).Failed?
                       && r.error == IllegalArgument(FIX_FAILED)
  {
    var currentJson := StripThink(json);
    var lastException: Option<string> := None;
    var first := o.parse(currentJson);
    assert currentJson == Candidate(json, o, 0);
    if first.Parsed? {
      return Ok(first.value), 0;
    }
    FailsBeforeStep(json, o, 0);
    var i := 0;
    while i < MAX_RETRY_COUNT
      invariant 0 <= i <= MAX_RETRY_COUNT
      invariant currentJson == Candidate(json, o, i)
      invariant FailsBefore(json, o, i + 1)
      invariant lastException == if i == 0 then None else Some(MessageOf(o.parse(currentJson)))
    {
      currentJson := Repair(json, o, i, currentJson, lastException);
      var outcome := o.parse(currentJson);
      if outcome.Parsed? {
        return Ok(outcome.value), i + 1;
      }
      FailsBeforeStep(json, o, i + 1);
      lastException := Some(outcome.message);
      i := i + 1;
    }
    r, calls := Err(IllegalArgument(FIX_FAILED)), MAX_RETRY_COUNT;
  }

  /** tryConvertToObject: a null or blank input is refused before any parsing. */
  method TryConvertToObject<T>(json: Option<string>, o: Oracles<T>) returns (r: Result<T>, calls: nat)
    ensures json.None? || !HasText(json.value) ==> r == Err(IllegalArgument(BLANK_INPUT)) && calls == 0
    ensures json.Some? && HasText(json.value) ==>
              calls <= MAX_RETRY_COUNT
              && (r.Ok? ==> o.parse(Candidate(json.value, o, calls)) == Parsed(r.value))
              && (r.Err? ==> calls == MAX_RETRY_COUNT && r.error == IllegalArgument(FIX_FAILED))
  {
    if json.None? || !HasText(json.value) {
      return Err(IllegalArgument(BLANK_INPUT)), 0;
    }
    r, calls := TryConvertToObjectInternal(json.value, o);
  }

  /** Text that parses once stripped never reaches the model. */
  lemma ParsedInputNeedsNoRepair<T>(think: string, body: string, o: Oracles<T>, v: T)
    requires !Contains(body, THINK_END_TAG)
    requires o.parse(Trim(body)) == Parsed(v)
    ensures o.parse(Candidate(think + THINK_END_TAG + body, o, 0)) == Parsed(v)
  {
    StripThinkAnswer(think, body);
  }
}
