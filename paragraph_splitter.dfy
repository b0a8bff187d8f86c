/**
 * The paragraph splitter: paragraphs are packed into chunks of at most `chunkSize` characters,
 * joined by a blank line; the tail of a flushed chunk (up to `paragraphOverlapChars`
 * characters, from a paragraph start when one is in reach) seeds the next chunk; a paragraph
 * longer than a chunk is cut into sentence groups, and a sentence longer than a chunk into
 * fixed-size pieces.
 *
 * Cutting the text into paragraphs (a regular expression on blank lines) is a parameter; the
 * sentence pattern `[^。！？.!?\n]+[。！？.!?\n]*` is modelled by the scanner below.
 */
module ParagraphSplitter {
  import opened JavaText
  import opened SeqUtil

  datatype ParagraphSplitter = ParagraphSplitter(chunkSize: int, paragraphOverlapChars: int)

  /** A chunk size of 0 or less would make splitByChars loop forever. */
  predicate Valid(ps: ParagraphSplitter)
  {
    ps.chunkSize >= 1
  }

  const PARAGRAPH_BREAK: string := "\n\n"

  // ---------------------------------------------------------------- splitByChars

  /** Fixed-size pieces, each trimmed. */
  function ByChars(text: string, n: nat): seq<string>
    requires n >= 1
    decreases |text|
  {
    if |text| == 0 then []
    else if |text| <= n then [Trim(text)]
    else [Trim(text[..n])] + ByChars(text[n..], n)
  }

  function TrimAll(xs: seq<string>): (r: seq<string>)
    ensures |r| == |xs| && forall k :: 0 <= k < |xs| ==> r[k] == Trim(xs[k])
  {
    seq(|xs|, k requires 0 <= k < |xs| => Trim(xs[k]))
  }

  lemma TrimAllCons(x: string, xs: seq<string>)
    ensures TrimAll([x] + xs) == [Trim(x)] + TrimAll(xs)
  {
  }

  /** The pieces are the consecutive slices of the text (which give it back), each trimmed. */
  lemma {:induction false} ByCharsSlices(text: string, n: nat)
    requires n >= 1
    ensures ByChars(text, n) == TrimAll(Slices(text, n))
    decreases |text|
  {
    if |text| > n {
      ByCharsSlices(text[n..], n);
      assert Slices(text, n) == [text[..n]] + Slices(text[n..], n);
      TrimAllCons(text[..n], Slices(text[n..], n));
    } else if |text| > 0 {
      assert Slices(text, n) == [text];
    }
  }

  /** No piece is longer than a chunk, and none starts or ends with white space. */
  lemma {:induction false} ByCharsFit(text: string, n: nat)
    requires n >= 1
    ensures forall k :: 0 <= k < |ByChars(text, n)| ==>
              |ByChars(text, n)[k]| <= n && Trim(ByChars(text, n)[k]) == ByChars(text, n)[k]
    decreases |text|
  {
    if |text| > n {
      ByCharsFit(text[n..], n);
      TrimIdempotent(text[..n]);
    } else if |text| > 0 {
      TrimIdempotent(text);
    }
  }

  /** One slice off the front of the text from `start`. */
  lemma ByCharsStep(text: string, start: nat, n: nat)
    requires n >= 1 && start < |text|
    ensures var end := if start + n < |text| then start + n else |text|;
            ByChars(text[start..], n) == [Trim(text[start..end])] + ByChars(text[end..], n)
  {
    var rest := text[start..];
    if |rest| > n {
      assert rest[..n] == text[start..start + n] && rest[n..] == text[start + n..];
    } else {
      assert ByChars(rest, n) == [Trim(rest)];
      assert rest == text[start..|text|];
      assert ByChars(text[|text|..], n) == [];
    }
  }

  method SplitByChars(ps: ParagraphSplitter, text: string) returns (chunks: seq<string>)
    requires Valid(ps)
    ensures chunks == ByChars(text, ps.chunkSize)
  {
    var n: nat := ps.chunkSize;
    chunks := [];
    var start := 0;
    while start < |text|
      invariant 0 <= start <= |text|
      invariant chunks + ByChars(text[start..], n) == ByChars(text, n)
      decreases |text| - start
    {
      var end := if start + n < |text| then start + n else |text|;
      ByCharsStep(text, start, n);
      chunks := chunks + [Trim(text[start..end])];
      start := end;
    }
    assert text[start..] == [];
  }

  // ---------------------------------------------------------------- extractOverlap

  /**
   * The overlap taken from the last characters `raw` of a long chunk: the text after the first
   * blank line in them when text follows it, else all of them trimmed.
   */
  function OverlapTail(raw: string): (r: string)
    ensures |r| <= |raw|
    ensures (|r| > 0 && OccursAt(raw, PARAGRAPH_BREAK, |raw| - |r| - 2) && r == raw[|raw| - |r|..])
            || r == Trim(raw)
  {
    var br := IndexOf(raw, PARAGRAPH_BREAK);
    if br != -1 && br + 2 < |raw| then
      assert |raw| - |raw[br + 2..]| - 2 == br;
      raw[br + 2..]
    else Trim(raw)
  }

  /**
   * The overlap a flushed chunk leaves: nothing when overlaps are off or the chunk is empty,
   * the whole chunk when it is short, else the overlap of its last `paragraphOverlapChars`
   * characters, so never more than those.
   */
  function ExtractOverlap(ps: ParagraphSplitter, chunk: string): (r: string)
    ensures ps.paragraphOverlapChars <= 0 || |chunk| == 0 ==> r == ""
    ensures ps.paragraphOverlapChars > 0 && |chunk| <= ps.paragraphOverlapChars ==> r == chunk
    ensures |r| <= |chunk| && (ps.paragraphOverlapChars > 0 ==> |r| <= ps.paragraphOverlapChars)
  {
    var n := ps.paragraphOverlapChars;
    if n <= 0 || |chunk| == 0 then ""
    else if |chunk| <= n then chunk
    else OverlapTail(chunk[|chunk| - n..])
  }

  // ---------------------------------------------------------------- the sentence pattern

  /** The characters that end a sentence: 。！？.!? and the line feed. */
  predicate IsTerminator(c: char)
  {
    c == '。' || c == '！' || c == '？' || c == '.' || c == '!' || c == '?' || c == '\n'
  }

  /** The first index from i on whose character is not of the given kind (terminator or not). */
  function SkipWhile(s: string, i: nat, terminators: bool): (j: nat)
    requires i <= |s|
    ensures i <= j <= |s|
    ensures forall k :: i <= k < j ==> IsTerminator(s[k]) == terminators
    ensures j < |s| ==> IsTerminator(s[j]) != terminators
    decreases |s| - i
  {
    if i == |s| || IsTerminator(s[i]) != terminators then i else SkipWhile(s, i + 1, terminators)
  }

  /** Where the match starting at q (on a non-terminator) ends: its text, then its terminators. */
  function MatchEnd(s: string, q: nat): (e: nat)
    requires q < |s| && !IsTerminator(s[q])
    ensures q < e <= |s|
    ensures e < |s| ==> !IsTerminator(s[e])
  {
    SkipWhile(s, SkipWhile(s, q, false), true)
  }

  /** The successive matches of the sentence pattern from position p (Matcher.find, group()). */
  function Matches(s: string, p: nat): seq<string>
    requires p <= |s|
    decreases |s| - p
  {
    var q := SkipWhile(s, p, true);
    if q == |s| then [] else [s[q..MatchEnd(s, q)]] + Matches(s, MatchEnd(s, q))
  }

  /** Matcher.end() after the last match, or p when nothing matches. */
  function MatchesEnd(s: string, p: nat): (e: nat)
    requires p <= |s|
    ensures p <= e <= |s|
    decreases |s| - p
  {
    var q := SkipWhile(s, p, true);
    if q == |s| then p else MatchesEnd(s, MatchEnd(s, q))
  }

  /**
   * Matches run back to back up to the end of the text, so something remains after them only
   * when nothing matched at all, that is when the text is made of terminators only.
   */
  lemma {:induction false} MatchesEndSpec(s: string, p: nat)
    requires p <= |s| && (p == 0 || p == |s| || !IsTerminator(s[p]))
    ensures Matches(s, p) != [] ==> MatchesEnd(s, p) == |s|
    ensures Matches(s, p) == [] ==> MatchesEnd(s, p) == p && forall k :: p <= k < |s| ==> IsTerminator(s[k])
    ensures forall k :: 0 <= k < |Matches(s, p)| ==> |Matches(s, p)[k]| >= 1
    decreases |s| - p
  {
    var q := SkipWhile(s, p, true);
    if q < |s| {
      var e := MatchEnd(s, q);
      MatchesEndSpec(s, e);
      if Matches(s, e) == [] {
        assert e == |s|;
      }
    }
  }

  // ---------------------------------------------------------------- splitLargeParagraph

  /** The sub-chunks so far and the sentence group being filled. */
  datatype Group = Group(subs: seq<string>, current: string)

  function Close(g: Group): Group
  {
    if |g.current| > 0 then Group(g.subs + [Trim(g.current)], "") else g
  }

  /**
   * One sentence in: a sentence longer than a chunk closes the group and is cut by characters;
   * any other closes the group when it would overflow it, and joins the group.
   */
  function AddToGroup(n: nat, g: Group, sentence: string): Group
    requires n >= 1
  {
    if |sentence| > n then Group(Close(g).subs + ByChars(sentence, n), "")
    else
      var g' := if |g.current| + |sentence| > n && |g.current| > 0 then Close(g) else g;
      Group(g'.subs, g'.current + sentence)
  }

  function AddAllToGroup(n: nat, g: Group, sentences: seq<string>): Group
    requires n >= 1
    decreases |sentences|
  {
    if |sentences| == 0 then g
    else AddToGroup(n, AddAllToGroup(n, g, sentences[..|sentences| - 1]), sentences[|sentences| - 1])
  }

  /** The text after the last match, handled like one more sentence unless it is blank. */
  function AddRemaining(n: nat, g: Group, paragraph: string, lastEnd: nat): Group
    requires n >= 1 && lastEnd <= |paragraph|
  {
    if lastEnd < |paragraph| && |Trim(paragraph[lastEnd..])| > 0 then AddToGroup(n, g, paragraph[lastEnd..]) else g
  }

  /** splitLargeParagraph */
  function SubChunks(n: nat, paragraph: string): seq<string>
    requires n >= 1
  {
    var g := AddAllToGroup(n, Group([], ""), Matches(paragraph, 0));
    Close(AddRemaining(n, g, paragraph, MatchesEnd(paragraph, 0))).subs
  }

  /** Neither end is a code unit String.trim would cut. */
  predicate NoOuterBlank(s: string)
  {
    s == [] || (s[0] > ' ' && s[|s| - 1] > ' ')
  }

  /** No sub-chunk is longer than a chunk and every one is trimmed. */
  ghost predicate TrimmedFits(n: nat, subs: seq<string>)
  {
    forall k :: 0 <= k < |subs| ==> |subs[k]| <= n && NoOuterBlank(subs[k])
  }

  /** The sub-chunks fit and the open group never overflows. */
  ghost predicate Bounded(n: nat, g: Group)
  {
    |g.current| <= n && TrimmedFits(n, g.subs)
  }

  lemma TrimmedFitsAppend(n: nat, subs: seq<string>, t: string)
    requires TrimmedFits(n, subs) && |t| <= n && NoOuterBlank(t)
    ensures TrimmedFits(n, subs + [t])
  {
    var r := subs + [t];
    forall k | 0 <= k < |r| ensures |r[k]| <= n && NoOuterBlank(r[k]) {
      if k < |subs| {
        assert r[k] == subs[k];
      }
    }
  }

  lemma CloseBounded(n: nat, g: Group)
    requires Bounded(n, g)
    ensures Bounded(n, Close(g))
  {
    if |g.current| > 0 {
      TrimmedFitsAppend(n, g.subs, Trim(g.current));
    }
  }

  lemma AddToGroupBounded(n: nat, g: Group, sentence: string)
    requires n >= 1 && Bounded(n, g)
    ensures Bounded(n, AddToGroup(n, g, sentence))
  {
    CloseBounded(n, g);
    if |sentence| > n {
      ByCharsFit(sentence, n);
      var c := Close(g).subs;
      var r := AddToGroup(n, g, sentence).subs;
      forall k | 0 <= k < |r| ensures |r[k]| <= n && NoOuterBlank(r[k]) {
        if k >= |c| {
          var piece := ByChars(sentence, n)[k - |c|];
          assert r[k] == piece;
          assert Trim(piece) == piece;
        }
      }
    }
  }

  lemma {:induction false} AddAllToGroupBounded(n: nat, g: Group, sentences: seq<string>)
    requires n >= 1 && Bounded(n, g)
    ensures Bounded(n, AddAllToGroup(n, g, sentences))
    decreases |sentences|
  {
    if |sentences| > 0 {
      AddAllToGroupBounded(n, g, sentences[..|sentences| - 1]);
      AddToGroupBounded(n, AddAllToGroup(n, g, sentences[..|sentences| - 1]), sentences[|sentences| - 1]);
    }
  }

  /** Every sub-chunk of a large paragraph fits in a chunk and is trimmed. */
  lemma SubChunksSpec(n: nat, paragraph: string)
    requires n >= 1
    ensures forall k :: 0 <= k < |SubChunks(n, paragraph)| ==>
              |SubChunks(n, paragraph)[k]| <= n && Trim(SubChunks(n, paragraph)[k]) == SubChunks(n, paragraph)[k]
  {
    var g := AddAllToGroup(n, Group([], ""), Matches(paragraph, 0));
    AddAllToGroupBounded(n, Group([], ""), Matches(paragraph, 0));
    var e := MatchesEnd(paragraph, 0);
    if e < |paragraph| && |Trim(paragraph[e..])| > 0 {
      AddToGroupBounded(n, g, paragraph[e..]);
    }
    CloseBounded(n, AddRemaining(n, g, paragraph, e));
    var subs := SubChunks(n, paragraph);
    forall k | 0 <= k < |subs| ensures Trim(subs[k]) == subs[k] {
      TrimUntouched(subs[k]);
    }
  }

  /** One step of splitLargeParagraph's loops: the group after one more sentence. */
  method GroupSentence(ps: ParagraphSplitter, subChunks: seq<string>, currentChunk: string, sentence: string)
    returns (subChunks': seq<string>, currentChunk': string)
    requires Valid(ps)
    ensures Group(subChunks', currentChunk') == AddToGroup(ps.chunkSize, Group(subChunks, currentChunk), sentence)
  {
    subChunks', currentChunk' := subChunks, currentChunk;
    if |sentence| > ps.chunkSize {
      if |currentChunk| > 0 {
        subChunks' := subChunks' + [Trim(currentChunk)];
        currentChunk' := "";
      }
      var pieces := SplitByChars(ps, sentence);
      subChunks' := subChunks' + pieces;
      currentChunk' := "";
    } else {
      if |currentChunk| + |sentence| > ps.chunkSize && |currentChunk| > 0 {
        subChunks' := subChunks' + [Trim(currentChunk)];
        currentChunk' := "";
      }
      currentChunk' := currentChunk' + sentence;
    }
  }

  method SplitLargeParagraph(ps: ParagraphSplitter, paragraph: string) returns (subChunks: seq<string>)
    requires Valid(ps)
    ensures subChunks == SubChunks(ps.chunkSize, paragraph)
  {
    var n := ps.chunkSize;
    var sentences := Matches(paragraph, 0);
    var lastMatchEnd := MatchesEnd(paragraph, 0);
    subChunks := [];
    var currentChunk := "";
    var i := 0;
    while i < |sentences|
      invariant 0 <= i <= |sentences|
      invariant Group(subChunks, currentChunk) == AddAllToGroup(n, Group([], ""), sentences[..i])
    {
      assert sentences[..i + 1][..i] == sentences[..i];
      subChunks, currentChunk := GroupSentence(ps, subChunks, currentChunk, sentences[i]);
      i := i + 1;
    }
    assert sentences[..|sentences|] == sentences;
    if lastMatchEnd < |paragraph| {
      var remaining := paragraph[lastMatchEnd..];
      if |Trim(remaining)| > 0 {
        subChunks, currentChunk := GroupSentence(ps, subChunks, currentChunk, remaining);
      }
    }
    if |currentChunk| > 0 {
      subChunks := subChunks + [Trim(currentChunk)];
    }
  }

  // ---------------------------------------------------------------- splitText

  /** The chunks emitted so far and the chunk being built. */
  datatype State = State(chunks: seq<string>, current: string)

  /** A chunk is emitted trimmed, and its overlap starts the next one. */
  function Emit(ps: ParagraphSplitter, st: State): State
  {
    State(st.chunks + [Trim(st.current)], ExtractOverlap(ps, st.current))
  }

  /** Appending to the chunk: after a blank line unless the chunk is empty. */
  function WithBreak(current: string, piece: string): string
  {
    if |current| > 0 then current + PARAGRAPH_BREAK + piece else piece
  }

  /** The length the chunk would have with the piece appended. */
  function Potential(current: string, piece: string): nat
  {
    |current| + (if |current| > 0 then 2 else 0) + |piece|
  }

  /** A sub-chunk of a large paragraph: the overlap is dropped when it would overflow, and the result emitted at once. */
  function AddSub(ps: ParagraphSplitter, st: State, sub: string): State
  {
    var cur := if Potential(st.current, sub) > ps.chunkSize && |st.current| > 0 then "" else st.current;
    Emit(ps, State(st.chunks, WithBreak(cur, sub)))
  }

  function AddSubs(ps: ParagraphSplitter, st: State, subs: seq<string>): State
    decreases |subs|
  {
    if |subs| == 0 then st else AddSub(ps, AddSubs(ps, st, subs[..|subs| - 1]), subs[|subs| - 1])
  }

  /** One paragraph in, trimmed: blank ones are skipped, large ones go through their sub-chunks, others accumulate. */
  function AddParagraph(ps: ParagraphSplitter, st: State, paragraph: string): State
    requires Valid(ps)
  {
    var t := Trim(paragraph);
    if |t| == 0 then st
    else if |t| > ps.chunkSize then
      AddSubs(ps, if |st.current| > 0 then Emit(ps, st) else st, SubChunks(ps.chunkSize, t))
    else
      var st1 := if Potential(st.current, t) > ps.chunkSize && |st.current| > 0 then Emit(ps, st) else st;
      State(st1.chunks, WithBreak(st1.current, t))
  }

  function AddParagraphs(ps: ParagraphSplitter, st: State, paragraphs: seq<string>): State
    requires Valid(ps)
    decreases |paragraphs|
  {
    if |paragraphs| == 0 then st
    else AddParagraph(ps, AddParagraphs(ps, st, paragraphs[..|paragraphs| - 1]), paragraphs[|paragraphs| - 1])
  }

  lemma AddParagraphsStep(ps: ParagraphSplitter, st: State, paragraphs: seq<string>, i: nat)
    requires Valid(ps) && i < |paragraphs|
    ensures AddParagraphs(ps, st, paragraphs[..i + 1]) == AddParagraph(ps, AddParagraphs(ps, st, paragraphs[..i]), paragraphs[i])
  {
    assert paragraphs[..i + 1][..i] == paragraphs[..i];
  }

  /** splitText, given the paragraphs the text splits into. */
  function SplitTextSpec(ps: ParagraphSplitter, text: string, paragraphs: seq<string>): seq<string>
    requires Valid(ps)
  {
    if |Trim(text)| == 0 then []
    else
      var st := AddParagraphs(ps, State([], ""), paragraphs);
      if |st.current| > 0 then st.chunks + [Trim(st.current)] else st.chunks
  }

  /** Every emitted chunk is trimmed. */
  ghost predicate AllTrimmed(chunks: seq<string>)
  {
    forall k :: 0 <= k < |chunks| ==> Trim(chunks[k]) == chunks[k]
  }

  lemma EmitTrimmed(ps: ParagraphSplitter, st: State)
    requires AllTrimmed(st.chunks)
    ensures AllTrimmed(Emit(ps, st).chunks)
  {
    var r := Emit(ps, st).chunks;
    forall k | 0 <= k < |r| ensures Trim(r[k]) == r[k] {
      if k == |st.chunks| {
        TrimIdempotent(st.current);
      } else {
        assert r[k] == st.chunks[k];
      }
    }
  }

  lemma {:induction false} AddSubsTrimmed(ps: ParagraphSplitter, st: State, subs: seq<string>)
    requires AllTrimmed(st.chunks)
    ensures AllTrimmed(AddSubs(ps, st, subs).chunks)
    decreases |subs|
  {
    if |subs| > 0 {
      var prev := AddSubs(ps, st, subs[..|subs| - 1]);
      AddSubsTrimmed(ps, st, subs[..|subs| - 1]);
      var sub := subs[|subs| - 1];
      var cur := if Potential(prev.current, sub) > ps.chunkSize && |prev.current| > 0 then "" else prev.current;
      EmitTrimmed(ps, State(prev.chunks, WithBreak(cur, sub)));
    }
  }

  lemma {:induction false} AddParagraphsTrimmed(ps: ParagraphSplitter, st: State, paragraphs: seq<string>)
    requires Valid(ps) && AllTrimmed(st.chunks)
    ensures AllTrimmed(AddParagraphs(ps, st, paragraphs).chunks)
    decreases |paragraphs|
  {
    if |paragraphs| > 0 {
      var prev := AddParagraphs(ps, st, paragraphs[..|paragraphs| - 1]);
      AddParagraphsTrimmed(ps, st, paragraphs[..|paragraphs| - 1]);
      EmitTrimmed(ps, prev);
      var t := Trim(paragraphs[|paragraphs| - 1]);
      if |t| > ps.chunkSize {
        AddSubsTrimmed(ps, if |prev.current| > 0 then Emit(ps, prev) else prev, SubChunks(ps.chunkSize, t));
      }
    }
  }

  /** Blank text gives no chunk, and every chunk is trimmed. */
  lemma SplitTextTrimmed(ps: ParagraphSplitter, text: string, paragraphs: seq<string>)
    requires Valid(ps)
    ensures |Trim(text)| == 0 ==> SplitTextSpec(ps, text, paragraphs) == []
    ensures AllTrimmed(SplitTextSpec(ps, text, paragraphs))
  {
    var st := AddParagraphs(ps, State([], ""), paragraphs);
    AddParagraphsTrimmed(ps, State([], ""), paragraphs);
    EmitTrimmed(ps, st);
  }

  /** Without overlap the chunk being built never exceeds a chunk, and neither does any emitted chunk. */
  ghost predicate Fits(n: int, st: State)
  {
    |st.current| <= n && forall k :: 0 <= k < |st.chunks| ==> |st.chunks[k]| <= n
  }

  lemma {:induction false} AddSubsFit(ps: ParagraphSplitter, st: State, subs: seq<string>)
    requires ps.paragraphOverlapChars <= 0 && Fits(ps.chunkSize, st)
    requires forall k :: 0 <= k < |subs| ==> |subs[k]| <= ps.chunkSize
    ensures Fits(ps.chunkSize, AddSubs(ps, st, subs))
    decreases |subs|
  {
    if |subs| > 0 {
      AddSubsFit(ps, st, subs[..|subs| - 1]);
    }
  }

  lemma AddParagraphFits(ps: ParagraphSplitter, st: State, paragraph: string)
    requires Valid(ps) && ps.paragraphOverlapChars <= 0 && Fits(ps.chunkSize, st)
    ensures Fits(ps.chunkSize, AddParagraph(ps, st, paragraph))
  {
    var t := Trim(paragraph);
    if |t| > ps.chunkSize {
      SubChunksSpec(ps.chunkSize, t);
      AddSubsFit(ps, if |st.current| > 0 then Emit(ps, st) else st, SubChunks(ps.chunkSize, t));
    }
  }

  lemma {:induction false} AddParagraphsFit(ps: ParagraphSplitter, st: State, paragraphs: seq<string>)
    requires Valid(ps) && ps.paragraphOverlapChars <= 0 && Fits(ps.chunkSize, st)
    ensures Fits(ps.chunkSize, AddParagraphs(ps, st, paragraphs))
    decreases |paragraphs|
  {
    if |paragraphs| > 0 {
      AddParagraphsFit(ps, st, paragraphs[..|paragraphs| - 1]);
      AddParagraphFits(ps, AddParagraphs(ps, st, paragraphs[..|paragraphs| - 1]), paragraphs[|paragraphs| - 1]);
    }
  }

  /** With overlaps off, no chunk is longer than the chunk size. */
  lemma SplitTextFits(ps: ParagraphSplitter, text: string, paragraphs: seq<string>)
    requires Valid(ps) && ps.paragraphOverlapChars <= 0
    ensures forall k :: 0 <= k < |SplitTextSpec(ps, text, paragraphs)| ==> |SplitTextSpec(ps, text, paragraphs)[k]| <= ps.chunkSize
  {
    AddParagraphsFit(ps, State([], ""), paragraphs);
  }

  /** Each sub-chunk's own emitted chunk fits whatever the overlap: the overlap is dropped when it would not. */
  lemma AddSubFits(ps: ParagraphSplitter, st: State, sub: string)
    requires |sub| <= ps.chunkSize
    ensures var r := AddSub(ps, st, sub).chunks; |r[|r| - 1]| <= ps.chunkSize
  {
  }

  /** The body of the sub-chunk loop in splitText. */
  method EmitSub(ps: ParagraphSplitter, chunks: seq<string>, currentChunk: string, sub: string)
    returns (chunks': seq<string>, currentChunk': string)
    ensures State(chunks', currentChunk') == AddSub(ps, State(chunks, currentChunk), sub)
  {
    currentChunk' := currentChunk;
    var potentialLen := |currentChunk'| + (if |currentChunk'| > 0 then 2 else 0) + |sub|;
    if potentialLen > ps.chunkSize {
      if |currentChunk'| > 0 {
        currentChunk' := "";
      }
    }
    ghost var kept := currentChunk';
    if |currentChunk'| > 0 {
      currentChunk' := currentChunk' + PARAGRAPH_BREAK;
    }
    currentChunk' := currentChunk' + sub;
    assert currentChunk' == WithBreak(kept, sub);
    chunks' := chunks + [Trim(currentChunk')];
    currentChunk' := ExtractOverlap(ps, currentChunk');
  }

  /** The sub-chunk loop of splitText. */
  method EmitSubs(ps: ParagraphSplitter, chunks: seq<string>, currentChunk: string, subChunks: seq<string>)
    returns (chunks': seq<string>, currentChunk': string)
    ensures State(chunks', currentChunk') == AddSubs(ps, State(chunks, currentChunk), subChunks)
  {
    chunks', currentChunk' := chunks, currentChunk;
    var j := 0;
    while j < |subChunks|
      invariant 0 <= j <= |subChunks|
      invariant State(chunks', currentChunk') == AddSubs(ps, State(chunks, currentChunk), subChunks[..j])
    {
      assert subChunks[..j + 1][..j] == subChunks[..j];
      chunks', currentChunk' := EmitSub(ps, chunks', currentChunk', subChunks[j]);
      j := j + 1;
    }
    assert subChunks[..|subChunks|] == subChunks;
  }

  /** The body of splitText's paragraph loop. */
  method SplitParagraph(ps: ParagraphSplitter, chunks: seq<string>, currentChunk: string, paragraph: string)
    returns (chunks': seq<string>, currentChunk': string)
    requires Valid(ps)
    ensures State(chunks', currentChunk') == AddParagraph(ps, State(chunks, currentChunk), paragraph)
  {
    chunks', currentChunk' := chunks, currentChunk;
    var trimmedParagraph := Trim(paragraph);
    if |trimmedParagraph| == 0 {
      return;
    }
    if |trimmedParagraph| > ps.chunkSize {
      if |currentChunk'| > 0 {
        chunks' := chunks' + [Trim(currentChunk')];
        currentChunk' := ExtractOverlap(ps, currentChunk');
      }
      var subChunks := SplitLargeParagraph(ps, trimmedParagraph);
      chunks', currentChunk' := EmitSubs(ps, chunks', currentChunk', subChunks);
      return;
    }
    var separatorLength := if |currentChunk'| > 0 then 2 else 0;
    var potentialLength := |currentChunk'| + separatorLength + |trimmedParagraph|;
    if potentialLength > ps.chunkSize && |currentChunk'| > 0 {
      chunks' := chunks' + [Trim(currentChunk')];
      currentChunk' := ExtractOverlap(ps, currentChunk');
    }
    if |currentChunk'| > 0 {
      currentChunk' := currentChunk' + PARAGRAPH_BREAK;
    }
    currentChunk' := currentChunk' + trimmedParagraph;
  }

  /** splitText: `split` is the paragraph regex's split of the text. */
  method SplitText(ps: ParagraphSplitter, text: string, split: string -> seq<string>) returns (chunks: seq<string>)
    requires Valid(ps)
    ensures chunks == SplitTextSpec(ps, text, split(text))
  {
    if |Trim(text)| == 0 {
      return [];
    }
    var paragraphs := split(text);
    chunks := [];
    var currentChunk := "";
    var i := 0;
    while i < |paragraphs|
      invariant 0 <= i <= |paragraphs|
      invariant State(chunks, currentChunk) == AddParagraphs(ps, State([], ""), paragraphs[..i])
    {
      AddParagraphsStep(ps, State([], ""), paragraphs, i);
      chunks, currentChunk := SplitParagraph(ps, chunks, currentChunk, paragraphs[i]);
      i := i + 1;
    }
    assert paragraphs[..|paragraphs|] == paragraphs;
    if |currentChunk| > 0 {
      chunks := chunks + [Trim(currentChunk)];
    }
  }
}
