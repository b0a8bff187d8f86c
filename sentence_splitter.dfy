/**
 * The sentence splitter: sentences are added to a chunk until the next one would take it past
 * `chunkSize` characters (the overlap carried over and the joining blanks can still make a chunk
 * longer), a flushed chunk leaves its last `sentenceOverlap` sentences to start the next one, a sentence
 * longer than a chunk is cut at word boundaries, and every chunk becomes a document that
 * records its index and length.
 *
 * The sentence regex is a parameter: it yields the captured group of each match, in order, and
 * the text after the last match. Whether a character is a Han ideograph is a parameter too.
 */
module SentenceSplitter {
  import opened Wrappers
  import opened JavaText
  import opened Documents
  import opened SeqUtil

  const DEFAULT_CHUNK_SIZE: nat := 1000
  const DEFAULT_SENTENCE_OVERLAP: nat := 1
  /** How far a cut may move back to reach a word boundary. */
  const MAX_BACKTRACK: nat := 50

  datatype Splitter = Splitter(chunkSize: nat, sentenceOverlap: nat)

  predicate Valid(sp: Splitter)
  {
    sp.chunkSize >= 1
  }

  /** The builder: a chunk size of 0 or less falls back to 1000, a negative overlap to 1. */
  function Build(chunkSize: int, sentenceOverlap: int): (sp: Splitter)
    ensures Valid(sp)
    ensures chunkSize > 0 ==> sp.chunkSize == chunkSize
    ensures chunkSize <= 0 ==> sp.chunkSize == DEFAULT_CHUNK_SIZE
    ensures sentenceOverlap >= 0 ==> sp.sentenceOverlap == sentenceOverlap
    ensures sentenceOverlap < 0 ==> sp.sentenceOverlap == DEFAULT_SENTENCE_OVERLAP
  {
    Splitter(if chunkSize > 0 then chunkSize else DEFAULT_CHUNK_SIZE,
             if sentenceOverlap >= 0 then sentenceOverlap else DEFAULT_SENTENCE_OVERLAP)
  }

  // ---------------------------------------------------------------- long sentences

  /** An ASCII letter or digit: the characters a cut should not fall between. */
  predicate IsAsciiLetter(c: char)
  {
    ('a' <= c <= 'z') || ('A' <= c <= 'Z') || ('0' <= c <= '9')
  }

  /** From k downwards, past letters and digits, but not below minEnd. */
  function Backtrack(s: string, k: nat, minEnd: nat): (r: nat)
    requires minEnd <= k < |s|
    ensures minEnd <= r <= k
    ensures r == minEnd || !IsAsciiLetter(s[r])
    ensures forall j :: r < j <= k ==> IsAsciiLetter(s[j])
    decreases k
  {
    if k > minEnd && IsAsciiLetter(s[k]) then Backtrack(s, k - 1, minEnd) else k
  }

  /**
   * Where the part starting at i ends: `chunkSize` characters on, unless that falls inside a
   * word, in which case the cut moves back (less than 50 characters, never to i) to the last
   * character that is not a letter or digit, when there is one in reach: the part ends just
   * before that character, which begins the next part.
   */
  function CutEnd(s: string, i: nat, chunkSize: nat): (r: nat)
    requires i < |s| && chunkSize >= 1
    ensures i < r <= |s| && r <= i + chunkSize
    ensures var end := if i + chunkSize < |s| then i + chunkSize else |s|;
            r == end
            || (end < |s| && end - MAX_BACKTRACK < r < end && !IsAsciiLetter(s[r])
                && forall j :: r < j <= end ==> IsAsciiLetter(s[j]))
  {
    var end := if i + chunkSize < |s| then i + chunkSize else |s|;
    if end < |s| && IsAsciiLetter(s[end]) then
      var minEnd := if end - MAX_BACKTRACK > i then end - MAX_BACKTRACK else i;
      var adjusted := Backtrack(s, end, minEnd);
      if adjusted > minEnd && adjusted < end then adjusted else end
    else end
  }

  /** The parts splitLongSentence cuts from position i on. */
  function LongParts(s: string, chunkSize: nat, i: nat): seq<string>
    requires chunkSize >= 1 && i <= |s|
    decreases |s| - i
  {
    if i == |s| then [] else
      var e := CutEnd(s, i, chunkSize);
      [s[i..e]] + LongParts(s, chunkSize, e)
  }

  lemma {:induction false} LongPartsFlatten(s: string, chunkSize: nat, i: nat)
    requires chunkSize >= 1 && i <= |s|
    ensures Flatten(LongParts(s, chunkSize, i)) == s[i..]
    decreases |s| - i
  {
    if i < |s| {
      var e := CutEnd(s, i, chunkSize);
      var r := LongParts(s, chunkSize, i);
      LongPartsFlatten(s, chunkSize, e);
      assert r[0] == s[i..e] && r[1..] == LongParts(s, chunkSize, e);
      assert s[i..e] + s[e..] == s[i..];
    }
  }

  lemma {:induction false} LongPartsSizes(s: string, chunkSize: nat, i: nat)
    requires chunkSize >= 1 && i <= |s|
    ensures forall k :: 0 <= k < |LongParts(s, chunkSize, i)| ==> 1 <= |LongParts(s, chunkSize, i)[k]| <= chunkSize
    decreases |s| - i
  {
    if i < |s| {
      var e := CutEnd(s, i, chunkSize);
      var r := LongParts(s, chunkSize, i);
      var rest := LongParts(s, chunkSize, e);
      LongPartsSizes(s, chunkSize, e);
      assert r == [s[i..e]] + rest;
      assert forall k :: 1 <= k < |r| ==> r[k] == rest[k - 1];
    }
  }

  /** The parts give the sentence back in order, and each holds between 1 and chunkSize characters. */
  lemma LongPartsSpec(s: string, chunkSize: nat, i: nat)
    requires chunkSize >= 1 && i <= |s|
    ensures Flatten(LongParts(s, chunkSize, i)) == s[i..]
    ensures forall k :: 0 <= k < |LongParts(s, chunkSize, i)| ==> 1 <= |LongParts(s, chunkSize, i)[k]| <= chunkSize
  {
    LongPartsFlatten(s, chunkSize, i);
    LongPartsSizes(s, chunkSize, i);
  }

  /** The backtracking loop of splitLongSentence. */
  method BackOff(s: string, end: nat, minEnd: nat) returns (adjustedEnd: nat)
    requires minEnd <= end < |s|
    ensures adjustedEnd == Backtrack(s, end, minEnd)
  {
    adjustedEnd := end;
    while adjustedEnd > minEnd && IsAsciiLetter(s[adjustedEnd])
      invariant minEnd <= adjustedEnd <= end
      invariant Backtrack(s, adjustedEnd, minEnd) == Backtrack(s, end, minEnd)
    {
      adjustedEnd := adjustedEnd - 1;
    }
  }

  lemma LongPartsStep(s: string, chunkSize: nat, i: nat, parts: seq<string>)
    requires chunkSize >= 1 && i < |s|
    requires parts + LongParts(s, chunkSize, i) == LongParts(s, chunkSize, 0)
    ensures var e := CutEnd(s, i, chunkSize);
            (parts + [s[i..e]]) + LongParts(s, chunkSize, e) == LongParts(s, chunkSize, 0)
  {
    var e := CutEnd(s, i, chunkSize);
    assert LongParts(s, chunkSize, i) == [s[i..e]] + LongParts(s, chunkSize, e);
    assert (parts + [s[i..e]]) + LongParts(s, chunkSize, e) == parts + ([s[i..e]] + LongParts(s, chunkSize, e));
  }

  /** splitLongSentence: the cutting loop. */
  method SplitLongSentence(sp: Splitter, sentence: string) returns (parts: seq<string>)
    requires Valid(sp)
    ensures parts == LongParts(sentence, sp.chunkSize, 0)
  {
    parts := [];
    var i := 0;
    var len := |sentence|;
    while i < len
      invariant 0 <= i <= len
      invariant parts + LongParts(sentence, sp.chunkSize, i) == LongParts(sentence, sp.chunkSize, 0)
      decreases len - i
    {
      var end := if i + sp.chunkSize < len then i + sp.chunkSize else len;
      if end < len && IsAsciiLetter(sentence[end]) {
        var minEnd := if end - MAX_BACKTRACK > i then end - MAX_BACKTRACK else i;
        var adjustedEnd := BackOff(sentence, end, minEnd);
        if adjustedEnd > minEnd && adjustedEnd < end {
          end := adjustedEnd;
        }
      }
      assert end == CutEnd(sentence, i, sp.chunkSize);
      LongPartsStep(sentence, sp.chunkSize, i, parts);
      parts := parts + [sentence[i..end]];
      i := end;
    }
    assert parts + [] == parts;
  }

  // ---------------------------------------------------------------- chunk buffer

  /** The summed length of the sentences (calculateSize). */
  function SumLen(ss: seq<string>): nat
    decreases |ss|
  {
    if |ss| == 0 then 0 else SumLen(ss[..|ss| - 1]) + |ss[|ss| - 1]|
  }

  lemma SumLenSnoc(ss: seq<string>, s: string)
    ensures SumLen(ss + [s]) == SumLen(ss) + |s|
  {
    assert (ss + [s])[..|ss|] == ss;
  }

  /** handleOverlap: the last n sentences when the chunk holds more than n (and n > 0), else nothing. */
  function Overlap(chunk: seq<string>, n: nat): (r: seq<string>)
    ensures |r| == (if n > 0 && |chunk| > n then n else 0)
    ensures r == chunk[|chunk| - |r|..]
  {
    if n > 0 && |chunk| > n then chunk[|chunk| - n..] else []
  }

  /** The chunks flushed so far and the sentences of the one being filled. */
  datatype Buffer = Buffer(flushed: seq<seq<string>>, current: seq<string>)

  /** One piece in: when it would overflow a non-empty chunk, that chunk is flushed and its overlap starts the next. */
  function Add(sp: Splitter, b: Buffer, piece: string): Buffer
  {
    var b' := if SumLen(b.current) + |piece| > sp.chunkSize && b.current != [] then
                Buffer(b.flushed + [b.current], Overlap(b.current, sp.sentenceOverlap))
              else b;
    Buffer(b'.flushed, b'.current + [piece])
  }

  function AddAll(sp: Splitter, b: Buffer, pieces: seq<string>): Buffer
    decreases |pieces|
  {
    if |pieces| == 0 then b else Add(sp, AddAll(sp, b, pieces[..|pieces| - 1]), pieces[|pieces| - 1])
  }

  /** The buffer flushed without keeping an overlap (before a long sentence). */
  function Reset(b: Buffer): Buffer
  {
    if b.current != [] then Buffer(b.flushed + [b.current], []) else b
  }

  /** What one sentence contributes: its parts when it is longer than a chunk, else itself. */
  function SentenceUnits(sp: Splitter, sentence: string): seq<string>
    requires Valid(sp)
  {
    if |sentence| > sp.chunkSize then LongParts(sentence, sp.chunkSize, 0) else [sentence]
  }

  function AddSentence(sp: Splitter, b: Buffer, sentence: string): Buffer
    requires Valid(sp)
  {
    if |sentence| > sp.chunkSize then AddAll(sp, Reset(b), SentenceUnits(sp, sentence))
    else Add(sp, b, sentence)
  }

  function Feed(sp: Splitter, sentences: seq<string>): Buffer
    requires Valid(sp)
    decreases |sentences|
  {
    if |sentences| == 0 then Buffer([], [])
    else AddSentence(sp, Feed(sp, sentences[..|sentences| - 1]), sentences[|sentences| - 1])
  }

  /** Every piece the sentences are cut into, in order. */
  function Units(sp: Splitter, sentences: seq<string>): seq<string>
    requires Valid(sp)
    decreases |sentences|
  {
    if |sentences| == 0 then []
    else Units(sp, sentences[..|sentences| - 1]) + SentenceUnits(sp, sentences[|sentences| - 1])
  }

  /** The sentence lists of the emitted chunks: those flushed, then what is left in the buffer. */
  function Chunks(sp: Splitter, sentences: seq<string>): seq<seq<string>>
    requires Valid(sp)
  {
    var b := Feed(sp, sentences);
    if b.current == [] then b.flushed else b.flushed + [b.current]
  }

  /** No flushed chunk is empty, and the buffer holds exactly the given pieces (some more than once). */
  ghost predicate Holds(b: Buffer, units: seq<string>)
  {
    (forall k :: 0 <= k < |b.flushed| ==> b.flushed[k] != [])
    && (forall u :: u in units <==> u in Flatten(b.flushed) || u in b.current)
  }

  lemma FlushHolds(flushed: seq<seq<string>>, current: seq<string>, u: string)
    ensures u in Flatten(flushed + [current]) <==> u in Flatten(flushed) || u in current
  {
    FlattenSnoc(flushed, current);
  }

  lemma AddHolds(sp: Splitter, b: Buffer, units: seq<string>, piece: string)
    requires Holds(b, units)
    ensures Holds(Add(sp, b, piece), units + [piece])
  {
    var b2 := Add(sp, b, piece);
    if SumLen(b.current) + |piece| > sp.chunkSize && b.current != [] {
      var ov := Overlap(b.current, sp.sentenceOverlap);
      forall u ensures u in units + [piece] <==> u in Flatten(b2.flushed) || u in b2.current {
        FlushHolds(b.flushed, b.current, u);
        assert u in ov ==> u in b.current;
      }
    }
  }

  lemma {:induction false} AddAllHolds(sp: Splitter, b: Buffer, units: seq<string>, pieces: seq<string>)
    requires Holds(b, units)
    ensures Holds(AddAll(sp, b, pieces), units + pieces)
    decreases |pieces|
  {
    if |pieces| > 0 {
      var init := pieces[..|pieces| - 1];
      AddAllHolds(sp, b, units, init);
      AddHolds(sp, AddAll(sp, b, init), units + init, pieces[|pieces| - 1]);
      assert units + init + [pieces[|pieces| - 1]] == units + pieces;
    }
  }

  lemma ResetHolds(b: Buffer, units: seq<string>)
    requires Holds(b, units)
    ensures Holds(Reset(b), units)
  {
    if b.current != [] {
      forall u ensures u in units <==> u in Flatten(Reset(b).flushed) || u in Reset(b).current {
        FlushHolds(b.flushed, b.current, u);
      }
    }
  }

  lemma {:induction false} FeedHolds(sp: Splitter, sentences: seq<string>)
    requires Valid(sp)
    ensures Holds(Feed(sp, sentences), Units(sp, sentences))
    decreases |sentences|
  {
    if |sentences| > 0 {
      var init := sentences[..|sentences| - 1];
      var s := sentences[|sentences| - 1];
      var b := Feed(sp, init);
      FeedHolds(sp, init);
      if |s| > sp.chunkSize {
        ResetHolds(b, Units(sp, init));
        AddAllHolds(sp, Reset(b), Units(sp, init), SentenceUnits(sp, s));
      } else {
        AddHolds(sp, b, Units(sp, init), s);
      }
    }
  }

  /**
   * Nothing is lost and nothing is invented: a piece of a sentence is in some chunk exactly
   * when it is one of the pieces the sentences were cut into; and no chunk is empty.
   */
  lemma ChunksSpec(sp: Splitter, sentences: seq<string>)
    requires Valid(sp)
    ensures forall k :: 0 <= k < |Chunks(sp, sentences)| ==> Chunks(sp, sentences)[k] != []
    ensures forall u :: u in Units(sp, sentences) <==> u in Flatten(Chunks(sp, sentences))
  {
    var b := Feed(sp, sentences);
    FeedHolds(sp, sentences);
    if b.current != [] {
      forall u ensures u in Units(sp, sentences) <==> u in Flatten(Chunks(sp, sentences)) {
        FlushHolds(b.flushed, b.current, u);
      }
    }
  }

  // ---------------------------------------------------------------- chunk documents

  /** A sentence that starts with a Han ideograph. */
  predicate IsChinese(s: string, isHan: char -> bool)
  {
    |s| > 0 && isHan(s[0])
  }

  /** flushChunk's text: each sentence after the first is preceded by a blank unless it is Chinese. */
  function JoinChunk(ss: seq<string>, isHan: char -> bool): string
    decreases |ss|
  {
    if |ss| == 0 then ""
    else if |ss| == 1 then ss[0]
    else JoinChunk(ss[..|ss| - 1], isHan) + (if IsChinese(ss[|ss| - 1], isHan) then "" else " ") + ss[|ss| - 1]
  }

  lemma {:induction false} JoinSnoc(ps: seq<string>, p: string, sep: string)
    requires |ps| >= 1
    ensures Join(ps + [p], sep) == Join(ps, sep) + sep + p
    decreases |ps|
  {
    if |ps| == 1 {
      assert (ps + [p])[1..] == [p];
    } else {
      assert (ps + [p])[1..] == ps[1..] + [p];
      JoinSnoc(ps[1..], p, sep);
    }
  }

  /**
   * Sentences in a Latin script are joined by single blanks, like String.join(" ", ...), and
   * Chinese sentences are run together.
   */
  lemma {:induction false} JoinChunkSpec(ss: seq<string>, isHan: char -> bool)
    ensures (forall i :: 0 < i < |ss| ==> !IsChinese(ss[i], isHan)) ==> JoinChunk(ss, isHan) == Join(ss, " ")
    ensures (forall i :: 0 < i < |ss| ==> IsChinese(ss[i], isHan)) ==> JoinChunk(ss, isHan) == Flatten(ss)
    decreases |ss|
  {
    if |ss| >= 2 {
      var init := ss[..|ss| - 1];
      var last := ss[|ss| - 1];
      JoinChunkSpec(init, isHan);
      assert ss == init + [last];
      if forall i :: 0 < i < |ss| ==> !IsChinese(ss[i], isHan) {
        JoinSnoc(init, last, " ");
      }
      if forall i :: 0 < i < |ss| ==> IsChinese(ss[i], isHan) {
        FlattenSnoc(init, last);
      }
    } else if |ss| == 1 {
      assert ss[1..] == [];
    }
  }

  /** The loop of flushChunk that builds the text. */
  method ChunkText(ss: seq<string>, isHan: char -> bool) returns (text: string)
    ensures text == JoinChunk(ss, isHan)
  {
    text := "";
    var i := 0;
    while i < |ss|
      invariant 0 <= i <= |ss|
      invariant text == JoinChunk(ss[..i], isHan)
    {
      var s := ss[i];
      assert ss[..i + 1][..i] == ss[..i];
      if i > 0 && !IsChinese(s, isHan) {
        text := text + " ";
      }
      text := text + s;
      i := i + 1;
    }
    assert ss[..|ss|] == ss;
  }

  /**
   * A chunk document: a new document (its generated id is `id`) with the text, the original
   * metadata, and chunk_index, chunk_size and splitter_type on top.
   */
  function ChunkDoc(original: Document, text: string, index: nat, id: string): (d: Document)
    ensures d.id == id && d.text == Some(text)
    ensures "chunk_index" in d.metadata && d.metadata["chunk_index"] == MInt(index)
    ensures "chunk_size" in d.metadata && d.metadata["chunk_size"] == MInt(|text|)
    ensures "splitter_type" in d.metadata && d.metadata["splitter_type"] == MStr("sentence")
    ensures forall key :: key in original.metadata ==> key in d.metadata
    ensures forall key :: key in d.metadata && key != "chunk_index" && key != "chunk_size" && key != "splitter_type"
              ==> key in original.metadata && d.metadata[key] == original.metadata[key]
  {
    Document(id, Some(text),
             original.metadata["chunk_index" := MInt(index)]["chunk_size" := MInt(|text|)]["splitter_type" := MStr("sentence")])
  }

  /** The documents of the chunk lists, indexed in emission order. */
  function ChunkDocs(original: Document, chunks: seq<seq<string>>, isHan: char -> bool, newId: (string, nat) -> string): (r: seq<Document>)
    ensures |r| == |chunks|
    decreases |chunks|
  {
    if |chunks| == 0 then []
    else
      var k := |chunks| - 1;
      ChunkDocs(original, chunks[..k], isHan, newId) + [ChunkDoc(original, JoinChunk(chunks[k], isHan), k, newId(original.id, k))]
  }

  lemma {:induction false} ChunkDocsIndexed(original: Document, chunks: seq<seq<string>>, isHan: char -> bool, newId: (string, nat) -> string)
    ensures var r := ChunkDocs(original, chunks, isHan, newId);
            forall k :: 0 <= k < |r| ==> r[k] == ChunkDoc(original, JoinChunk(chunks[k], isHan), k, newId(original.id, k))
    decreases |chunks|
  {
    if |chunks| > 0 {
      ChunkDocsIndexed(original, chunks[..|chunks| - 1], isHan, newId);
    }
  }

  /** What splitDocument returns for the given sentences. */
  function SplitSpec(sp: Splitter, document: Document, sentences: seq<string>, isHan: char -> bool, newId: (string, nat) -> string): seq<Document>
    requires Valid(sp)
  {
    if |sentences| == 0 then [document] else ChunkDocs(document, Chunks(sp, sentences), isHan, newId)
  }

  /**
   * Chunk k carries chunk_index k and chunk_size equal to its text's length; a document whose
   * text yields no sentence comes back unchanged.
   */
  lemma SplitSpecIndexed(sp: Splitter, document: Document, sentences: seq<string>, isHan: char -> bool, newId: (string, nat) -> string)
    requires Valid(sp)
    ensures |sentences| == 0 ==> SplitSpec(sp, document, sentences, isHan, newId) == [document]
    ensures |sentences| > 0 ==>
              var r := SplitSpec(sp, document, sentences, isHan, newId);
              |r| == |Chunks(sp, sentences)|
              && forall k :: 0 <= k < |r| ==>
                   r[k].text.Some? && "chunk_index" in r[k].metadata && "chunk_size" in r[k].metadata
                   && r[k].metadata["chunk_index"] == MInt(k) && r[k].metadata["chunk_size"] == MInt(|r[k].text.value|)
  {
    if |sentences| > 0 {
      ChunkDocsIndexed(document, Chunks(sp, sentences), isHan, newId);
    }
  }

  /** flushChunk: the chunk's document appended, with the next index. */
  method FlushChunk(result: seq<Document>, chunk: seq<string>, original: Document, isHan: char -> bool, newId: (string, nat) -> string)
    returns (result': seq<Document>)
    ensures result' == result + [ChunkDoc(original, JoinChunk(chunk, isHan), |result|, newId(original.id, |result|))]
  {
    var text := ChunkText(chunk, isHan);
    result' := result + [ChunkDoc(original, text, |result|, newId(original.id, |result|))];
  }

  lemma ChunkDocsSnoc(original: Document, chunks: seq<seq<string>>, chunk: seq<string>, isHan: char -> bool, newId: (string, nat) -> string)
    ensures ChunkDocs(original, chunks + [chunk], isHan, newId)
            == ChunkDocs(original, chunks, isHan, newId) + [ChunkDoc(original, JoinChunk(chunk, isHan), |chunks|, newId(original.id, |chunks|))]
  {
    assert (chunks + [chunk])[..|chunks|] == chunks;
  }

  /** The body of both packing loops: flush (keeping the overlap) when the piece would overflow, then add it. */
  method AddPiece(sp: Splitter, document: Document, isHan: char -> bool, newId: (string, nat) -> string,
                  result: seq<Document>, ghost flushed: seq<seq<string>>, currentChunk: seq<string>, currentSize: nat, piece: string)
    returns (result': seq<Document>, ghost flushed': seq<seq<string>>, currentChunk': seq<string>, currentSize': nat)
    requires currentSize == SumLen(currentChunk)
    requires result == ChunkDocs(document, flushed, isHan, newId)
    ensures Buffer(flushed', currentChunk') == Add(sp, Buffer(flushed, currentChunk), piece)
    ensures currentSize' == SumLen(currentChunk')
    ensures result' == ChunkDocs(document, flushed', isHan, newId)
  {
    result', flushed', currentChunk', currentSize' := result, flushed, currentChunk, currentSize;
    if currentSize + |piece| > sp.chunkSize && currentChunk != [] {
      result' := FlushChunk(result, currentChunk, document, isHan, newId);
      ChunkDocsSnoc(document, flushed, currentChunk, isHan, newId);
      flushed' := flushed + [currentChunk];
      currentChunk' := Overlap(currentChunk, sp.sentenceOverlap);
      currentSize' := SumLen(currentChunk');
    }
    SumLenSnoc(currentChunk', piece);
    currentChunk' := currentChunk' + [piece];
    currentSize' := currentSize' + |piece|;
  }

  /** A long sentence: the buffer flushed without overlap, then its parts added one by one. */
  method AddLongSentence(sp: Splitter, document: Document, isHan: char -> bool, newId: (string, nat) -> string,
                         result: seq<Document>, ghost flushed: seq<seq<string>>, currentChunk: seq<string>, currentSize: nat, sentence: string)
    returns (result': seq<Document>, ghost flushed': seq<seq<string>>, currentChunk': seq<string>, currentSize': nat)
    requires Valid(sp) && |sentence| > sp.chunkSize
    requires currentSize == SumLen(currentChunk)
    requires result == ChunkDocs(document, flushed, isHan, newId)
    ensures Buffer(flushed', currentChunk') == AddSentence(sp, Buffer(flushed, currentChunk), sentence)
    ensures currentSize' == SumLen(currentChunk')
    ensures result' == ChunkDocs(document, flushed', isHan, newId)
  {
    ghost var before := Buffer(flushed, currentChunk);
    result', flushed', currentChunk', currentSize' := result, flushed, currentChunk, currentSize;
    if currentChunk != [] {
      result' := FlushChunk(result, currentChunk, document, isHan, newId);
      ChunkDocsSnoc(document, flushed, currentChunk, isHan, newId);
      flushed' := flushed + [currentChunk];
      currentChunk' := [];
      currentSize' := 0;
    }
    assert Buffer(flushed', currentChunk') == Reset(before);
    var parts := SplitLongSentence(sp, sentence);
    var j := 0;
    while j < |parts|
      invariant 0 <= j <= |parts|
      invariant Buffer(flushed', currentChunk') == AddAll(sp, Reset(before), parts[..j])
      invariant currentSize' == SumLen(currentChunk')
      invariant result' == ChunkDocs(document, flushed', isHan, newId)
    {
      AddAllStep(sp, Reset(before), parts, j);
      result', flushed', currentChunk', currentSize' := AddPiece(sp, document, isHan, newId, result', flushed', currentChunk', currentSize', parts[j]);
      j := j + 1;
    }
    assert parts[..|parts|] == parts;
    assert AddSentence(sp, before, sentence) == AddAll(sp, Reset(before), parts);
  }

  lemma AddAllStep(sp: Splitter, b: Buffer, pieces: seq<string>, j: nat)
    requires j < |pieces|
    ensures AddAll(sp, b, pieces[..j + 1]) == Add(sp, AddAll(sp, b, pieces[..j]), pieces[j])
  {
    assert pieces[..j + 1][..j] == pieces[..j];
  }

  lemma FeedStep(sp: Splitter, sentences: seq<string>, i: nat)
    requires Valid(sp) && i < |sentences|
    ensures Feed(sp, sentences[..i + 1]) == AddSentence(sp, Feed(sp, sentences[..i]), sentences[i])
  {
    assert sentences[..i + 1][..i] == sentences[..i];
  }

  /** splitDocument over the extracted sentences. */
  method SplitDocument(sp: Splitter, document: Document, sentences: seq<string>, isHan: char -> bool, newId: (string, nat) -> string)
    returns (result: seq<Document>)
    requires Valid(sp)
    ensures result == SplitSpec(sp, document, sentences, isHan, newId)
  {
    if |sentences| == 0 {
      return [document];
    }
    result := [];
    var currentChunk: seq<string> := [];
    var currentSize := 0;
    ghost var flushed: seq<seq<string>> := [];
    var i := 0;
    while i < |sentences|
      invariant 0 <= i <= |sentences|
      invariant Buffer(flushed, currentChunk) == Feed(sp, sentences[..i])
      invariant currentSize == SumLen(currentChunk)
      invariant result == ChunkDocs(document, flushed, isHan, newId)
    {
      var sentence := sentences[i];
      FeedStep(sp, sentences, i);
      if |sentence| > sp.chunkSize {
        result, flushed, currentChunk, currentSize := AddLongSentence(sp, document, isHan, newId, result, flushed, currentChunk, currentSize, sentence);
      } else {
        result, flushed, currentChunk, currentSize := AddPiece(sp, document, isHan, newId, result, flushed, currentChunk, currentSize, sentence);
      }
      i := i + 1;
    }
    assert sentences[..|sentences|] == sentences;
    if currentChunk != [] {
      result := FlushChunk(result, currentChunk, document, isHan, newId);
      ChunkDocsSnoc(document, flushed, currentChunk, isHan, newId);
      flushed := flushed + [currentChunk];
    }
  }

  // ---------------------------------------------------------------- sentence extraction and apply

  /**
   * extractSentences given the regex matches: each captured sentence trimmed and kept when it
   * has text; then the trimmed text after the last match, cut like a long sentence when it is
   * longer than a chunk.
   */
  function Extracted(sp: Splitter, matched: seq<string>, rest: string): seq<string>
    requires Valid(sp)
  {
    KeptSentences(matched) + RestSentences(sp, rest)
  }

  function KeptSentences(matched: seq<string>): (r: seq<string>)
    ensures forall k :: 0 <= k < |r| ==> HasText(r[k]) && r[k] == Trim(r[k])
    decreases |matched|
  {
    if |matched| == 0 then []
    else
      var s := Trim(matched[|matched| - 1]);
      TrimIdempotent(matched[|matched| - 1]);
      KeptSentences(matched[..|matched| - 1]) + (if HasText(s) then [s] else [])
  }

  function RestSentences(sp: Splitter, rest: string): (r: seq<string>)
    requires Valid(sp)
  {
    var remaining := Trim(rest);
    if !HasText(remaining) then []
    else if |remaining| > sp.chunkSize then LongParts(remaining, sp.chunkSize, 0)
    else [remaining]
  }

  /** The remainder's parts are non-empty and rebuild the trimmed remainder; a blank remainder gives none. */
  lemma RestSentencesSpec(sp: Splitter, rest: string)
    requires Valid(sp)
    ensures forall k :: 0 <= k < |RestSentences(sp, rest)| ==> |RestSentences(sp, rest)[k]| >= 1
    ensures HasText(Trim(rest)) ==> Flatten(RestSentences(sp, rest)) == Trim(rest)
    ensures !HasText(Trim(rest)) ==> RestSentences(sp, rest) == []
  {
    var remaining := Trim(rest);
    if HasText(remaining) && |remaining| > sp.chunkSize {
      LongPartsSpec(remaining, sp.chunkSize, 0);
    } else if HasText(remaining) {
      assert |remaining| >= 1;
      assert Flatten([remaining]) == remaining + Flatten([]);
    }
  }

  /**
   * Every extracted sentence is non-empty and the remainder's parts rebuild the trimmed
   * remainder; a blank remainder adds nothing.
   */
  lemma ExtractedSpec(sp: Splitter, matched: seq<string>, rest: string)
    requires Valid(sp)
    ensures forall k :: 0 <= k < |Extracted(sp, matched, rest)| ==> |Extracted(sp, matched, rest)[k]| >= 1
    ensures HasText(Trim(rest)) ==> Flatten(RestSentences(sp, rest)) == Trim(rest)
    ensures !HasText(Trim(rest)) ==> Extracted(sp, matched, rest) == KeptSentences(matched)
  {
    RestSentencesSpec(sp, rest);
    var kept := KeptSentences(matched);
    var more := RestSentences(sp, rest);
    var r := kept + more;
    forall k | 0 <= k < |r| ensures |r[k]| >= 1 {
      if k >= |kept| {
        assert r[k] == more[k - |kept|];
      } else {
        assert r[k] == kept[k] && HasText(kept[k]);
      }
    }
    assert more == [] ==> r == kept;
  }

  method ExtractSentences(sp: Splitter, matched: seq<string>, rest: string) returns (sentences: seq<string>)
    requires Valid(sp)
    ensures sentences == Extracted(sp, matched, rest)
  {
    sentences := [];
    var i := 0;
    while i < |matched|
      invariant 0 <= i <= |matched|
      invariant sentences == KeptSentences(matched[..i])
    {
      assert matched[..i + 1][..i] == matched[..i];
      var sentence := Trim(matched[i]);
      if HasText(sentence) {
        sentences := sentences + [sentence];
      }
      i := i + 1;
    }
    assert matched[..|matched|] == matched;
    if |rest| > 0 {
      var remaining := Trim(rest);
      if HasText(remaining) {
        if |remaining| > sp.chunkSize {
          var parts := SplitLongSentence(sp, remaining);
          sentences := sentences + parts;
        } else {
          sentences := sentences + [remaining];
        }
      }
    } else {
      assert !HasText(Trim(rest));
      assert sentences + [] == sentences;
    }
  }

  /** apply: documents without text are skipped, the others split in order and concatenated. */
  function Applied(sp: Splitter, documents: seq<Document>, matcher: string -> (seq<string>, string),
                   isHan: char -> bool, newId: (string, nat) -> string): seq<Document>
    requires Valid(sp)
    decreases |documents|
  {
    if |documents| == 0 then []
    else
      var doc := documents[|documents| - 1];
      Applied(sp, documents[..|documents| - 1], matcher, isHan, newId)
      + (if doc.text.Some? && HasText(doc.text.value) then
           var m := matcher(doc.text.value);
           SplitSpec(sp, doc, Extracted(sp, m.0, m.1), isHan, newId)
         else [])
  }

  /** Every document splitDocument returns for a document with text has text. */
  lemma SplitSpecHasText(sp: Splitter, document: Document, sentences: seq<string>, isHan: char -> bool, newId: (string, nat) -> string)
    requires Valid(sp) && document.text.Some?
    ensures forall d :: d in SplitSpec(sp, document, sentences, isHan, newId) ==> d.text.Some?
  {
    if |sentences| > 0 {
      var r := ChunkDocs(document, Chunks(sp, sentences), isHan, newId);
      ChunkDocsIndexed(document, Chunks(sp, sentences), isHan, newId);
      forall d | d in r ensures d.text.Some? {
        var k :| 0 <= k < |r| && r[k] == d;
      }
    }
  }

  /** Every document apply returns has text. */
  lemma {:induction false} AppliedSpec(sp: Splitter, documents: seq<Document>, matcher: string -> (seq<string>, string),
                                       isHan: char -> bool, newId: (string, nat) -> string)
    requires Valid(sp)
    ensures forall d :: d in Applied(sp, documents, matcher, isHan, newId) ==> d.text.Some?
    decreases |documents|
  {
    if |documents| > 0 {
      var doc := documents[|documents| - 1];
      AppliedSpec(sp, documents[..|documents| - 1], matcher, isHan, newId);
      if doc.text.Some? && HasText(doc.text.value) {
        var m := matcher(doc.text.value);
        SplitSpecHasText(sp, doc, Extracted(sp, m.0, m.1), isHan, newId);
      }
    }
  }

  /** Documents without text contribute nothing to what apply returns. */
  lemma {:induction false} AppliedWithoutText(sp: Splitter, documents: seq<Document>, matcher: string -> (seq<string>, string),
                                              isHan: char -> bool, newId: (string, nat) -> string)
    requires Valid(sp)
    requires forall k :: 0 <= k < |documents| ==> documents[k].text.None? || !HasText(documents[k].text.value)
    ensures Applied(sp, documents, matcher, isHan, newId) == []
    decreases |documents|
  {
    if |documents| > 0 {
      var init := documents[..|documents| - 1];
      assert forall k :: 0 <= k < |init| ==> init[k] == documents[k];
      AppliedWithoutText(sp, init, matcher, isHan, newId);
    }
  }

  method Apply(sp: Splitter, documents: seq<Document>, matcher: string -> (seq<string>, string),
               isHan: char -> bool, newId: (string, nat) -> string) returns (result: seq<Document>)
    requires Valid(sp)
    ensures result == Applied(sp, documents, matcher, isHan, newId)
  {
    result := [];
    var i := 0;
    while i < |documents|
      invariant 0 <= i <= |documents|
      invariant result == Applied(sp, documents[..i], matcher, isHan, newId)
    {
      var doc := documents[i];
      assert documents[..i + 1][..i] == documents[..i];
      if doc.text.Some? && HasText(doc.text.value) {
        var m := matcher(doc.text.value);
        var sentences := ExtractSentences(sp, m.0, m.1);
        var chunks := SplitDocument(sp, doc, sentences, isHan, newId);
        result := result + chunks;
      } else {
        assert result + [] == result;
      }
      i := i + 1;
    }
    assert documents[..|documents|] == documents;
  }
}
