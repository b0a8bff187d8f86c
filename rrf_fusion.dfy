/**
 * Reciprocal Rank Fusion of several ranked document lists: a document scores 1 / (60 + rank)
 * for each place it holds in a list (ranks start at 1), the scores are summed per document id,
 * and the topK ids by score are returned as the first document seen with each id.
 */
module RrfFusion {
  import opened Wrappers
  import opened JavaText
  import opened Documents

  /** The RRF constant k. */
  const K: nat := 60

  /** getDocumentId can only fail on a document with a blank id and no text. */
  predicate Resolvable(doc: Document)
  {
    HasText(doc.id) || doc.text.Some?
  }

  /**
   * getDocumentId: the id when it has text, else the decimal hash code of the text. For a
   * document that is not Resolvable the value is never used: fusion throws first.
   */
  function IdOf(doc: Document): string
  {
    if HasText(doc.id) then doc.id else if doc.text.Some? then IntToString(HashCode(doc.text.value)) else ""
  }

  /** A document with its 1-based rank in its list. */
  datatype Entry = Entry(doc: Document, rank: nat)

  function Ranked(list: seq<Document>): (r: seq<Entry>)
    ensures |r| == |list| && forall i :: 0 <= i < |list| ==> r[i] == Entry(list[i], i + 1)
  {
    seq(|list|, i requires 0 <= i < |list| => Entry(list[i], i + 1))
  }

  /** The entries in visiting order; a null list (None) contributes nothing. */
  function Entries(lists: seq<Option<seq<Document>>>): seq<Entry>
    decreases |lists|
  {
    if |lists| == 0 then []
    else
      var last := lists[|lists| - 1];
      Entries(lists[..|lists| - 1]) + (if last.Some? then Ranked(last.value) else [])
  }

  lemma {:induction false} EntriesAppend(a: seq<Option<seq<Document>>>, b: seq<Option<seq<Document>>>)
    ensures Entries(a + b) == Entries(a) + Entries(b)
    decreases |b|
  {
    if |b| > 0 {
      assert (a + b)[..|a + b| - 1] == a + b[..|b| - 1];
      EntriesAppend(a, b[..|b| - 1]);
    } else {
      assert a + b == a;
    }
  }

  ghost predicate AllResolvable(es: seq<Entry>)
  {
    forall i :: 0 <= i < |es| ==> Resolvable(es[i].doc)
  }

  /** A rank's contribution 1 / (k + rank). */
  function Contribution(rank: nat): (c: real)
    ensures c > 0.0
  {
    1.0 / (K + rank) as real
  }

  /** The reference score: the sum of the contributions of the entries with that id. */
  function Score(es: seq<Entry>, id: string): (s: real)
    decreases |es|
  {
    if |es| == 0 then 0.0
    else
      var e := es[|es| - 1];
      Score(es[..|es| - 1], id) + (if IdOf(e.doc) == id then Contribution(e.rank) else 0.0)
  }

  /** The ids that occur. */
  function Ids(es: seq<Entry>): set<string>
    decreases |es|
  {
    if |es| == 0 then {} else Ids(es[..|es| - 1]) + {IdOf(es[|es| - 1].doc)}
  }

  lemma {:induction false} IdsCons(es: seq<Entry>)
    requires |es| > 0
    ensures Ids(es) == {IdOf(es[0].doc)} + Ids(es[1..])
    decreases |es|
  {
    if |es| > 1 {
      var init := es[..|es| - 1];
      IdsCons(init);
      assert es[1..][..|es[1..]| - 1] == init[1..];
      assert init[0] == es[0];
    } else {
      assert es[..0] == [] && es[1..] == [];
    }
  }

  /** An id occurs iff some entry carries it. */
  lemma {:induction false} IdsSpec(es: seq<Entry>, id: string)
    ensures id in Ids(es) <==> exists i :: 0 <= i < |es| && IdOf(es[i].doc) == id
    decreases |es|
  {
    if |es| > 0 {
      var init := es[..|es| - 1];
      IdsSpec(init, id);
      if exists i :: 0 <= i < |es| && IdOf(es[i].doc) == id {
        var i :| 0 <= i < |es| && IdOf(es[i].doc) == id;
        if i < |es| - 1 {
          assert init[i] == es[i];
        }
      }
      if exists i :: 0 <= i < |init| && IdOf(init[i].doc) == id {
        var i :| 0 <= i < |init| && IdOf(init[i].doc) == id;
        assert es[i] == init[i];
      }
    }
  }

  /** The first document with the given id. */
  function First(es: seq<Entry>, id: string): (d: Document)
    requires id in Ids(es)
    ensures IdOf(d) == id
    decreases |es|
  {
    if IdOf(es[0].doc) == id then es[0].doc
    else
      IdsCons(es);
      First(es[1..], id)
  }

  // ---------------------------------------------------------------- the maps the loops fill

  /** rrfScores after the given entries: merge(id, contribution, Double::sum). */
  function ScoreMap(es: seq<Entry>): map<string, real>
    decreases |es|
  {
    if |es| == 0 then map[]
    else
      var m := ScoreMap(es[..|es| - 1]);
      var e := es[|es| - 1];
      var id := IdOf(e.doc);
      m[id := (if id in m then m[id] else 0.0) + Contribution(e.rank)]
  }

  /** documentMap after the given entries: putIfAbsent(id, doc). */
  function DocMap(es: seq<Entry>): map<string, Document>
    decreases |es|
  {
    if |es| == 0 then map[]
    else
      var m := DocMap(es[..|es| - 1]);
      var e := es[|es| - 1];
      if IdOf(e.doc) in m then m else m[IdOf(e.doc) := e.doc]
  }

  /** The ids in the order they were first seen. */
  function Order(es: seq<Entry>): seq<string>
    decreases |es|
  {
    if |es| == 0 then []
    else
      var o := Order(es[..|es| - 1]);
      var id := IdOf(es[|es| - 1].doc);
      if id in o then o else o + [id]
  }

  lemma {:induction false} ScoreAbsent(es: seq<Entry>, id: string)
    requires id !in Ids(es)
    ensures Score(es, id) == 0.0
    decreases |es|
  {
    if |es| > 0 {
      ScoreAbsent(es[..|es| - 1], id);
    }
  }

  /** The score map holds exactly the ids that occur, each with its reference score. */
  lemma {:induction false} ScoreMapSpec(es: seq<Entry>)
    ensures ScoreMap(es).Keys == Ids(es)
    ensures forall id :: id in ScoreMap(es) ==> ScoreMap(es)[id] == Score(es, id)
    decreases |es|
  {
    if |es| > 0 {
      var init := es[..|es| - 1];
      ScoreMapSpec(init);
      var id := IdOf(es[|es| - 1].doc);
      if id !in ScoreMap(init) {
        ScoreAbsent(init, id);
      }
    }
  }

  /** Appending an entry does not change the first document of an id already present. */
  lemma {:induction false} FirstSnoc(es: seq<Entry>, id: string)
    requires |es| > 0
    ensures id in Ids(es[..|es| - 1]) ==> First(es, id) == First(es[..|es| - 1], id)
    ensures id !in Ids(es[..|es| - 1]) && id == IdOf(es[|es| - 1].doc) ==> First(es, id) == es[|es| - 1].doc
    decreases |es|
  {
    var n := |es|;
    var init := es[..n - 1];
    if n > 1 && IdOf(es[0].doc) == id {
      assert init[0] == es[0];
      IdsCons(init);
    } else if n > 1 {
      var tail := es[1..];
      assert tail[..|tail| - 1] == init[1..];
      assert tail[|tail| - 1] == es[n - 1];
      IdsCons(init);
      assert init[0] == es[0];
      FirstSnoc(tail, id);
    }
  }

  /** documentMap holds the first document of each id that occurs. */
  lemma {:induction false} DocMapSpec(es: seq<Entry>)
    ensures DocMap(es).Keys == Ids(es)
    ensures forall id :: id in DocMap(es) ==> DocMap(es)[id] == First(es, id)
    decreases |es|
  {
    if |es| > 0 {
      DocMapSpec(es[..|es| - 1]);
      forall id | id in DocMap(es) ensures DocMap(es)[id] == First(es, id) {
        FirstSnoc(es, id);
      }
    }
  }

  /** The visiting order lists every id that occurs, once. */
  lemma {:induction false} OrderSpec(es: seq<Entry>)
    ensures forall id :: id in Order(es) <==> id in Ids(es)
    ensures forall i, j :: 0 <= i < j < |Order(es)| ==> Order(es)[i] != Order(es)[j]
    decreases |es|
  {
    if |es| > 0 {
      OrderSpec(es[..|es| - 1]);
    }
  }

  // ---------------------------------------------------------------- sorting by score

  ghost predicate ScoredIn(ids: seq<string>, sc: map<string, real>)
  {
    forall i :: 0 <= i < |ids| ==> ids[i] in sc
  }

  /** Insert after every id scoring at least as much. */
  function Insert(x: string, s: seq<string>, sc: map<string, real>): (r: seq<string>)
    requires x in sc && ScoredIn(s, sc)
    ensures multiset(r) == multiset(s) + multiset{x} && ScoredIn(r, sc)
    decreases |s|
  {
    if |s| == 0 then [x]
    else if sc[x] > sc[s[0]] then [x] + s
    else
      var t := [s[0]] + Insert(x, s[1..], sc);
      assert s == [s[0]] + s[1..];
      t
  }

  /** The entries sorted by score, highest first (stream().sorted(comparingByValue().reversed())). */
  function SortDesc(ids: seq<string>, sc: map<string, real>): (r: seq<string>)
    requires ScoredIn(ids, sc)
    ensures multiset(r) == multiset(ids) && ScoredIn(r, sc)
    decreases |ids|
  {
    if |ids| == 0 then []
    else
      assert ids == ids[..|ids| - 1] + [ids[|ids| - 1]];
      Insert(ids[|ids| - 1], SortDesc(ids[..|ids| - 1], sc), sc)
  }

  ghost predicate SortedDesc(s: seq<string>, sc: map<string, real>)
    requires ScoredIn(s, sc)
  {
    forall i, j :: 0 <= i < j < |s| ==> sc[s[i]] >= sc[s[j]]
  }

  lemma {:induction false} InsertBelow(x: string, s: seq<string>, sc: map<string, real>, v: real)
    requires x in sc && ScoredIn(s, sc) && sc[x] <= v
    requires forall i :: 0 <= i < |s| ==> sc[s[i]] <= v
    ensures forall i :: 0 <= i < |Insert(x, s, sc)| ==> sc[Insert(x, s, sc)[i]] <= v
    decreases |s|
  {
    if |s| > 0 && sc[x] <= sc[s[0]] {
      InsertBelow(x, s[1..], sc, v);
    }
  }

  lemma {:induction false} InsertSorted(x: string, s: seq<string>, sc: map<string, real>)
    requires x in sc && ScoredIn(s, sc) && SortedDesc(s, sc)
    ensures SortedDesc(Insert(x, s, sc), sc)
    decreases |s|
  {
    if |s| > 0 && sc[x] <= sc[s[0]] {
      var t := Insert(x, s[1..], sc);
      InsertSorted(x, s[1..], sc);
      InsertBelow(x, s[1..], sc, sc[s[0]]);
      var r := [s[0]] + t;
      forall i, j | 0 <= i < j < |r| ensures sc[r[i]] >= sc[r[j]] {
        assert r[j] == t[j - 1];
        if i > 0 {
          assert r[i] == t[i - 1];
        }
      }
    }
  }

  lemma {:induction false} SortDescSorted(ids: seq<string>, sc: map<string, real>)
    requires ScoredIn(ids, sc)
    ensures SortedDesc(SortDesc(ids, sc), sc)
    decreases |ids|
  {
    if |ids| > 0 {
      SortDescSorted(ids[..|ids| - 1], sc);
      InsertSorted(ids[|ids| - 1], SortDesc(ids[..|ids| - 1], sc), sc);
    }
  }

  // ---------------------------------------------------------------- fuseResults

  function Min(a: int, b: int): int
  {
    if a <= b then a else b
  }

  lemma FusedReady(es: seq<Entry>)
    ensures ScoredIn(Order(es), ScoreMap(es)) && DocMap(es).Keys == ScoreMap(es).Keys
  {
    ScoreMapSpec(es);
    DocMapSpec(es);
    OrderSpec(es);
  }

  /**
   * fuseResults(topK, lists): nothing to fuse gives the empty list; a document with a blank id
   * and no text throws; a negative topK is refused by Stream.limit.
   */
  function Fused(topK: int, lists: seq<Option<seq<Document>>>): Result<seq<Document>>
  {
    var es := Entries(lists);
    if |es| == 0 then Ok([])
    else if !(forall i :: 0 <= i < |es| ==> Resolvable(es[i].doc)) then Err(NullPointer)
    else if topK < 0 then Err(IllegalArgument(IntToString(topK)))
    else Ok(Pick(es, TopIds(topK, es)))
  }

  /** The ids sorted by score, cut to topK (Stream.limit). */
  function TopIds(topK: nat, es: seq<Entry>): (r: seq<string>)
    ensures forall i :: 0 <= i < |r| ==> r[i] in DocMap(es)
  {
    FusedReady(es);
    var sorted := SortDesc(Order(es), ScoreMap(es));
    var top := sorted[..Min(topK, |sorted|)];
    assert forall i :: 0 <= i < |top| ==> top[i] == sorted[i] && sorted[i] in multiset(Order(es));
    top
  }

  /** documentMap.get for each id. */
  function Pick(es: seq<Entry>, ids: seq<string>): (r: seq<Document>)
    requires forall i :: 0 <= i < |ids| ==> ids[i] in DocMap(es)
    ensures |r| == |ids| && forall i :: 0 <= i < |ids| ==> r[i] == DocMap(es)[ids[i]]
  {
    seq(|ids|, i requires 0 <= i < |ids| => DocMap(es)[ids[i]])
  }

  /** One more list in visiting order. */
  lemma EntriesStep(lists: seq<Option<seq<Document>>>, li: nat)
    requires li < |lists|
    ensures Entries(lists[..li + 1]) == Entries(lists[..li]) + (if lists[li].Some? then Ranked(lists[li].value) else [])
  {
    assert lists[..li + 1][..li] == lists[..li];
  }

  /** A document with a blank id and no text anywhere in the lists makes fusion throw. */
  lemma FuseFails(topK: int, lists: seq<Option<seq<Document>>>, li: nat, i: nat)
    requires li < |lists| && lists[li].Some? && i < |lists[li].value| && !Resolvable(lists[li].value[i])
    ensures !AllResolvable(Entries(lists))
    ensures Fused(topK, lists) == Err(NullPointer)
  {
    EntriesStep(lists, li);
    assert lists == lists[..li + 1] + lists[li + 1..];
    EntriesAppend(lists[..li + 1], lists[li + 1..]);
    var k := |Entries(lists[..li])| + i;
    assert Entries(lists)[k] == Entry(lists[li].value[i], i + 1);
  }

  lemma {:induction false} EmptyEntries(lists: seq<Option<seq<Document>>>)
    requires forall i :: 0 <= i < |lists| ==> lists[i].None? || lists[i].value == []
    ensures Entries(lists) == []
    decreases |lists|
  {
    if |lists| > 0 {
      EmptyEntries(lists[..|lists| - 1]);
    }
  }

  /** No list or only null and empty lists: nothing to fuse. */
  lemma FusedEmpty(topK: int, lists: seq<Option<seq<Document>>>)
    requires forall i :: 0 <= i < |lists| ==> lists[i].None? || lists[i].value == []
    ensures Fused(topK, lists) == Ok([])
  {
    EmptyEntries(lists);
  }

  lemma {:induction false} DistinctCard(o: seq<string>, ids: set<string>)
    requires forall x :: x in o <==> x in ids
    requires forall i, j :: 0 <= i < j < |o| ==> o[i] != o[j]
    ensures |o| == |ids|
    decreases |o|
  {
    if |o| > 0 {
      var last := o[|o| - 1];
      var init := o[..|o| - 1];
      forall x ensures x in init <==> x in ids - {last} {
        if x in init {
          var i :| 0 <= i < |init| && init[i] == x;
          assert o[i] == x;
        }
        if x in o && x != last {
          var i :| 0 <= i < |o| && o[i] == x;
          assert init[i] == x;
        }
      }
      DistinctCard(init, ids - {last});
    } else {
      assert forall x :: x !in ids;
      assert ids == {};
    }
  }

  /**
   * What fusion returns when something was ranked: the first document seen with each of the
   * top ids, in order.
   */
  lemma FusedSpec(topK: int, lists: seq<Option<seq<Document>>>)
    requires Fused(topK, lists).Ok? && |Entries(lists)| > 0
    ensures AllResolvable(Entries(lists)) && topK >= 0
    ensures var es := Entries(lists);
            var ids := TopIds(topK, es);
            var r := Fused(topK, lists).value;
            |r| == |ids| && forall i :: 0 <= i < |r| ==> ids[i] in Ids(es) && r[i] == First(es, ids[i]) && IdOf(r[i]) == ids[i]
  {
    var es := Entries(lists);
    DocMapSpec(es);
  }

  /**
   * The top ids: min(topK, number of distinct ids) of them, no id twice, ordered by
   * non-increasing reference score; an id left out scores no more than the last one kept, and
   * is left out only when topK is reached.
   */
  lemma TopIdsSpec(topK: nat, es: seq<Entry>)
    ensures var ids := TopIds(topK, es);
            |ids| == Min(topK, |Ids(es)|)
            && (forall i :: 0 <= i < |ids| ==> ids[i] in Ids(es))
            && (forall i, j :: 0 <= i < j < |ids| ==> ids[i] != ids[j])
  {
    SortedIds(es);
  }

  lemma TopIdsOrdered(topK: nat, es: seq<Entry>)
    ensures var ids := TopIds(topK, es);
            forall i, j :: 0 <= i < j < |ids| ==> Score(es, ids[i]) >= Score(es, ids[j])
  {
    SortedIds(es);
  }

  lemma TopIdsBeatRest(topK: nat, es: seq<Entry>)
    ensures var ids := TopIds(topK, es);
            forall id :: id in Ids(es) && id !in ids ==>
              |ids| == topK && (|ids| == 0 || Score(es, id) <= Score(es, ids[|ids| - 1]))
  {
    var sc := ScoreMap(es);
    var o := Order(es);
    FusedReady(es);
    OrderSpec(es);
    var sorted := SortDesc(o, sc);
    SortDescSorted(o, sc);
    PermutationDistinct(o, sorted);
    var m := Min(topK, |sorted|);
    assert TopIds(topK, es) == sorted[..m];
    PrefixTop(sorted, sc, m);
    ScoreMapSpec(es);
  }

  /** A prefix of a sorted list without repeats keeps both, and beats what it leaves out. */
  lemma PrefixTop(s: seq<string>, sc: map<string, real>, m: nat)
    requires ScoredIn(s, sc) && m <= |s| && SortedDesc(s, sc)
    requires forall i, j :: 0 <= i < j < |s| ==> s[i] != s[j]
    ensures forall i :: 0 <= i < m ==> s[..m][i] == s[i]
    ensures forall x :: x in s && x !in s[..m] ==> m < |s| && (m == 0 || sc[x] <= sc[s[m - 1]])
  {
    forall i | 0 <= i < m ensures s[i] in s[..m] {
      assert s[..m][i] == s[i];
    }
  }

  /** The ids sorted by score: each id that occurs, once, highest score first. */
  lemma SortedIds(es: seq<Entry>)
    ensures ScoredIn(Order(es), ScoreMap(es))
    ensures var s := SortDesc(Order(es), ScoreMap(es));
            |s| == |Ids(es)|
            && (forall id :: id in s <==> id in Ids(es))
            && (forall i, j :: 0 <= i < j < |s| ==> s[i] != s[j])
            && (forall i, j :: 0 <= i < j < |s| ==> Score(es, s[i]) >= Score(es, s[j]))
  {
    var sc := ScoreMap(es);
    ScoreMapSpec(es);
    OrderSpec(es);
    FusedReady(es);
    var o := Order(es);
    var s := SortDesc(o, sc);
    SortDescSorted(o, sc);
    DistinctCard(o, Ids(es));
    PermutationDistinct(o, s);
  }

  /** A permutation of a list without repeats has none, the same length and the same members. */
  lemma PermutationDistinct(a: seq<string>, b: seq<string>)
    requires multiset(a) == multiset(b)
    requires forall i, j :: 0 <= i < j < |a| ==> a[i] != a[j]
    ensures |a| == |b| && (forall x :: x in a <==> x in b)
    ensures forall i, j :: 0 <= i < j < |b| ==> b[i] != b[j]
  {
    assert |multiset(a)| == |multiset(b)|;
    forall x ensures x in a <==> x in b {
      assert x in a <==> x in multiset(a);
      assert x in b <==> x in multiset(b);
    }
    forall i, j | 0 <= i < j < |b| ensures b[i] != b[j] {
      if b[i] == b[j] {
        assert multiset(b)[b[i]] >= 2 by {
          assert b == b[..i] + [b[i]] + b[i + 1..j] + [b[j]] + b[j + 1..];
        }
        MultisetOfDistinct(a, b[i]);
      }
    }
  }

  lemma {:induction false} MultisetOfDistinct(o: seq<string>, x: string)
    requires forall i, j :: 0 <= i < j < |o| ==> o[i] != o[j]
    ensures multiset(o)[x] <= 1
    decreases |o|
  {
    if |o| > 0 {
      var init := o[..|o| - 1];
      assert o == init + [o[|o| - 1]];
      MultisetOfDistinct(init, x);
      forall i | 0 <= i < |init| ensures init[i] != o[|o| - 1] {
        assert init[i] == o[i];
      }
    }
  }

  lemma {:induction false} ScoreAppend(a: seq<Entry>, b: seq<Entry>, id: string)
    ensures Score(a + b, id) == Score(a, id) + Score(b, id)
    decreases |b|
  {
    if |b| > 0 {
      assert (a + b)[..|a + b| - 1] == a + b[..|b| - 1];
      ScoreAppend(a, b[..|b| - 1], id);
    } else {
      assert a + b == a;
    }
  }

  lemma {:induction false} ScorePositive(es: seq<Entry>, id: string)
    requires id in Ids(es)
    ensures Score(es, id) > 0.0
    decreases |es|
  {
    var init := es[..|es| - 1];
    if id in Ids(init) {
      ScorePositive(init, id);
    } else {
      ScoreAbsent(init, id);
    }
  }

  /** One more list holding a document strictly raises that document's score. */
  lemma ScoreGrows(lists: seq<Option<seq<Document>>>, list: seq<Document>, id: string)
    requires id in Ids(Ranked(list))
    ensures Score(Entries(lists + [Some(list)]), id) > Score(Entries(lists), id)
  {
    assert (lists + [Some(list)])[..|lists|] == lists;
    ScoreAppend(Entries(lists), Ranked(list), id);
    ScorePositive(Ranked(list), id);
  }

  /** rrfScores, documentMap, and the order in which their keys were first inserted. */
  datatype Tables = Tables(rrfScores: map<string, real>, documentMap: map<string, Document>, order: seq<string>)

  function Fold(es: seq<Entry>): Tables
  {
    Tables(ScoreMap(es), DocMap(es), Order(es))
  }

  /** One document of one list: the merge into rrfScores and the putIfAbsent into documentMap. */
  method Accumulate(t: Tables, ghost seen: seq<Entry>, doc: Document, rank: nat) returns (t': Tables)
    requires t == Fold(seen)
    ensures t' == Fold(seen + [Entry(doc, rank)])
  {
    ghost var now := seen + [Entry(doc, rank)];
    assert now[..|now| - 1] == seen;
    var docId := IdOf(doc);
    var sum := if docId in t.rrfScores then t.rrfScores[docId] else 0.0;
    var rrfScores := t.rrfScores[docId := sum + Contribution(rank)];
    var documentMap := t.documentMap;
    if docId !in documentMap {
      documentMap := documentMap[docId := doc];
    }
    var order := t.order;
    if docId !in order {
      order := order + [docId];
    }
    t' := Tables(rrfScores, documentMap, order);
  }

  /** The entries of a list up to index i, one more. */
  lemma RankedStep(seen: seq<Entry>, list: seq<Document>, i: nat)
    requires i < |list|
    ensures seen + Ranked(list)[..i + 1] == (seen + Ranked(list)[..i]) + [Entry(list[i], i + 1)]
  {
    assert Ranked(list)[..i + 1] == Ranked(list)[..i] + [Entry(list[i], i + 1)];
  }

  /** The tables after the first i documents of a result list, following the entries already seen. */
  ghost predicate FoldedUpTo(t: Tables, seen: seq<Entry>, resultList: seq<Document>, i: nat)
    requires i <= |resultList|
  {
    t == Fold(seen + Ranked(resultList)[..i])
  }

  /** The i-th document of a result list, at rank i + 1, accumulated into the tables. */
  method AccumulateAt(t: Tables, ghost seen: seq<Entry>, resultList: seq<Document>, i: nat) returns (t': Tables)
    requires i < |resultList| && FoldedUpTo(t, seen, resultList, i)
    ensures FoldedUpTo(t', seen, resultList, i + 1)
  {
    t' := Accumulate(t, seen + Ranked(resultList)[..i], resultList[i], i + 1);
    RankedStep(seen, resultList, i);
  }

  /** The inner loop over one result list; the index of a document with neither id nor text, or -1. */
  method AccumulateList(t: Tables, ghost seen: seq<Entry>, resultList: seq<Document>) returns (failedAt: int, t': Tables)
    requires t == Fold(seen)
    ensures failedAt >= 0 ==> failedAt < |resultList| && !Resolvable(resultList[failedAt])
    ensures failedAt < 0 ==> (forall k {:trigger Resolvable(resultList[k])} :: 0 <= k < |resultList| ==> Resolvable(resultList[k]))
    ensures failedAt < 0 ==> t' == Fold(seen + Ranked(resultList))
  {
    t' := t;
    var i := 0;
    FoldedNone(t, seen, resultList);
    while i < |resultList|
      invariant 0 <= i <= |resultList|
      invariant FoldedUpTo(t', seen, resultList, i)
      invariant forall k {:trigger Resolvable(resultList[k])} :: 0 <= k < i ==> Resolvable(resultList[k])
    {
      if !Resolvable(resultList[i]) {
        return i, t';
      }
      t' := AccumulateAt(t', seen, resultList, i);
      i := i + 1;
    }
    FoldedAll(t', seen, resultList);
    return -1, t';
  }

  lemma FoldedNone(t: Tables, seen: seq<Entry>, resultList: seq<Document>)
    requires t == Fold(seen)
    ensures FoldedUpTo(t, seen, resultList, 0)
  {
    assert seen + Ranked(resultList)[..0] == seen;
  }

  lemma FoldedAll(t: Tables, seen: seq<Entry>, resultList: seq<Document>)
    requires FoldedUpTo(t, seen, resultList, |resultList|)
    ensures t == Fold(seen + Ranked(resultList))
  {
    assert Ranked(resultList)[..|resultList|] == Ranked(resultList);
  }

  lemma ResolvableAppend(a: seq<Entry>, list: seq<Document>)
    requires AllResolvable(a) && forall k :: 0 <= k < |list| ==> Resolvable(list[k])
    ensures AllResolvable(a + Ranked(list))
  {
  }

  /** rrfScores is empty exactly when no entry was seen. */
  lemma ScoreMapEmpty(es: seq<Entry>)
    ensures ScoreMap(es) == map[] <==> |es| == 0
  {
    if |es| > 0 {
      assert IdOf(es[|es| - 1].doc) in ScoreMap(es);
    }
  }

  /** The outer loop of fuseResults: each list in turn, until a document can be neither identified nor hashed. */
  method AccumulateLists(resultLists: seq<Option<seq<Document>>>) returns (failed: bool, t: Tables)
    ensures failed ==> !AllResolvable(Entries(resultLists))
    ensures !failed ==> t == Fold(Entries(resultLists)) && AllResolvable(Entries(resultLists))
  {
    t := Tables(map[], map[], []);
    var li := 0;
    while li < |resultLists|
      invariant 0 <= li <= |resultLists|
      invariant t == Fold(Entries(resultLists[..li])) && AllResolvable(Entries(resultLists[..li]))
    {
      EntriesStep(resultLists, li);
      if resultLists[li].Some? {
        var failedAt;
        failedAt, t := AccumulateList(t, Entries(resultLists[..li]), resultLists[li].value);
        if failedAt >= 0 {
          FuseFails(0, resultLists, li, failedAt);
          return true, t;
        }
        ResolvableAppend(Entries(resultLists[..li]), resultLists[li].value);
      } else {
        assert Entries(resultLists[..li + 1]) == Entries(resultLists[..li]);
      }
      li := li + 1;
    }
    assert resultLists[..|resultLists|] == resultLists;
    return false, t;
  }

  /** fuseResults, with its two nested loops filling rrfScores and documentMap. */
  method FuseResults(topK: int, resultLists: seq<Option<seq<Document>>>) returns (r: Result<seq<Document>>)
    ensures r == Fused(topK, resultLists)
  {
    if |resultLists| == 0 {
      assert Entries(resultLists) == [];
      return Ok([]);
    }
    var failed, t := AccumulateLists(resultLists);
    if failed {
      return Err(NullPointer);
    }
    ghost var es := Entries(resultLists);
    ScoreMapEmpty(es);
    if t.rrfScores == map[] {
      return Ok([]);
    }
    if topK < 0 {
      return Err(IllegalArgument(IntToString(topK)));
    }
    FusedReady(es);
    var sorted := SortDesc(t.order, t.rrfScores);
    var top := sorted[..Min(topK, |sorted|)];
    r := Ok(seq(|top|, i requires 0 <= i < |top| => t.documentMap[top[i]]));
  }
}
