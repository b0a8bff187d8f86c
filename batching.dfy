/**
 * The embedding batching strategy that bounds the number of texts per batch: the batches the
 * token-counting strategy produced are passed through when small enough, and cut into
 * consecutive slices of at most maxTextCount documents otherwise.
 */
module Batching {
  import opened SeqUtil

  /** What one token batch becomes: itself when within the limit, its slices otherwise. */
  function Split<T>(batch: seq<T>, maxTextCount: nat): (r: seq<seq<T>>)
    requires maxTextCount >= 1
  {
    if |batch| <= maxTextCount then [batch] else Slices(batch, maxTextCount)
  }

  /** Every token batch replaced by its split, in order. */
  function Rebatch<T>(batches: seq<seq<T>>, maxTextCount: nat): (r: seq<seq<T>>)
    requires maxTextCount >= 1
    ensures |batches| == 0 ==> r == []
    decreases |batches|
  {
    if |batches| == 0 then []
    else Split(batches[0], maxTextCount) + Rebatch(batches[1..], maxTextCount)
  }

  /**
   * A batch within the limit is kept whole; a larger one becomes ceil(n / maxTextCount)
   * slices (the fewest that can hold n documents) which give it back in order, all but the
   * last full. Either way no part is larger
   * than the limit.
   */
  lemma SplitSpec<T>(batch: seq<T>, maxTextCount: nat)
    requires maxTextCount >= 1
    ensures var r := Split(batch, maxTextCount);
            Flatten(r) == batch
            && (forall k :: 0 <= k < |r| ==> |r[k]| <= maxTextCount)
            && (|batch| <= maxTextCount ==> r == [batch])
            && (|batch| > maxTextCount ==>
                  |batch| <= |r| * maxTextCount && (|r| - 1) * maxTextCount < |batch|
                  && forall k :: 0 <= k < |r| - 1 ==> |r[k]| == maxTextCount)
  {
    var r := Split(batch, maxTextCount);
    if |batch| <= maxTextCount {
      assert Flatten(r) == batch + Flatten([]);
    } else {
      SlicesSpec(batch, maxTextCount);
    }
  }

  lemma {:induction false} RebatchAppend<T>(a: seq<seq<T>>, b: seq<seq<T>>, maxTextCount: nat)
    requires maxTextCount >= 1
    ensures Rebatch(a + b, maxTextCount) == Rebatch(a, maxTextCount) + Rebatch(b, maxTextCount)
    decreases |a|
  {
    if |a| == 0 {
      assert a + b == b;
    } else {
      assert (a + b)[0] == a[0];
      assert (a + b)[1..] == a[1..] + b;
      RebatchAppend(a[1..], b, maxTextCount);
    }
  }

  /** Nothing is lost, duplicated or reordered: the documents come out in the order they went in. */
  lemma {:induction false} RebatchFlatten<T>(batches: seq<seq<T>>, maxTextCount: nat)
    requires maxTextCount >= 1
    ensures Flatten(Rebatch(batches, maxTextCount)) == Flatten(batches)
    decreases |batches|
  {
    if |batches| > 0 {
      RebatchFlatten(batches[1..], maxTextCount);
      SplitSpec(batches[0], maxTextCount);
      FlattenAppend(Split(batches[0], maxTextCount), Rebatch(batches[1..], maxTextCount));
    }
  }

  /** No output batch holds more than maxTextCount documents. */
  lemma {:induction false} RebatchBounded<T>(batches: seq<seq<T>>, maxTextCount: nat)
    requires maxTextCount >= 1
    ensures forall k :: 0 <= k < |Rebatch(batches, maxTextCount)| ==> |Rebatch(batches, maxTextCount)[k]| <= maxTextCount
    decreases |batches|
  {
    if |batches| > 0 {
      RebatchBounded(batches[1..], maxTextCount);
      SplitSpec(batches[0], maxTextCount);
      var s := Split(batches[0], maxTextCount);
      var rest := Rebatch(batches[1..], maxTextCount);
      assert forall k :: |s| <= k < |s| + |rest| ==> (s + rest)[k] == rest[k - |s|];
    }
  }

  /** When every token batch is already within the limit, the batches pass through unchanged. */
  lemma {:induction false} RebatchKeeps<T>(batches: seq<seq<T>>, maxTextCount: nat)
    requires maxTextCount >= 1
    requires forall k :: 0 <= k < |batches| ==> |batches[k]| <= maxTextCount
    ensures Rebatch(batches, maxTextCount) == batches
    decreases |batches|
  {
    if |batches| > 0 {
      RebatchKeeps(batches[1..], maxTextCount);
      assert [batches[0]] + batches[1..] == batches;
    }
  }

  /** The slicing loop for one oversize batch: `subList(i, min(i + maxTextCount, n))` appended. */
  method AppendSlices<T>(finalBatches: seq<seq<T>>, batch: seq<T>, maxTextCount: nat) returns (r: seq<seq<T>>)
    requires maxTextCount >= 1
    ensures r == finalBatches + Slices(batch, maxTextCount)
  {
    r := finalBatches;
    var i := 0;
    while i < |batch|
      invariant 0 <= i
      invariant i < |batch| ==> r + Slices(batch[i..], maxTextCount) == finalBatches + Slices(batch, maxTextCount)
      invariant i >= |batch| ==> r == finalBatches + Slices(batch, maxTextCount)
      decreases |batch| - i
    {
      var endIndex := if i + maxTextCount < |batch| then i + maxTextCount else |batch|;
      var rest := batch[i..];
      if endIndex == |batch| {
        assert Slices(rest, maxTextCount) == [rest];
        assert batch[i..endIndex] == rest;
      } else {
        assert Slices(rest, maxTextCount) == [rest[..maxTextCount]] + Slices(rest[maxTextCount..], maxTextCount);
        assert rest[..maxTextCount] == batch[i..endIndex] && rest[maxTextCount..] == batch[endIndex..];
      }
      r := r + [batch[i..endIndex]];
      i := i + maxTextCount;
    }
    if |batch| == 0 {
      assert r == finalBatches + [];
    }
  }

  /**
   * batch: the token batches (computed by the token-counting strategy, an input here) re-cut
   * so that no batch holds more than maxTextCount documents.
   */
  method Batch<T>(tokenBasedBatches: seq<seq<T>>, maxTextCount: int) returns (finalBatches: seq<seq<T>>)
    requires maxTextCount >= 1
    ensures finalBatches == Rebatch(tokenBasedBatches, maxTextCount)
  {
    var m: nat := maxTextCount;
    finalBatches := [];
    var j := 0;
    while j < |tokenBasedBatches|
      invariant 0 <= j <= |tokenBasedBatches|
      invariant finalBatches == Rebatch(tokenBasedBatches[..j], m)
    {
      var batch := tokenBasedBatches[j];
      RebatchAppend(tokenBasedBatches[..j], [batch], m);
      assert tokenBasedBatches[..j + 1] == tokenBasedBatches[..j] + [batch];
      assert Rebatch([batch], m) == Split(batch, m) + Rebatch([], m);
      if |batch| <= m {
        finalBatches := finalBatches + [batch];
      } else {
        finalBatches := AppendSlices(finalBatches, batch, m);
      }
      j := j + 1;
    }
    assert tokenBasedBatches[..j] == tokenBasedBatches;
  }
}
