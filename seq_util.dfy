/** Lists of lists: flattening and cutting a list into consecutive slices. */
module SeqUtil {

  /** The elements of all the parts, part after part. */
  function Flatten<T>(parts: seq<seq<T>>): seq<T>
    decreases |parts|
  {
    if |parts| == 0 then [] else parts[0] + Flatten(parts[1..])
  }

  lemma {:induction false} FlattenAppend<T>(a: seq<seq<T>>, b: seq<seq<T>>)
    ensures Flatten(a + b) == Flatten(a) + Flatten(b)
    decreases |a|
  {
    if |a| == 0 {
      assert a + b == b;
    } else {
      assert (a + b)[0] == a[0];
      assert (a + b)[1..] == a[1..] + b;
      FlattenAppend(a[1..], b);
    }
  }

  lemma FlattenSnoc<T>(a: seq<seq<T>>, p: seq<T>)
    ensures Flatten(a + [p]) == Flatten(a) + p
  {
    FlattenAppend(a, [p]);
    assert [p][1..] == [];
    assert Flatten([p]) == p + [];
  }

  /** A list that agrees with `init` and then holds `x` is `init + [x]`. */
  lemma SnocEqual<T>(xs: seq<T>, init: seq<T>, x: T)
    requires |xs| == |init| + 1 && xs[|init|] == x
    requires forall k :: 0 <= k < |init| ==> xs[k] == init[k]
    ensures xs == init + [x]
  {
  }

  /** A non-empty list is its head before its tail. */
  lemma HeadTail<T>(xs: seq<T>)
    requires |xs| > 0
    ensures [xs[0]] + xs[1..] == xs
  {
  }

  /** A non-empty list is its front before its last element. */
  lemma InitLast<T>(xs: seq<T>)
    requires |xs| > 0
    ensures xs[..|xs| - 1] + [xs[|xs| - 1]] == xs
  {
  }

  /** A prefix one longer is the prefix and the next element. */
  lemma PrefixStep<T>(xs: seq<T>, i: nat)
    requires i < |xs|
    ensures xs[..i + 1] == xs[..i] + [xs[i]]
  {
  }

  /** Flattening one more part of a prefix appends that part. */
  lemma FlattenPrefixStep<T>(parts: seq<seq<T>>, i: nat)
    requires i < |parts|
    ensures Flatten(parts[..i + 1]) == Flatten(parts[..i]) + parts[i]
  {
    assert parts[..i + 1] == parts[..i] + [parts[i]];
    FlattenSnoc(parts[..i], parts[i]);
  }

  /** Concatenation is associative. */
  lemma AppendAssoc<T>(a: seq<T>, b: seq<T>, c: seq<T>)
    ensures (a + b) + c == a + (b + c)
  {
  }

  /** The prefix of a list's length is the list. */
  lemma FullPrefix<T>(xs: seq<T>)
    ensures xs[..|xs|] == xs
  {
  }

  /**
   * The slices `list.subList(i, min(i + size, n))` for i = 0, size, 2 * size, ...: all full
   * except possibly the last.
   */
  function Slices<T>(xs: seq<T>, size: nat): (r: seq<seq<T>>)
    requires size >= 1
    decreases |xs|
  {
    if |xs| == 0 then []
    else if |xs| <= size then [xs]
    else [xs[..size]] + Slices(xs[size..], size)
  }

  /** The slices give the list back; none is empty, and all but the last hold exactly `size` elements. */
  lemma {:induction false} SlicesShape<T>(xs: seq<T>, size: nat)
    requires size >= 1
    ensures var r := Slices(xs, size);
            Flatten(r) == xs
            && (forall k :: 0 <= k < |r| ==> 1 <= |r[k]| <= size)
            && (forall k :: 0 <= k < |r| - 1 ==> |r[k]| == size)
    decreases |xs|
  {
    var r := Slices(xs, size);
    if |xs| == 0 {
    } else if |xs| <= size {
      assert Flatten(r) == xs + Flatten([]);
    } else {
      var rest := Slices(xs[size..], size);
      SlicesShape(xs[size..], size);
      assert r == [xs[..size]] + rest;
      assert forall k :: 1 <= k < |r| ==> r[k] == rest[k - 1];
      assert xs[..size] + xs[size..] == xs;
    }
  }

  /** There are ceil(n / size) slices: the fewest of at most `size` elements that hold n elements. */
  lemma {:induction false} SlicesCount<T>(xs: seq<T>, size: nat)
    requires size >= 1
    ensures var c := |Slices(xs, size)|;
            |xs| <= c * size && (c == 0 || (c - 1) * size < |xs|)
    decreases |xs|
  {
    if |xs| > size {
      var c := |Slices(xs[size..], size)|;
      SlicesCount(xs[size..], size);
      assert |Slices(xs, size)| == c + 1;
      assert (c + 1) * size == c * size + size;
    }
  }

  /**
   * The slices give the list back, there are ceil(n / size) of them, none is empty, and all but
   * the last hold exactly `size` elements.
   */
  lemma SlicesSpec<T>(xs: seq<T>, size: nat)
    requires size >= 1
    ensures var r := Slices(xs, size);
            Flatten(r) == xs
            && |xs| <= |r| * size && (|r| == 0 || (|r| - 1) * size < |xs|)
            && (forall k :: 0 <= k < |r| ==> 1 <= |r[k]| <= size)
            && (forall k :: 0 <= k < |r| - 1 ==> |r[k]| == size)
  {
    SlicesShape(xs, size);
    SlicesCount(xs, size);
  }
}
