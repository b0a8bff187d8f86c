/**
 * Option and Result values, and the Java exceptions the modelled code can end with.
 * A Java method that may throw is modelled as a function returning `Result<T>`.
 */
module Wrappers {

  datatype Option<T> = None | Some(value: T)
  {
    function UnwrapOr(default: T): (r: T)
      ensures this.Some? ==> r == this.value
      ensures this.None? ==> r == default
    {
      match this
      case Some(v) => v
      case None => default
    }

    /** A non-null value wins over the fallback, as when a partial update is merged into a stored row. */
    function Or(fallback: Option<T>): (r: Option<T>)
      ensures this.Some? ==> r == this
      ensures this.None? ==> r == fallback
    {
      if this.Some? then this else fallback
    }
  }

  /** The exception classes thrown by the modelled code (message text kept where it matters). */
  datatype JavaError =
    | IllegalArgument(message: string)
    | IllegalState(message: string)
    | UnsupportedOperation(message: string)
    | Runtime(message: string)
    | IndexOutOfBounds
    | NullPointer
    | NumberFormat(message: string)
    | SqlError(sqlState: string)
    | WrappedSql(sqlState: string)

  datatype Result<T> = Ok(value: T) | Err(error: JavaError)
  {
    predicate IsFailure() { this.Err? }

    function PropagateFailure<U>(): Result<U>
      requires IsFailure()
    {
      Err(this.error)
    }

    function Extract(): T
      requires !IsFailure()
    {
      this.value
    }
  }

  /**
   * Applying a possibly throwing operation to every element in order: the first exception
   * ends the loop, otherwise the results are collected.
   */
  function MapResult<A, B>(xs: seq<A>, f: A -> Result<B>): Result<seq<B>>
    decreases |xs|
  {
    if |xs| == 0 then Ok([])
    else
      var h := f(xs[0]);
      if h.Err? then Err(h.error)
      else
        var rest := MapResult(xs[1..], f);
        if rest.Err? then rest else Ok([h.value] + rest.value)
  }

  /** The loop fails exactly when some element fails; otherwise it yields every element's result, in order. */
  lemma {:induction false} MapResultShape<A, B>(xs: seq<A>, f: A -> Result<B>)
    ensures var r := MapResult(xs, f);
            (r.Err? <==> exists i :: 0 <= i < |xs| && f(xs[i]).Err?)
            && (r.Ok? ==> |r.value| == |xs|)
            && (r.Ok? ==> forall i :: 0 <= i < |xs| ==> f(xs[i]) == Ok(r.value[i]))
    decreases |xs|
  {
    if |xs| > 0 {
      var rest := xs[1..];
      MapResultShape(rest, f);
      if exists i :: 0 <= i < |rest| && f(rest[i]).Err? {
        var i :| 0 <= i < |rest| && f(rest[i]).Err?;
        assert xs[i + 1] == rest[i];
      }
      if exists i :: 0 <= i < |xs| && f(xs[i]).Err? {
        var i :| 0 <= i < |xs| && f(xs[i]).Err?;
        if i > 0 {
          assert rest[i - 1] == xs[i];
        }
      }
      var r := MapResult(xs, f);
      if r.Ok? {
        forall i | 0 <= i < |xs| ensures f(xs[i]) == Ok(r.value[i]) {
          if i > 0 {
            assert rest[i - 1] == xs[i];
          }
        }
      }
    }
  }

  /** A failed loop ends with the exception of one of the elements. */
  lemma {:induction false} MapResultErrorOf<A, B>(xs: seq<A>, f: A -> Result<B>)
    ensures MapResult(xs, f).Err? ==> exists i :: 0 <= i < |xs| && f(xs[i]) == Err(MapResult(xs, f).error)
    decreases |xs|
  {
    if |xs| > 0 && f(xs[0]).Ok? {
      MapResultErrorOf(xs[1..], f);
      if MapResult(xs[1..], f).Err? {
        var i :| 0 <= i < |xs[1..]| && f(xs[1..][i]) == Err(MapResult(xs[1..], f).error);
        assert xs[i + 1] == xs[1..][i];
      }
    }
  }

  /** The exception is the one of the first failing element. */
  lemma {:induction false} MapResultFirstError<A, B>(xs: seq<A>, f: A -> Result<B>, i: nat)
    requires i < |xs| && f(xs[i]).Err?
    requires forall k :: 0 <= k < i ==> f(xs[k]).Ok?
    ensures MapResult(xs, f) == Err(f(xs[i]).error)
    decreases i
  {
    if i > 0 {
      assert f(xs[0]).Ok?;
      assert xs[1..][i - 1] == xs[i];
      MapResultFirstError(xs[1..], f, i - 1);
    }
  }

  /** Running the loop over consecutive parts gives the same results as over the whole. */
  lemma {:induction false} MapResultAppend<A, B>(a: seq<A>, b: seq<A>, f: A -> Result<B>)
    ensures var ra := MapResult(a, f);
            var rb := MapResult(b, f);
            var rab := MapResult(a + b, f);
            (rab.Ok? <==> ra.Ok? && rb.Ok?) && (rab.Ok? ==> rab.value == ra.value + rb.value)
    decreases |a|
  {
    if |a| == 0 {
      assert a + b == b;
    } else {
      assert (a + b)[1..] == a[1..] + b;
      assert (a + b)[0] == a[0];
      MapResultAppend(a[1..], b, f);
      var h := f(a[0]);
      var ra' := MapResult(a[1..], f);
      var rb := MapResult(b, f);
      if h.Ok? && ra'.Ok? && rb.Ok? {
        assert [h.value] + (ra'.value + rb.value) == ([h.value] + ra'.value) + rb.value;
      }
    }
  }
}
