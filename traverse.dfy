/** Applying a step that may raise to every element of a list, in order,
    stopping at the first element it raises on. This is the shape of every
    loop and comprehension in the repository that can fail part-way. */
module Traverse {
  import opened Errors

  function MapAll<T, U>(xs: seq<T>, f: T -> Result<U>): Result<seq<U>>
  {
    if xs == [] then Ok([])
    else
      var done :- MapAll(xs[..|xs| - 1], f);
      var last :- f(xs[|xs| - 1]);
      Ok(done + [last])
  }

  /** Element `i` is the first the step raises on, and it raises `e`. */
  ghost predicate FirstFailure<T, U>(xs: seq<T>, f: T -> Result<U>, e: Error)
  {
    exists i :: 0 <= i < |xs| && f(xs[i]) == Err(e) && forall j :: 0 <= j < i ==> f(xs[j]).Ok?
  }

  /** MapAll succeeds exactly when the step succeeds on every element, and
      then yields the results pointwise, in order; otherwise it reports the
      error of the first element the step raises on. */
  lemma {:induction false} MapAllSpec<T, U>(xs: seq<T>, f: T -> Result<U>)
    ensures MapAll(xs, f).Ok? <==> forall i :: 0 <= i < |xs| ==> f(xs[i]).Ok?
    ensures MapAll(xs, f).Ok? ==>
      var r := MapAll(xs, f).value;
      |r| == |xs| && forall i :: 0 <= i < |xs| ==> r[i] == f(xs[i]).value
    ensures MapAll(xs, f).Err? ==> FirstFailure(xs, f, MapAll(xs, f).error)
  {
    if xs != [] {
      var n := |xs| - 1;
      var front := xs[..n];
      MapAllSpec(front, f);
      assert forall i :: 0 <= i < n ==> front[i] == xs[i];
      if MapAll(front, f).Err? {
        var e := MapAll(front, f).error;
        var i :| 0 <= i < n && f(front[i]) == Err(e) && forall j :: 0 <= j < i ==> f(front[j]).Ok?;
        assert f(xs[i]) == Err(e);
      } else if f(xs[n]).Err? {
        assert f(xs[n]) == Err(MapAll(xs, f).error);
      }
    }
  }

  /** One more element extends the result, or ends it with that element's
      error. */
  lemma MapAllOneMore<T, U>(xs: seq<T>, f: T -> Result<U>, i: nat)
    requires i < |xs| && MapAll(xs[..i], f).Ok?
    ensures MapAll(xs[..i + 1], f) ==
      match f(xs[i])
      case Ok(y) => Ok(MapAll(xs[..i], f).value + [y])
      case Err(e) => Err(e)
  {
    assert xs[..i + 1][..i] == xs[..i];
  }

  /** Once a prefix fails, the whole list fails with the prefix's error. */
  lemma {:induction false} MapAllFailureSticks<T, U>(xs: seq<T>, f: T -> Result<U>, k: nat)
    requires k <= |xs|
    requires MapAll(xs[..k], f).Err?
    ensures MapAll(xs, f) == MapAll(xs[..k], f)
    decreases |xs| - k
  {
    if k < |xs| {
      assert xs[..k + 1][..k] == xs[..k];
      MapAllFailureSticks(xs, f, k + 1);
    } else {
      assert xs[..k] == xs;
    }
  }
}
