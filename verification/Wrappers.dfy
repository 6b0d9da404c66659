// Failure-compatible results used by every component that may raise in the original.
module Wrappers {
  datatype Option<+T> = None | Some(value: T)

  datatype Result<+T, +E> = Ok(value: T) | Err(error: E) {
    predicate IsFailure() { Err? }

    function PropagateFailure<U>(): Result<U, E>
      requires Err?
    {
      Err(error)
    }

    function Extract(): T
      requires Ok?
    {
      value
    }
  }

  // Apply f to every element in order, failing with the first failure: a tuple comprehension
  // over calls that may raise.
  function Traverse<T, U, E>(f: T -> Result<U, E>, xs: seq<T>): Result<seq<U>, E> {
    if xs == [] then Ok([])
    else
      var before :- Traverse(f, xs[..|xs| - 1]);
      var last :- f(xs[|xs| - 1]);
      Ok(before + [last])
  }

  lemma {:induction false} TraverseIsPointwise<T, U, E>(f: T -> Result<U, E>, xs: seq<T>)
    ensures
      match Traverse(f, xs)
      case Ok(ys) => |ys| == |xs| && forall i | 0 <= i < |xs| :: f(xs[i]) == Ok(ys[i])
      case Err(e) => exists i :: 0 <= i < |xs| && f(xs[i]) == Err(e) && forall j | 0 <= j < i :: f(xs[j]).Ok?
  {
    if xs != [] {
      var before := xs[..|xs| - 1];
      TraverseIsPointwise(f, before);
      match Traverse(f, before)
      case Ok(_) =>
        assert forall j | 0 <= j < |before| :: f(xs[j]) == f(before[j]);
      case Err(e) =>
        var i :| 0 <= i < |before| && f(before[i]) == Err(e) && forall j | 0 <= j < i :: f(before[j]).Ok?;
        assert f(xs[i]) == Err(e) && forall j | 0 <= j < i :: f(xs[j]) == f(before[j]);
    }
  }

  lemma TraverseStep<T, U, E>(f: T -> Result<U, E>, xs: seq<T>, n: nat)
    requires n < |xs|
    ensures Traverse(f, xs[..n + 1]) ==
      match (Traverse(f, xs[..n]), f(xs[n]))
      case (Err(e), _) => Err(e)
      case (_, Err(e)) => Err(e)
      case (Ok(ys), Ok(y)) => Ok(ys + [y])
  {
    assert xs[..n + 1][..n] == xs[..n];
  }

  lemma {:induction false} FirstFailureDecides<T, U, E>(f: T -> Result<U, E>, xs: seq<T>, n: nat)
    requires n <= |xs| && Traverse(f, xs[..n]).Err?
    ensures Traverse(f, xs) == Traverse(f, xs[..n])
    decreases |xs|
  {
    if n == |xs| {
      assert xs[..n] == xs;
    } else {
      assert xs[..|xs| - 1][..n] == xs[..n];
      FirstFailureDecides(f, xs[..|xs| - 1], n);
    }
  }

  lemma {:induction false} TraverseAgrees<T, U, E>(f: T -> Result<U, E>, g: T -> Result<U, E>, xs: seq<T>)
    requires forall x | x in xs :: f(x) == g(x) || (f(x).Err? && g(x).Err?)
    ensures Traverse(f, xs) == Traverse(g, xs) || (Traverse(f, xs).Err? && Traverse(g, xs).Err?)
    ensures (forall x | x in xs :: f(x) == g(x)) ==> Traverse(f, xs) == Traverse(g, xs)
  {
    if xs != [] {
      assert xs[|xs| - 1] in xs;
      TraverseAgrees(f, g, xs[..|xs| - 1]);
    }
  }
}
