/** Option and Result, the failure-compatible wrappers used throughout the model. */
module Wrappers {

  /** A value that may be absent: a JavaScript property that is `undefined`. */
  datatype Option<+T> = None | Some(value: T) {

    /** The value, or `otherwise` when absent (the `x || d` idiom on a value that is never falsy). */
    function GetOr(otherwise: T): T {
      match this
      case Some(v) => v
      case None => otherwise
    }
  }

  /** The outcome of a step that can throw. */
  datatype Result<+T, +E> = Success(value: T) | Failure(error: E) {

    predicate IsFailure() {
      Failure?
    }

    function PropagateFailure<U>(): Result<U, E>
      requires Failure?
    {
      Failure(error)
    }

    function Extract(): T
      requires Success?
    {
      value
    }
  }

  /** Prefixes a successful list result with `xs`; a failure stays a failure. */
  function Prepend<T, E>(xs: seq<T>, r: Result<seq<T>, E>): Result<seq<T>, E> {
    match r
    case Success(ys) => Success(xs + ys)
    case Failure(e) => Failure(e)
  }

  /** Two list results one after the other: the first failure wins. */
  function Append<T, E>(r1: Result<seq<T>, E>, r2: Result<seq<T>, E>): Result<seq<T>, E> {
    match r1
    case Failure(e) => Failure(e)
    case Success(xs) =>
      match r2
      case Failure(e) => Failure(e)
      case Success(ys) => Success(xs + ys)
  }

  /**
   * `f` applied to the elements of `xs` from left to right and the lists it
   * yields concatenated; evaluation stops at the first failure, which is the
   * result.
   */
  function ConcatMap<A, B, E>(xs: seq<A>, f: A -> Result<seq<B>, E>): Result<seq<B>, E> {
    if xs == [] then Success([])
    else Append(ConcatMap(xs[..|xs| - 1], f), f(xs[|xs| - 1]))
  }

  /** The lists `g` yields for the elements of `xs`, concatenated. */
  function FlatMap<A, C>(xs: seq<A>, g: A -> seq<C>): seq<C> {
    if xs == [] then [] else FlatMap(xs[..|xs| - 1], g) + g(xs[|xs| - 1])
  }

  /** One more element processed by a left-to-right loop. */
  lemma ConcatMapStep<A, B, E>(xs: seq<A>, i: int, f: A -> Result<seq<B>, E>)
    requires 0 <= i < |xs|
    ensures ConcatMap(xs[..i + 1], f) == Append(ConcatMap(xs[..i], f), f(xs[i]))
  {
    assert xs[..i + 1][..i] == xs[..i];
  }

  lemma FlatMapStep<A, C>(xs: seq<A>, i: int, g: A -> seq<C>)
    requires 0 <= i < |xs|
    ensures FlatMap(xs[..i + 1], g) == FlatMap(xs[..i], g) + g(xs[i])
  {
    assert xs[..i + 1][..i] == xs[..i];
  }

  /** The concatenation fails exactly when one of the steps does. */
  lemma {:induction false} ConcatMapFailureIff<A, B, E>(xs: seq<A>, f: A -> Result<seq<B>, E>)
    ensures ConcatMap(xs, f).Failure? <==> exists x :: x in xs && f(x).Failure?
  {
    if xs != [] {
      var init := xs[..|xs| - 1];
      ConcatMapFailureIff(init, f);
      assert forall x :: x in xs <==> x in init || x == xs[|xs| - 1] by {
        assert xs == init + [xs[|xs| - 1]];
      }
    }
  }

  /**
   * When each step yields a list matching, position by position, the list `g`
   * describes, the whole result matches their concatenation.
   */
  lemma {:induction false} ConcatMapPointwise<A, B, C, E>(
    xs: seq<A>, f: A -> Result<seq<B>, E>, g: A -> seq<C>, rel: (B, C) -> bool)
    requires forall x | x in xs :: f(x).Success? ==>
               |f(x).value| == |g(x)| && forall k :: 0 <= k < |g(x)| ==> rel(f(x).value[k], g(x)[k])
    ensures ConcatMap(xs, f).Success? ==>
              |ConcatMap(xs, f).value| == |FlatMap(xs, g)|
              && forall k :: 0 <= k < |FlatMap(xs, g)| ==> rel(ConcatMap(xs, f).value[k], FlatMap(xs, g)[k])
  {
    if xs != [] {
      var init, last := xs[..|xs| - 1], xs[|xs| - 1];
      assert forall x | x in init :: x in xs;
      ConcatMapPointwise(init, f, g, rel);
      if ConcatMap(xs, f).Success? {
        var ys, zs := ConcatMap(init, f).value, f(last).value;
        var us, vs := FlatMap(init, g), g(last);
        assert ConcatMap(xs, f).value == ys + zs;
        assert FlatMap(xs, g) == us + vs;
        forall k | 0 <= k < |us| + |vs|
          ensures rel((ys + zs)[k], (us + vs)[k])
        {
          if k >= |us| {
            assert (ys + zs)[k] == zs[k - |us|];
            assert (us + vs)[k] == vs[k - |us|];
          }
        }
      }
    }
  }

  /** Once a prefix has failed, the whole run fails the same way: a loop may stop there. */
  lemma {:induction false} ConcatMapFailurePrefix<A, B, E>(xs: seq<A>, i: int, f: A -> Result<seq<B>, E>)
    requires 0 <= i <= |xs| && ConcatMap(xs[..i], f).Failure?
    ensures ConcatMap(xs, f) == ConcatMap(xs[..i], f)
    decreases |xs|
  {
    if i < |xs| {
      var init := xs[..|xs| - 1];
      assert init[..i] == xs[..i];
      ConcatMapFailurePrefix(init, i, f);
    } else {
      assert xs[..i] == xs;
    }
  }

  /** Steps that all yield nothing yield nothing together. */
  lemma {:induction false} ConcatMapAllEmpty<A, B, E>(xs: seq<A>, f: A -> Result<seq<B>, E>)
    requires forall x | x in xs :: f(x) == Success([])
    ensures ConcatMap(xs, f) == Success([])
  {
    if xs != [] {
      var init := xs[..|xs| - 1];
      assert forall x | x in init :: x in xs;
      ConcatMapAllEmpty(init, f);
      assert xs[|xs| - 1] in xs;
      var none: seq<B> := [];
      assert none + none == none;
    }
  }

  /** One element per element: `FlatMap` of singletons is the list itself. */
  lemma {:induction false} FlatMapSingletons<A>(xs: seq<A>)
    ensures FlatMap(xs, x => [x]) == xs
  {
    if xs != [] {
      FlatMapSingletons(xs[..|xs| - 1]);
      assert xs[..|xs| - 1] + [xs[|xs| - 1]] == xs;
    }
  }
}
