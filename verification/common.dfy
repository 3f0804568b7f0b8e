/**
 * Small shared vocabulary: optional values, success-or-failure results and
 * the integer minimum used by both risk scores.
 */
module Common {

  /** A value that may be absent, such as a missing key of a JSON object. */
  datatype Option<+T> = None | Some(value: T)

  /** The outcome of a call that either succeeds with a value or fails with an error. */
  datatype Result<+T, +E> = Success(value: T) | Failure(error: E)

  /** The smaller of two integers. */
  function Min(a: int, b: int): (m: int)
    ensures m <= a && m <= b
    ensures m == a || m == b
  {
    if a <= b then a else b
  }

  /** The sum of `f` over the elements of `xs`, accumulated left to right. */
  function Sum<T>(xs: seq<T>, f: T -> nat): nat {
    if |xs| == 0 then 0 else Sum(xs[..|xs| - 1], f) + f(xs[|xs| - 1])
  }

  /** Summing over a concatenation adds the sums of the parts. */
  lemma {:induction false} SumAppend<T>(a: seq<T>, b: seq<T>, f: T -> nat)
    ensures Sum(a + b, f) == Sum(a, f) + Sum(b, f)
    decreases |b|
  {
    if |b| == 0 {
      assert a + b == a;
    } else {
      var ab := a + b;
      assert ab[..|ab| - 1] == a + b[..|b| - 1];
      assert ab[|ab| - 1] == b[|b| - 1];
      SumAppend(a, b[..|b| - 1], f);
    }
  }

  /** A sum whose terms are each at most `m` is at most `m` times the length. */
  lemma {:induction false} SumBounded<T>(xs: seq<T>, f: T -> nat, m: nat)
    requires forall x :: f(x) <= m
    ensures Sum(xs, f) <= m * |xs|
  {
    if |xs| > 0 {
      SumBounded(xs[..|xs| - 1], f, m);
    }
  }

  /** Sums of two sequences agree when their terms agree position by position. */
  lemma {:induction false} SumPointwise<T, U>(xs: seq<T>, f: T -> nat, ys: seq<U>, g: U -> nat)
    requires |xs| == |ys|
    requires forall j :: 0 <= j < |xs| ==> f(xs[j]) == g(ys[j])
    ensures Sum(xs, f) == Sum(ys, g)
  {
    if |xs| > 0 {
      SumPointwise(xs[..|xs| - 1], f, ys[..|ys| - 1], g);
    }
  }

  /** `P` relates each element of `xs` to the element of `ys` at the same position. */
  predicate Pairwise<A, B>(xs: seq<A>, ys: seq<B>, P: (A, B) -> bool) {
    |xs| <= |ys| && forall j :: 0 <= j < |xs| ==> P(xs[j], ys[j])
  }

  /** Appending an element related to the next element of `ys` keeps the relation. */
  lemma PairwiseAppend<A, B>(xs: seq<A>, ys: seq<B>, P: (A, B) -> bool, x: A)
    requires Pairwise(xs, ys, P) && |xs| < |ys| && P(x, ys[|xs|])
    ensures Pairwise(xs + [x], ys, P)
  {
    assert forall j :: 0 <= j < |xs| ==> (xs + [x])[j] == xs[j];
  }
}
