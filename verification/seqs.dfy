/** Sequence helpers shared by the model: order-preserving subsequences, the
    `Array.prototype.filter` of JavaScript, and `Array.prototype.find` as a first
    index. */
module Seqs {
  import opened Wrappers

  /** `a` can be obtained from `b` by deleting elements. */
  predicate IsSubsequence<T(==)>(a: seq<T>, b: seq<T>)
    decreases |b|
  {
    if |a| == 0 then true
    else if |b| == 0 then false
    else if a[0] == b[0] then IsSubsequence(a[1..], b[1..])
    else IsSubsequence(a, b[1..])
  }

  lemma {:induction false} SubsequenceSkip<T>(a: seq<T>, b: seq<T>)
    requires |b| > 0 && IsSubsequence(a, b[1..])
    ensures IsSubsequence(a, b)
    decreases |b|, 0
  {
    if |a| > 0 && a[0] == b[0] {
      SubsequenceTail(a, b[1..]);
    }
  }

  lemma {:induction false} SubsequenceTail<T>(a: seq<T>, b: seq<T>)
    requires |a| > 0 && IsSubsequence(a, b)
    ensures IsSubsequence(a[1..], b)
    decreases |b|, 1
  {
    if a[0] != b[0] {
      SubsequenceTail(a, b[1..]);
      SubsequenceSkip(a[1..], b);
    } else if |a| > 1 {
      SubsequenceSkip(a[1..], b);
    }
  }

  /** `xs.filter(p)`: the elements satisfying `p`, in their order. */
  function Filter<T(==)>(xs: seq<T>, p: T -> bool): (r: seq<T>)
    ensures |r| <= |xs|
    ensures forall k :: 0 <= k < |r| ==> r[k] in xs && p(r[k])
    ensures forall k :: 0 <= k < |xs| && p(xs[k]) ==> xs[k] in r
  {
    if |xs| == 0 then []
    else (if p(xs[0]) then [xs[0]] else []) + Filter(xs[1..], p)
  }

  /** The filtered list keeps the input order. */
  lemma {:induction false} FilterIsSubsequence<T>(xs: seq<T>, p: T -> bool)
    ensures IsSubsequence(Filter(xs, p), xs)
    decreases |xs|
  {
    if |xs| > 0 {
      FilterIsSubsequence(xs[1..], p);
      var rest := Filter(xs[1..], p);
      if p(xs[0]) {
        assert Filter(xs, p) == [xs[0]] + rest;
        assert ([xs[0]] + rest)[1..] == rest;
      } else {
        assert Filter(xs, p) == rest;
        SubsequenceSkip(rest, xs);
      }
    }
  }

  /** `xs.find(p)` as an index: the first position whose element satisfies `p`. */
  function FirstWhere<T>(xs: seq<T>, p: T -> bool): (r: Option<nat>)
    ensures r.Some? ==> r.value < |xs| && p(xs[r.value])
    ensures r.Some? ==> forall j :: 0 <= j < r.value ==> !p(xs[j])
    ensures r.None? <==> forall j :: 0 <= j < |xs| ==> !p(xs[j])
  {
    if |xs| == 0 then None
    else if p(xs[0]) then Some(0)
    else
      var rest := FirstWhere(xs[1..], p);
      if rest.Some? then Some(rest.value + 1) else None
  }

  /** `xs.map(f)` where `f` may throw and is told each element's position, counted
      from `from`: the results in order, or the first failure. */
  function MapResult<A, B, E>(xs: seq<A>, f: (A, nat) -> Result<B, E>, from: nat): (r: Result<seq<B>, E>)
    ensures r.Success? ==> |r.value| == |xs|
    ensures r.Success? <==> forall k :: 0 <= k < |xs| ==> f(xs[k], from + k).Success?
    decreases |xs|
  {
    if |xs| == 0 then Success([])
    else
      var head := f(xs[0], from);
      var tail := MapResult(xs[1..], f, from + 1);
      assert forall k :: 1 <= k < |xs| ==> xs[1..][k - 1] == xs[k] && from + 1 + (k - 1) == from + k;
      if head.Failure? then Failure(head.error)
      else if tail.Failure? then Failure(tail.error)
      else Success([head.value] + tail.value)
  }

  /** Element `k` of a successful mapping is `f` applied to element `k` at position
      `from + k`. */
  lemma {:induction false} MapResultElements<A, B, E>(xs: seq<A>, f: (A, nat) -> Result<B, E>, from: nat)
    requires MapResult(xs, f, from).Success?
    ensures forall k :: 0 <= k < |xs| ==>
      f(xs[k], from + k).Success? && MapResult(xs, f, from).value[k] == f(xs[k], from + k).value
    decreases |xs|
  {
    if |xs| > 0 {
      var r := MapResult(xs, f, from).value;
      var tail := MapResult(xs[1..], f, from + 1).value;
      MapResultElements(xs[1..], f, from + 1);
      assert r == [f(xs[0], from).value] + tail;
      forall k | 1 <= k < |xs|
        ensures f(xs[k], from + k).Success? && r[k] == f(xs[k], from + k).value
      {
        assert r[k] == tail[k - 1];
        assert xs[1..][k - 1] == xs[k];
        assert from + 1 + (k - 1) == from + k;
      }
    }
  }

  /** The mapping fails with the error of the first element that fails. */
  lemma {:induction false} MapResultFirstFailure<A, B, E>(xs: seq<A>, f: (A, nat) -> Result<B, E>, from: nat, k: nat)
    requires k < |xs| && f(xs[k], from + k).Failure?
    requires forall j :: 0 <= j < k ==> f(xs[j], from + j).Success?
    ensures MapResult(xs, f, from) == Failure(f(xs[k], from + k).error)
    decreases k
  {
    if k > 0 {
      assert f(xs[0], from + 0).Success?;
      forall j | 0 <= j < k - 1
        ensures f(xs[1..][j], from + 1 + j).Success?
      {
        assert xs[1..][j] == xs[j + 1] && from + 1 + j == from + (j + 1);
      }
      assert xs[1..][k - 1] == xs[k] && from + 1 + (k - 1) == from + k;
      MapResultFirstFailure(xs[1..], f, from + 1, k - 1);
    }
  }
}
