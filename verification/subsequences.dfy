/** Order-preserving selection from a sequence, stated through the positions
    that are kept. `Array.prototype.filter` and a loop that pushes only some
    of its inputs both select this way. */
module Subsequences {
  import opened Results

  /** The positions of `xs` whose element satisfies `p`, in increasing order:
      each such position exactly once, and no other. */
  function IndicesWhere<T>(xs: seq<T>, p: T -> bool): (idx: seq<nat>)
    ensures |idx| <= |xs|
    ensures forall k :: 0 <= k < |idx| ==> idx[k] < |xs| && p(xs[idx[k]])
    ensures forall k, l :: 0 <= k < l < |idx| ==> idx[k] < idx[l]
    ensures forall i :: 0 <= i < |xs| && p(xs[i]) ==> i in idx
  {
    if xs == [] then []
    else
      var n := |xs| - 1;
      IndicesWhere(xs[..n], p) + (if p(xs[n]) then [n] else [])
  }

  /** The elements of `xs` that satisfy `p`, in their original order: the
      k-th kept element is the one at the k-th selected position. */
  function Filter<T>(xs: seq<T>, p: T -> bool): (ys: seq<T>)
    ensures |ys| == |IndicesWhere(xs, p)|
    ensures forall k :: 0 <= k < |ys| ==> ys[k] == xs[IndicesWhere(xs, p)[k]]
  {
    if xs == [] then []
    else
      var n := |xs| - 1;
      Filter(xs[..n], p) + (if p(xs[n]) then [xs[n]] else [])
  }

  /** Nothing is selected when no element passes the test. */
  lemma {:induction false} NoneSelected<T>(xs: seq<T>, p: T -> bool)
    requires forall i :: 0 <= i < |xs| ==> !p(xs[i])
    ensures IndicesWhere(xs, p) == []
  {
    if xs != [] {
      NoneSelected(xs[..|xs| - 1], p);
    }
  }

  /** Two sequences whose elements pass their tests at the same positions
      select the same positions. */
  lemma {:induction false} SamePositionsSelected<T, U>(xs: seq<T>, p: T -> bool, ys: seq<U>, q: U -> bool)
    requires |xs| == |ys|
    requires forall i :: 0 <= i < |xs| ==> p(xs[i]) == q(ys[i])
    ensures IndicesWhere(xs, p) == IndicesWhere(ys, q)
  {
    if xs != [] {
      var n := |xs| - 1;
      SamePositionsSelected(xs[..n], p, ys[..n], q);
    }
  }

  /** `xs.map(f)` where `f` may throw: every element is mapped, in order, and
      the first error stops the whole map. */
  function MapOrFail<T, U, E>(xs: seq<T>, f: T -> Result<U, E>): (res: Result<seq<U>, E>)
    ensures res.Success? <==> forall i :: 0 <= i < |xs| ==> f(xs[i]).Success?
    ensures res.Success? ==> |res.value| == |xs|
    ensures res.Success? ==> forall i :: 0 <= i < |xs| ==> f(xs[i]) == Success(res.value[i])
    ensures res.Failure? ==> exists i :: 0 <= i < |xs| && f(xs[i]) == Failure(res.error) && forall j :: 0 <= j < i ==> f(xs[j]).Success?
  {
    if xs == [] then Success([])
    else
      var n := |xs| - 1;
      match MapOrFail(xs[..n], f)
      case Failure(e) => Failure(e)
      case Success(ys) =>
        match f(xs[n])
        case Failure(e) => Failure(e)
        case Success(y) => Success(ys + [y])
  }

  /** Element `i` is the first on which `f` fails, and it fails with `e`. */
  ghost predicate FirstFailureAt<T, U, E>(xs: seq<T>, f: T -> Result<U, E>, i: int, e: E) {
    && 0 <= i < |xs|
    && f(xs[i]) == Failure(e)
    && forall j :: 0 <= j < i ==> f(xs[j]).Success?
  }

  /** The elements on which `step` yields something to keep. */
  function Emits<T, U, E>(step: T -> Result<Option<U>, E>): T -> bool {
    x => step(x).Success? && step(x).value.Some?
  }

  /** `ys` is what a push loop over `xs` collects: the k-th value is what
      `step` yields on the k-th element on which it yields something. */
  ghost predicate Collected<T, U, E>(xs: seq<T>, step: T -> Result<Option<U>, E>, ys: seq<U>) {
    var idx := IndicesWhere(xs, Emits(step));
    && |ys| == |idx|
    && forall k :: 0 <= k < |ys| ==> step(xs[idx[k]]) == Success(Some(ys[k]))
  }

  /** One more successful iteration extends what the loop has collected. */
  lemma CollectedExtends<T, U, E>(xs: seq<T>, step: T -> Result<Option<U>, E>, ys: seq<U>)
    requires |xs| > 0 && step(xs[|xs| - 1]).Success?
    requires Collected(xs[..|xs| - 1], step, ys)
    ensures var o := step(xs[|xs| - 1]).value;
            Collected(xs, step, if o.Some? then ys + [o.value] else ys)
  {
    var n := |xs| - 1;
    var init := xs[..n];
    var idx := IndicesWhere(init, Emits(step));
    var o := step(xs[n]).value;
    var ys' := if o.Some? then ys + [o.value] else ys;
    var idx' := if o.Some? then idx + [n] else idx;
    assert Emits(step)(xs[n]) == o.Some?;
    assert IndicesWhere(xs, Emits(step)) == idx';
    forall k | 0 <= k < |ys'|
      ensures step(xs[idx'[k]]) == Success(Some(ys'[k]))
    {
      if k < |ys| {
        assert idx'[k] == idx[k] && ys'[k] == ys[k];
        assert xs[idx[k]] == init[idx[k]];
      }
    }
  }

  /** The first failure in a prefix is the first failure in the whole sequence. */
  lemma FirstFailureInPrefix<T, U, E>(xs: seq<T>, f: T -> Result<U, E>, n: nat, e: E)
    requires n <= |xs|
    requires exists i :: FirstFailureAt(xs[..n], f, i, e)
    ensures exists i :: FirstFailureAt(xs, f, i, e)
  {
    var i :| FirstFailureAt(xs[..n], f, i, e);
    assert FirstFailureAt(xs, f, i, e);
  }

  /** A loop over `xs` that runs `step` on each element and pushes what it
      yields, skipping elements that yield `None`; the first error stops it. */
  function CollectSome<T, U, E>(xs: seq<T>, step: T -> Result<Option<U>, E>): (res: Result<seq<U>, E>)
    ensures res.Success? <==> forall i :: 0 <= i < |xs| ==> step(xs[i]).Success?
    ensures res.Failure? ==> exists i :: FirstFailureAt(xs, step, i, res.error)
  {
    if xs == [] then Success([])
    else
      var n := |xs| - 1;
      var init := xs[..n];
      match CollectSome(init, step)
      case Failure(e) =>
        FirstFailureInPrefix(xs, step, n, e);
        Failure(e)
      case Success(ys) =>
        match step(xs[n])
        case Failure(e) =>
          assert FirstFailureAt(xs, step, n, e);
          Failure(e)
        case Success(o) =>
          Success(if o.Some? then ys + [o.value] else ys)
  }

  /** On success, the loop has collected exactly what `step` yields on the
      emitting elements, in order. */
  lemma {:induction false} CollectSomeCollects<T, U, E>(xs: seq<T>, step: T -> Result<Option<U>, E>)
    requires CollectSome(xs, step).Success?
    ensures Collected(xs, step, CollectSome(xs, step).value)
  {
    if xs != [] {
      var n := |xs| - 1;
      CollectSomeCollects(xs[..n], step);
      CollectedExtends(xs, step, CollectSome(xs[..n], step).value);
    }
  }
}
