/** Order-keeping filtering of a sequence, stated once and used as the reference for
    every loop of the scripts that keeps some elements of a list in their order. */
module Seqs {

  /** The elements of `xs` satisfying `p`, in the order of `xs`. */
  function Filter<T(!new)>(xs: seq<T>, p: T -> bool): (r: seq<T>)
    ensures |r| <= |xs|
    ensures forall x :: x in r <==> x in xs && p(x)
    decreases |xs|
  {
    if |xs| == 0 then []
    else
      var pre := xs[..|xs| - 1];
      var x := xs[|xs| - 1];
      assert xs == pre + [x];
      if p(x) then Filter(pre, p) + [x] else Filter(pre, p)
  }

  /** The positions of `xs` whose element satisfies `p`, in increasing order. */
  function Kept<T>(xs: seq<T>, p: T -> bool): (idx: seq<nat>)
    ensures forall k :: 0 <= k < |idx| ==> idx[k] < |xs|
    decreases |xs|
  {
    if |xs| == 0 then []
    else if p(xs[|xs| - 1]) then Kept(xs[..|xs| - 1], p) + [|xs| - 1]
    else Kept(xs[..|xs| - 1], p)
  }

  /** `Filter` keeps an in-order subsequence: it reads `xs` at strictly increasing
      positions, and those are exactly the positions whose element satisfies `p`. */
  lemma FilterInOrder<T(!new)>(xs: seq<T>, p: T -> bool)
    ensures var idx := Kept(xs, p);
      |idx| == |Filter(xs, p)|
      && (forall k :: 0 <= k < |idx| ==> Filter(xs, p)[k] == xs[idx[k]])
      && (forall k, l :: 0 <= k < l < |idx| ==> idx[k] < idx[l])
      && (forall j :: 0 <= j < |xs| ==> (j in idx <==> p(xs[j])))
  {
    KeptReads(xs, p);
    KeptIncreasing(xs, p);
    KeptExactly(xs, p);
  }

  lemma {:induction false} KeptReads<T(!new)>(xs: seq<T>, p: T -> bool)
    ensures |Kept(xs, p)| == |Filter(xs, p)|
    ensures forall k :: 0 <= k < |Kept(xs, p)| ==> Filter(xs, p)[k] == xs[Kept(xs, p)[k]]
    decreases |xs|
  {
    if |xs| > 0 {
      var n := |xs| - 1;
      var pre := xs[..n];
      KeptReads(pre, p);
      assert forall j :: 0 <= j < n ==> pre[j] == xs[j];
    }
  }

  lemma {:induction false} KeptIncreasing<T>(xs: seq<T>, p: T -> bool)
    ensures forall k, l :: 0 <= k < l < |Kept(xs, p)| ==> Kept(xs, p)[k] < Kept(xs, p)[l]
    decreases |xs|
  {
    if |xs| > 0 {
      KeptIncreasing(xs[..|xs| - 1], p);
    }
  }

  lemma {:induction false} KeptExactly<T>(xs: seq<T>, p: T -> bool)
    ensures forall j :: 0 <= j < |xs| ==> (j in Kept(xs, p) <==> p(xs[j]))
    decreases |xs|
  {
    if |xs| > 0 {
      var n := |xs| - 1;
      var pre := xs[..n];
      KeptExactly(pre, p);
      assert forall j :: 0 <= j < n ==> pre[j] == xs[j];
      assert n !in Kept(pre, p);
    }
  }

  /** Filtering a concatenation filters each part. */
  lemma {:induction false} FilterAppend<T(!new)>(xs: seq<T>, ys: seq<T>, p: T -> bool)
    ensures Filter(xs + ys, p) == Filter(xs, p) + Filter(ys, p)
    decreases |ys|
  {
    if |ys| > 0 {
      var pre := ys[..|ys| - 1];
      assert (xs + ys)[..|xs + ys| - 1] == xs + pre;
      assert (xs + ys)[|xs + ys| - 1] == ys[|ys| - 1];
      FilterAppend(xs, pre, p);
    } else {
      assert xs + ys == xs;
    }
  }
}
