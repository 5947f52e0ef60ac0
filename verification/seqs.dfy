/** `Array.prototype.filter`, `Array.prototype.map` and `Array.prototype.every`
    on sequences, with the facts the rest of the model needs about them. */
module Seqs {

  /** The elements of `xs` that satisfy `p`, in their original order. */
  function Filter<T(!new)>(p: T -> bool, xs: seq<T>): (r: seq<T>)
    ensures |r| <= |xs|
    ensures forall i :: 0 <= i < |r| ==> p(r[i])
    ensures forall x :: x in r <==> x in xs && p(x)
    decreases |xs|
  {
    if |xs| == 0 then []
    else
      var rest := Filter(p, xs[1..]);
      assert forall x :: x in xs <==> x == xs[0] || x in xs[1..];
      (if p(xs[0]) then [xs[0]] else []) + rest
  }

  /** `f` applied to every element of `xs`. */
  function Map<T, U>(f: T -> U, xs: seq<T>): (r: seq<U>)
    ensures |r| == |xs|
    ensures forall i :: 0 <= i < |xs| ==> r[i] == f(xs[i])
    decreases |xs|
  {
    if |xs| == 0 then [] else [f(xs[0])] + Map(f, xs[1..])
  }

  /** True iff every element of `xs` satisfies `p` (true on the empty sequence). */
  function Every<T>(p: T -> bool, xs: seq<T>): (b: bool)
    ensures b <==> forall i :: 0 <= i < |xs| ==> p(xs[i])
    decreases |xs|
  {
    |xs| == 0 || (p(xs[0]) && Every(p, xs[1..]))
  }

  /** Filtering keeps relative order: it distributes over concatenation. */
  lemma {:induction false} FilterAppend<T(!new)>(p: T -> bool, a: seq<T>, b: seq<T>)
    ensures Filter(p, a + b) == Filter(p, a) + Filter(p, b)
    decreases |a|
  {
    if |a| == 0 {
      assert a + b == b;
    } else {
      assert (a + b)[1..] == a[1..] + b;
      FilterAppend(p, a[1..], b);
    }
  }

  /** Filtering a sequence whose elements all pass is the identity. */
  lemma {:induction false} FilterKeepsAll<T(!new)>(p: T -> bool, xs: seq<T>)
    requires forall i :: 0 <= i < |xs| ==> p(xs[i])
    ensures Filter(p, xs) == xs
    decreases |xs|
  {
    if |xs| > 0 {
      FilterKeepsAll(p, xs[1..]);
      assert [xs[0]] + xs[1..] == xs;
    }
  }
}
