/** Array helpers shared by the model: `filter`, `some` and duplicate freedom. */
module Seqs {
  import Wrappers

  /** `xs.filter(keep)`: the kept elements, in their original order. */
  function Filter<T(==)>(keep: T -> bool, xs: seq<T>): (r: seq<T>)
    ensures |r| <= |xs|
    ensures forall i :: 0 <= i < |r| ==> keep(r[i]) && r[i] in xs
    ensures forall i :: 0 <= i < |xs| && keep(xs[i]) ==> xs[i] in r
    decreases |xs|
  {
    if xs == [] then []
    else
      assert xs == [xs[0]] + xs[1..];
      if keep(xs[0]) then [xs[0]] + Filter(keep, xs[1..])
      else Filter(keep, xs[1..])
  }

  /** Filtering a concatenation filters each part. */
  lemma {:induction false} FilterConcat<T>(keep: T -> bool, xs: seq<T>, ys: seq<T>)
    ensures Filter(keep, xs + ys) == Filter(keep, xs) + Filter(keep, ys)
    decreases |xs|
  {
    if xs == [] {
      assert xs + ys == ys;
    } else {
      assert (xs + ys)[0] == xs[0];
      assert (xs + ys)[1..] == xs[1..] + ys;
      FilterConcat(keep, xs[1..], ys);
    }
  }

  /** Filtering keeps everything exactly when every element is kept. */
  lemma {:induction false} FilterKeepsAll<T>(keep: T -> bool, xs: seq<T>)
    requires forall i :: 0 <= i < |xs| ==> keep(xs[i])
    ensures Filter(keep, xs) == xs
    decreases |xs|
  {
    if xs != [] {
      FilterKeepsAll(keep, xs[1..]);
      assert [xs[0]] + xs[1..] == xs;
    }
  }

  /** `xs.some(p)`. */
  predicate Some<T>(p: T -> bool, xs: seq<T>) {
    exists i :: 0 <= i < |xs| && p(xs[i])
  }

  /** The index of the first element satisfying `p`, as `xs.find(p)` finds
      it, or none. */
  function First<T>(p: T -> bool, xs: seq<T>): (r: Wrappers.Option<nat>)
    ensures r.Some? ==> r.value < |xs| && p(xs[r.value]) && forall j :: 0 <= j < r.value ==> !p(xs[j])
    ensures r.None? <==> forall j :: 0 <= j < |xs| ==> !p(xs[j])
    decreases |xs|
  {
    if xs == [] then Wrappers.None
    else if p(xs[0]) then Wrappers.Some(0)
    else match First(p, xs[1..])
      case None => Wrappers.None
      case Some(i) =>
        assert forall j :: 1 <= j < i + 1 ==> xs[j] == xs[1..][j - 1];
        Wrappers.Some(i + 1)
  }

  /** The first element satisfying `p` is the one found. */
  lemma FirstIs<T>(p: T -> bool, xs: seq<T>, k: nat)
    requires k < |xs| && p(xs[k]) && forall j :: 0 <= j < k ==> !p(xs[j])
    ensures First(p, xs) == Wrappers.Some(k)
  {
    var r := First(p, xs);
    assert r.Some?;
    assert !(r.value < k);
    assert !(k < r.value);
  }

  predicate NoDuplicates<T(==)>(xs: seq<T>) {
    forall i, j :: 0 <= i < j < |xs| ==> xs[i] != xs[j]
  }
}
