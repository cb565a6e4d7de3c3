/** JavaScript's `Array.prototype.filter` on sequences, and what it keeps. */
module Lists {

  /** `xs` can be obtained from `ys` by deleting elements, keeping the order of the rest. */
  ghost predicate SubsequenceOf<T>(xs: seq<T>, ys: seq<T>)
    decreases |ys|
  {
    xs == [] || (ys != [] && ((xs[0] == ys[0] && SubsequenceOf(xs[1..], ys[1..])) || SubsequenceOf(xs, ys[1..])))
  }

  /** `xs.filter(keep)`: the elements for which `keep` holds, in their original order. */
  function Filter<T>(xs: seq<T>, keep: T -> bool): (r: seq<T>)
    ensures |r| <= |xs|
    ensures forall i | 0 <= i < |r| :: r[i] in xs && keep(r[i])
    ensures forall i | 0 <= i < |xs| && keep(xs[i]) :: xs[i] in r
    ensures SubsequenceOf(r, xs)
  {
    if xs == [] then []
    else
      var rest := Filter(xs[1..], keep);
      if keep(xs[0]) then
        assert ([xs[0]] + rest)[1..] == rest;
        [xs[0]] + rest
      else rest
  }

  /** Each kept value appears in the result as often as in `xs`, and a dropped value not at
      all. */
  lemma {:induction false} FilterCounts<T>(xs: seq<T>, keep: T -> bool, x: T)
    ensures multiset(Filter(xs, keep))[x] == if keep(x) then multiset(xs)[x] else 0
  {
    if xs != [] {
      FilterCounts(xs[1..], keep, x);
      assert xs == [xs[0]] + xs[1..];
    }
  }

  /** When every element is kept, `filter` returns the sequence itself. */
  lemma {:induction false} FilterKeepsAll<T>(xs: seq<T>, keep: T -> bool)
    requires forall i | 0 <= i < |xs| :: keep(xs[i])
    ensures Filter(xs, keep) == xs
  {
    if xs != [] {
      assert keep(xs[0]);
      FilterKeepsAll(xs[1..], keep);
    }
  }

  /** When nothing is kept, `filter` returns the empty sequence. */
  lemma {:induction false} FilterKeepsNone<T>(xs: seq<T>, keep: T -> bool)
    requires forall i | 0 <= i < |xs| :: !keep(xs[i])
    ensures Filter(xs, keep) == []
  {
    if xs != [] {
      assert !keep(xs[0]);
      FilterKeepsNone(xs[1..], keep);
    }
  }

  /** Two tests that agree on every element keep the same elements. */
  lemma {:induction false} FilterAgrees<T>(xs: seq<T>, keep: T -> bool, keep': T -> bool)
    requires forall i | 0 <= i < |xs| :: keep(xs[i]) == keep'(xs[i])
    ensures Filter(xs, keep) == Filter(xs, keep')
  {
    if xs != [] {
      assert keep(xs[0]) == keep'(xs[0]);
      FilterAgrees(xs[1..], keep, keep');
    }
  }
}
