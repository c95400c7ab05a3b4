/** Selecting the elements of a sequence that satisfy a predicate, order kept. */
module Sequences {

  function Filter<T>(xs: seq<T>, keep: T -> bool): (r: seq<T>)
    ensures |r| <= |xs|
    ensures forall k | 0 <= k < |r| :: keep(r[k])
  {
    if xs == [] then [] else (if keep(xs[0]) then [xs[0]] else []) + Filter(xs[1..], keep)
  }

  lemma {:induction false} FilterAppend<T>(a: seq<T>, b: seq<T>, keep: T -> bool)
    ensures Filter(a + b, keep) == Filter(a, keep) + Filter(b, keep)
  {
    if a == [] {
      assert a + b == b;
    } else {
      assert (a + b)[0] == a[0];
      assert (a + b)[1..] == a[1..] + b;
      FilterAppend(a[1..], b, keep);
    }
  }

  /** Nothing is dropped when every element is kept. */
  lemma {:induction false} FilterKeepsAll<T>(xs: seq<T>, keep: T -> bool)
    requires forall k | 0 <= k < |xs| :: keep(xs[k])
    ensures Filter(xs, keep) == xs
  {
    if xs != [] {
      FilterKeepsAll(xs[1..], keep);
      assert xs == [xs[0]] + xs[1..];
    }
  }

  /** Everything is dropped when no element is kept. */
  lemma {:induction false} FilterDropsAll<T>(xs: seq<T>, keep: T -> bool)
    requires forall k | 0 <= k < |xs| :: !keep(xs[k])
    ensures Filter(xs, keep) == []
  {
    if xs != [] {
      FilterDropsAll(xs[1..], keep);
    }
  }

  lemma FilterOfParts<T>(a: seq<T>, b: seq<T>, c: seq<T>, d: seq<T>, keep: T -> bool)
    ensures Filter(a + b + c + d, keep) == Filter(a, keep) + Filter(b, keep) + Filter(c, keep) + Filter(d, keep)
  {
    FilterAppend(a + b + c, d, keep);
    FilterAppend(a + b, c, keep);
    FilterAppend(a, b, keep);
  }

  /** Filtering keeps the two middle parts and drops the outer ones. */
  lemma FilterSelectsMiddle<T>(head: seq<T>, a: seq<T>, b: seq<T>, tail: seq<T>, keep: T -> bool)
    requires forall k | 0 <= k < |head| :: !keep(head[k])
    requires forall k | 0 <= k < |a| :: keep(a[k])
    requires forall k | 0 <= k < |b| :: keep(b[k])
    requires forall k | 0 <= k < |tail| :: !keep(tail[k])
    ensures Filter(head + a + b + tail, keep) == a + b
  {
    assert Filter(head, keep) == [] by { FilterDropsAll(head, keep); }
    assert Filter(tail, keep) == [] by { FilterDropsAll(tail, keep); }
    assert Filter(a, keep) == a by { FilterKeepsAll(a, keep); }
    assert Filter(b, keep) == b by { FilterKeepsAll(b, keep); }
    FilterOfParts(head, a, b, tail, keep);
  }
}
