/**
 * The array operations the components use: `filter`, `indexOf`, removal by
 * `splice` and by `filter`, and the order-preserving sublist relation their
 * results stand in.
 */
module Lists {

  /** `sub` is obtained from `xs` by deleting elements, without reordering the rest. */
  predicate IsSublist<T(==)>(sub: seq<T>, xs: seq<T>)
    decreases |xs|
  {
    if sub == [] then true
    else if xs == [] then false
    else (sub[0] == xs[0] && IsSublist(sub[1..], xs[1..])) || IsSublist(sub, xs[1..])
  }

  /** `xs.filter(keep)`. */
  function Filter<T>(xs: seq<T>, keep: T -> bool): (r: seq<T>)
    ensures |r| <= |xs|
  {
    if xs == [] then []
    else if keep(xs[0]) then [xs[0]] + Filter(xs[1..], keep)
    else Filter(xs[1..], keep)
  }

  /** Every element the filter returns comes from the input and passes the test. */
  lemma {:induction false} FilterSound<T>(xs: seq<T>, keep: T -> bool)
    ensures forall y | y in Filter(xs, keep) :: y in xs && keep(y)
  {
    if xs != [] {
      FilterSound(xs[1..], keep);
    }
  }

  /** Every element of the input that passes the test is returned. */
  lemma {:induction false} FilterComplete<T>(xs: seq<T>, keep: T -> bool)
    ensures forall y | y in xs && keep(y) :: y in Filter(xs, keep)
  {
    if xs != [] {
      FilterComplete(xs[1..], keep);
      assert forall y | y in xs :: y == xs[0] || y in xs[1..];
    }
  }

  /** The filter keeps the input's order: its result is a sublist of the input. */
  lemma {:induction false} FilterIsSublist<T>(xs: seq<T>, keep: T -> bool)
    ensures IsSublist(Filter(xs, keep), xs)
  {
    if xs != [] {
      FilterIsSublist(xs[1..], keep);
      var r := Filter(xs, keep);
      if keep(xs[0]) {
        assert r[0] == xs[0] && r[1..] == Filter(xs[1..], keep);
      } else if r != [] {
        assert IsSublist(r, xs[1..]);
      }
    }
  }

  /** The filter keeps every copy of a passing element and no copy of a failing one. */
  lemma {:induction false} FilterCount<T>(xs: seq<T>, keep: T -> bool, y: T)
    ensures multiset(Filter(xs, keep))[y] == if keep(y) then multiset(xs)[y] else 0
  {
    if xs != [] {
      FilterCount(xs[1..], keep, y);
      assert xs == [xs[0]] + xs[1..];
      assert multiset(xs) == multiset([xs[0]]) + multiset(xs[1..]);
      if keep(xs[0]) {
        assert multiset(Filter(xs, keep)) == multiset([xs[0]]) + multiset(Filter(xs[1..], keep));
      }
    }
  }

  /** A filter whose test holds of every element returns its input. */
  lemma {:induction false} FilterKeepsAll<T>(xs: seq<T>, keep: T -> bool)
    requires forall y | y in xs :: keep(y)
    ensures Filter(xs, keep) == xs
  {
    if xs != [] {
      FilterKeepsAll(xs[1..], keep);
      assert xs == [xs[0]] + xs[1..];
    }
  }

  /** Filtering distributes over concatenation. */
  lemma {:induction false} FilterAppend<T>(xs: seq<T>, ys: seq<T>, keep: T -> bool)
    ensures Filter(xs + ys, keep) == Filter(xs, keep) + Filter(ys, keep)
  {
    if xs != [] {
      assert (xs + ys)[0] == xs[0];
      assert (xs + ys)[1..] == xs[1..] + ys;
      FilterAppend(xs[1..], ys, keep);
    } else {
      assert xs + ys == ys;
    }
  }

  /** `xs.indexOf(x)` for an element that is present: its first position. */
  function IndexOf<T(==)>(xs: seq<T>, x: T): (i: nat)
    requires x in xs
    ensures i < |xs| && xs[i] == x && x !in xs[..i]
  {
    if xs[0] == x then 0
    else
      var j := IndexOf(xs[1..], x);
      assert xs[..j + 1] == [xs[0]] + xs[1..][..j];
      1 + j
  }

  /** An element appended to a list that lacks it is found at the end. */
  lemma IndexOfAppended<T>(xs: seq<T>, x: T)
    requires x !in xs
    ensures x in xs + [x] && IndexOf(xs + [x], x) == |xs|
  {
    var i := IndexOf(xs + [x], x);
    assert (xs + [x])[..|xs|] == xs;
  }

  /** `xs.splice(i, 1)` for an index inside the list: the list without position i. */
  function RemoveAt<T>(xs: seq<T>, i: nat): (r: seq<T>)
    requires i < |xs|
    ensures |r| == |xs| - 1
    ensures forall k | 0 <= k < i :: r[k] == xs[k]
    ensures forall k | i <= k < |r| :: r[k] == xs[k + 1]
  {
    xs[..i] + xs[i + 1..]
  }

  /**
   * `xs.splice(index, 1)` for any integer index: a negative index counts from
   * the end (and is clamped at the front), an index past the end removes nothing.
   */
  function SpliceOne<T>(xs: seq<T>, index: int): (r: seq<T>)
    ensures 0 <= index < |xs| ==> r == xs[..index] + xs[index + 1..]
    ensures -|xs| <= index < 0 ==> r == xs[..|xs| + index] + xs[|xs| + index + 1..]
    ensures index < -|xs| && xs != [] ==> r == xs[1..]
    ensures index >= |xs| ==> r == xs
  {
    var start := if index < 0 then (if |xs| + index < 0 then 0 else |xs| + index)
                 else index;
    if start < |xs| then RemoveAt(xs, start) else xs
  }

  /** `xs.filter(y => y !== x)`: every occurrence of x removed. */
  function Without<T(==)>(xs: seq<T>, x: T): seq<T>
  {
    Filter(xs, y => y != x)
  }

  /** Removing every occurrence leaves none, keeps all other elements in order. */
  lemma WithoutSpec<T>(xs: seq<T>, x: T)
    ensures x !in Without(xs, x)
    ensures forall y | y in xs && y != x :: y in Without(xs, x)
    ensures IsSublist(Without(xs, x), xs)
    ensures forall y | y != x :: multiset(Without(xs, x))[y] == multiset(xs)[y]
  {
    FilterSound(xs, y => y != x);
    FilterComplete(xs, y => y != x);
    FilterIsSublist(xs, y => y != x);
    forall y | y != x
      ensures multiset(Without(xs, x))[y] == multiset(xs)[y]
    {
      FilterCount(xs, y => y != x, y);
    }
  }

  /** Appending an absent element and then removing all its occurrences is the identity. */
  lemma WithoutAppended<T>(xs: seq<T>, x: T)
    requires x !in xs
    ensures Without(xs + [x], x) == xs
  {
    FilterAppend(xs, [x], y => y != x);
    FilterKeepsAll(xs, y => y != x);
    assert Filter([x], y => y != x) == [];
  }
}
