/** `Array.prototype.filter` and the "subsequence" relation used to state that
    a filter keeps its survivors in their original order. */
module Seqs {

  function Filter<T>(xs: seq<T>, p: T -> bool): (r: seq<T>)
    ensures |r| <= |xs|
  {
    if xs == [] then [] else if p(xs[0]) then [xs[0]] + Filter(xs[1..], p) else Filter(xs[1..], p)
  }

  /** `a` is `b` with some elements deleted (greedy left-to-right match). */
  predicate IsSubsequence<T(==)>(a: seq<T>, b: seq<T>)
    decreases |b|
  {
    |a| == 0 || (|b| > 0 && if a[0] == b[0] then IsSubsequence(a[1..], b[1..]) else IsSubsequence(a, b[1..]))
  }

  /** An element survives the filter exactly when it occurs and satisfies `p`. */
  lemma {:induction false} FilterMembers<T>(xs: seq<T>, p: T -> bool)
    ensures forall x :: x in Filter(xs, p) <==> x in xs && p(x)
  {
    if xs != [] {
      FilterMembers(xs[1..], p);
      assert xs == [xs[0]] + xs[1..];
    }
  }

  /** The survivors keep their relative order. */
  lemma {:induction false} FilterIsSubsequence<T>(xs: seq<T>, p: T -> bool)
    ensures IsSubsequence(Filter(xs, p), xs)
  {
    if xs != [] {
      FilterIsSubsequence(xs[1..], p);
      var f := Filter(xs, p);
      if p(xs[0]) {
        assert f[0] == xs[0] && f[1..] == Filter(xs[1..], p);
      } else if f != [] {
        FilterMembers(xs[1..], p);
        assert f[0] in f;
        assert f[0] != xs[0];
      }
    }
  }

  /** Every element passing `p` survives as often as it occurs; every other
      element is gone. With `FilterIsSubsequence` this pins the result. */
  lemma {:induction false} FilterCount<T>(xs: seq<T>, p: T -> bool)
    ensures forall x :: multiset(Filter(xs, p))[x] == if p(x) then multiset(xs)[x] else 0
  {
    if xs != [] {
      FilterCount(xs[1..], p);
      assert xs == [xs[0]] + xs[1..];
    }
  }

  /** Filtering distributes over concatenation. */
  lemma {:induction false} FilterAppend<T>(a: seq<T>, b: seq<T>, p: T -> bool)
    ensures Filter(a + b, p) == Filter(a, p) + Filter(b, p)
  {
    if a != [] {
      FilterAppend(a[1..], b, p);
      assert (a + b)[1..] == a[1..] + b;
    } else {
      assert a + b == b;
    }
  }

  /** A filter every element passes changes nothing. */
  lemma {:induction false} FilterKeepsAll<T>(xs: seq<T>, p: T -> bool)
    requires forall k :: 0 <= k < |xs| ==> p(xs[k])
    ensures Filter(xs, p) == xs
  {
    if xs != [] {
      FilterKeepsAll(xs[1..], p);
      assert xs == [xs[0]] + xs[1..];
    }
  }

  /** A filter no element passes leaves nothing. */
  lemma {:induction false} FilterDropsAll<T>(xs: seq<T>, p: T -> bool)
    requires forall k :: 0 <= k < |xs| ==> !p(xs[k])
    ensures Filter(xs, p) == []
  {
    if xs != [] {
      FilterDropsAll(xs[1..], p);
    }
  }

  /** `Array.prototype.reverse`, as a value. */
  function Reverse<T>(xs: seq<T>): (r: seq<T>)
    ensures |r| == |xs| && forall i :: 0 <= i < |xs| ==> r[i] == xs[|xs| - 1 - i]
  {
    seq(|xs|, i requires 0 <= i < |xs| => xs[|xs| - 1 - i])
  }

  /** Reversing a slice of the reversed sequence gives the mirrored slice, in the original order. */
  lemma ReverseSliceOfReverse<T>(xs: seq<T>, a: nat, b: nat)
    requires a <= b <= |xs|
    ensures Reverse(Reverse(xs)[a..b]) == xs[|xs| - b..|xs| - a]
  {
    var lhs := Reverse(Reverse(xs)[a..b]);
    var rhs := xs[|xs| - b..|xs| - a];
    forall k | 0 <= k < b - a ensures lhs[k] == rhs[k] {
      calc {
        lhs[k];
        Reverse(xs)[a..b][b - a - 1 - k];
        Reverse(xs)[b - 1 - k];
        xs[|xs| - b + k];
      }
    }
  }
}
