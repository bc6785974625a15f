/** Order-preserving subsequences, the relation every list filter of the client keeps. */
module Seqs {

  /** `r` is `xs` with some elements dropped and the rest kept in order. */
  predicate IsSubsequence<T(==)>(r: seq<T>, xs: seq<T>)
    decreases |xs|
  {
    if r == [] then true
    else if xs == [] then false
    else (r[0] == xs[0] && IsSubsequence(r[1..], xs[1..])) || IsSubsequence(r, xs[1..])
  }

  /** Every element of a subsequence is an element of the whole. */
  lemma {:induction false} SubsequenceMembers<T>(r: seq<T>, xs: seq<T>)
    requires IsSubsequence(r, xs)
    ensures forall x :: x in r ==> x in xs
    decreases |xs|
  {
    if r != [] {
      if r[0] == xs[0] && IsSubsequence(r[1..], xs[1..]) {
        SubsequenceMembers(r[1..], xs[1..]);
        assert r == [r[0]] + r[1..];
      } else {
        SubsequenceMembers(r, xs[1..]);
      }
    }
  }

  /** The whole sequence is a subsequence of itself. */
  lemma {:induction false} SubsequenceRefl<T>(xs: seq<T>)
    ensures IsSubsequence(xs, xs)
    decreases |xs|
  {
    if xs != [] {
      SubsequenceRefl(xs[1..]);
    }
  }

  /** Keeping the first element and a subsequence of the rest. */
  lemma SubsequenceCons<T>(x: T, r: seq<T>, xs: seq<T>)
    requires IsSubsequence(r, xs)
    ensures IsSubsequence([x] + r, [x] + xs)
  {
    assert ([x] + r)[1..] == r && ([x] + xs)[1..] == xs;
  }

  /** Dropping the first element. */
  lemma SubsequenceSkip<T>(x: T, r: seq<T>, xs: seq<T>)
    requires IsSubsequence(r, xs)
    ensures IsSubsequence(r, [x] + xs)
  {
    assert ([x] + xs)[1..] == xs;
  }

  /** Subsequences of two parts concatenate to a subsequence of the concatenation. */
  lemma {:induction false} SubsequenceAppend<T>(r1: seq<T>, xs1: seq<T>, r2: seq<T>, xs2: seq<T>)
    requires IsSubsequence(r1, xs1) && IsSubsequence(r2, xs2)
    ensures IsSubsequence(r1 + r2, xs1 + xs2)
    decreases |xs1|
  {
    if xs1 == [] {
      assert r1 == [];
      assert r1 + r2 == r2 && xs1 + xs2 == xs2;
    } else if r1 != [] && r1[0] == xs1[0] && IsSubsequence(r1[1..], xs1[1..]) {
      SubsequenceAppend(r1[1..], xs1[1..], r2, xs2);
      assert r1 + r2 == [r1[0]] + (r1[1..] + r2);
      assert xs1 + xs2 == [xs1[0]] + (xs1[1..] + xs2);
      SubsequenceCons(r1[0], r1[1..] + r2, xs1[1..] + xs2);
    } else {
      if r1 == [] {
        assert IsSubsequence(r1, xs1[1..]);
      }
      SubsequenceAppend(r1, xs1[1..], r2, xs2);
      assert xs1 + xs2 == [xs1[0]] + (xs1[1..] + xs2);
      SubsequenceSkip(xs1[0], r1 + r2, xs1[1..] + xs2);
    }
  }

  /** `xs.filter(keep)`: the elements that pass, in their original order. */
  function Filter<T(!new)>(xs: seq<T>, keep: T -> bool): (r: seq<T>)
    ensures |r| <= |xs|
    ensures forall x :: x in r <==> x in xs && keep(x)
    decreases |xs|
  {
    if xs == [] then []
    else
      assert forall x :: x in xs <==> x == xs[0] || x in xs[1..];
      (if keep(xs[0]) then [xs[0]] else []) + Filter(xs[1..], keep)
  }

  /** A filter keeps its input's order. */
  lemma {:induction false} FilterSubsequence<T(!new)>(xs: seq<T>, keep: T -> bool)
    ensures IsSubsequence(Filter(xs, keep), xs)
    decreases |xs|
  {
    if xs != [] {
      FilterSubsequence(xs[1..], keep);
      assert [xs[0]] + xs[1..] == xs;
      if keep(xs[0]) {
        assert Filter(xs, keep) == [xs[0]] + Filter(xs[1..], keep);
        SubsequenceCons(xs[0], Filter(xs[1..], keep), xs[1..]);
      } else {
        assert Filter(xs, keep) == Filter(xs[1..], keep);
        SubsequenceSkip(xs[0], Filter(xs[1..], keep), xs[1..]);
      }
    }
  }

  /** A filter that every element passes changes nothing. */
  lemma {:induction false} FilterKeepsAll<T(!new)>(xs: seq<T>, keep: T -> bool)
    requires forall i :: 0 <= i < |xs| ==> keep(xs[i])
    ensures Filter(xs, keep) == xs
    decreases |xs|
  {
    if xs != [] {
      FilterKeepsAll(xs[1..], keep);
      assert [xs[0]] + xs[1..] == xs;
    }
  }
}
