/** `Array.prototype.filter` and the order-preserving subsequence relation it establishes. */
module Seqs {

  /** `a` is `b` with some elements left out and the rest kept in their order. */
  predicate IsSubsequence<T(==, !new)>(a: seq<T>, b: seq<T>)
    decreases |b|
  {
    a == [] || (|b| > 0 && ((a[0] == b[0] && IsSubsequence(a[1..], b[1..])) || IsSubsequence(a, b[1..])))
  }

  /** `s.filter(p)`: the elements of `s` that pass `p`, in their original order. */
  function Filter<T(==, !new)>(s: seq<T>, p: T -> bool): (r: seq<T>)
    ensures |r| <= |s|
    ensures forall x :: x in r <==> x in s && p(x)
    ensures IsSubsequence(r, s)
  {
    if s == [] then []
    else if p(s[0]) then [s[0]] + Filter(s[1..], p)
    else Filter(s[1..], p)
  }

  /** A filter that rejects nothing returns its input. */
  lemma {:induction false} FilterKeepsAll<T(!new)>(s: seq<T>, p: T -> bool)
    requires forall x :: x in s ==> p(x)
    ensures Filter(s, p) == s
  {
    if s != [] {
      assert forall x :: x in s[1..] ==> x in s;
      FilterKeepsAll(s[1..], p);
    }
  }

  /** The filter result, position by position: how many elements pass is its length. */
  function Count<T(==, !new)>(s: seq<T>, p: T -> bool): (n: nat)
    ensures n <= |s|
    ensures n == |s| <==> forall x :: x in s ==> p(x)
    ensures n == 0 <==> forall x :: x in s ==> !p(x)
  {
    if s == [] then 0
    else (if p(s[0]) then 1 else 0) + Count(s[1..], p)
  }

  /** Counting the passing elements is the length of the filtered list. */
  lemma {:induction false} CountIsFilterLength<T(!new)>(s: seq<T>, p: T -> bool)
    ensures Count(s, p) == |Filter(s, p)|
  {
    if s != [] {
      CountIsFilterLength(s[1..], p);
    }
  }
}
