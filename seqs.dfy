/** Generic sequence operations used by the job pipeline: the filtering that a
    Python list comprehension `[x for x in s if p(x)]` performs, order-preserving
    subsequences, and Python's slice `s[start:stop]` with its index clamping. */
module Seqs {

  /** `[x for x in s if p(x)]`. */
  function Filter<T(==)>(s: seq<T>, p: T -> bool): (r: seq<T>)
    ensures |r| <= |s|
    ensures forall x :: x in r ==> x in s && p(x)
    ensures forall x :: x in s && p(x) ==> x in r
  {
    if s == [] then []
    else
      if p(s[0]) then [s[0]] + Filter(s[1..], p) else Filter(s[1..], p)
  }

  /** `a` can be obtained from `b` by deleting elements, keeping the order of the rest. */
  predicate IsSubseq<T(==)>(a: seq<T>, b: seq<T>)
    decreases |b|
  {
    if a == [] then true
    else if b == [] then false
    else (a[0] == b[0] && IsSubseq(a[1..], b[1..])) || IsSubseq(a, b[1..])
  }

  lemma {:induction false} IsSubseqReflexive<T>(s: seq<T>)
    ensures IsSubseq(s, s)
  {
    if s != [] { IsSubseqReflexive(s[1..]); }
  }

  lemma {:induction false} FilterIsSubseq<T>(s: seq<T>, p: T -> bool)
    ensures IsSubseq(Filter(s, p), s)
  {
    if s != [] {
      FilterIsSubseq(s[1..], p);
      var r := Filter(s, p);
      if p(s[0]) {
        assert r[0] == s[0] && r[1..] == Filter(s[1..], p);
      }
    }
  }

  /** A filter keeps every copy of an element it accepts and no copy of one
      it rejects. */
  lemma {:induction false} FilterCount<T>(s: seq<T>, p: T -> bool, x: T)
    ensures multiset(Filter(s, p))[x] == if p(x) then multiset(s)[x] else 0
  {
    if s != [] {
      FilterCount(s[1..], p, x);
      assert s == [s[0]] + s[1..];
    }
  }

  lemma FilterSingleton<T>(x: T, p: T -> bool)
    ensures Filter([x], p) == if p(x) then [x] else []
  {
    assert [x][1..] == [];
  }

  /** A subsequence of a one-element sequence is empty or that element. */
  lemma SubseqOfSingleton<T>(r: seq<T>, x: T)
    requires IsSubseq(r, [x])
    ensures r == [] || r == [x]
  {
    assert [x][1..] == [];
  }

  lemma {:induction false} FilterConcat<T>(a: seq<T>, b: seq<T>, p: T -> bool)
    ensures Filter(a + b, p) == Filter(a, p) + Filter(b, p)
  {
    if a == [] {
      assert a + b == b;
    } else {
      assert (a + b)[0] == a[0] && (a + b)[1..] == a[1..] + b;
      FilterConcat(a[1..], b, p);
    }
  }

  lemma {:induction false} FilterMonotone<T>(s: seq<T>, p: T -> bool, q: T -> bool)
    requires forall x :: p(x) ==> q(x)
    ensures |Filter(s, p)| <= |Filter(s, q)|
  {
    if s != [] {
      FilterMonotone(s[1..], p, q);
    }
  }

  /** The index Python uses for a slice bound `i` of a sequence of length `n`:
      a negative bound counts from the end, and the result is clamped to `0..n`. */
  function SliceIndex(i: int, n: nat): (k: nat)
    ensures k <= n
    ensures 0 <= i ==> k == if i <= n then i else n
    ensures i < 0 ==> k == if -i <= n then n + i else 0
  {
    if i < 0 then (if i + n < 0 then 0 else i + n)
    else if i > n then n
    else i
  }

  /** Python's `s[start:stop]` (step 1). */
  function PySlice<T>(s: seq<T>, start: int, stop: int): seq<T>
  {
    var a := SliceIndex(start, |s|);
    var b := SliceIndex(stop, |s|);
    if a <= b then s[a..b] else []
  }

  /** A slice never holds more than `stop - start` elements, whatever the signs of the bounds. */
  lemma PySliceBound<T>(s: seq<T>, start: int, stop: int)
    requires start <= stop
    ensures |PySlice(s, start, stop)| <= stop - start
  {
  }

  /** With non-negative bounds a slice is the plain sub-sequence between the clamped bounds. */
  lemma PySliceNonNegative<T>(s: seq<T>, start: int, stop: int)
    requires 0 <= start <= stop
    ensures var a := if start <= |s| then start else |s|;
            var b := if stop <= |s| then stop else |s|;
            PySlice(s, start, stop) == s[a..b] && |PySlice(s, start, stop)| == b - a
  {
  }
}
