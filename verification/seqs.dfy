/**
 `Array.prototype.filter`: keep, in their original order, the elements that
 pass a test. Together with the notion of a subsequence it is stated in.
 */
module Seqs {

  /** `idx` places each element of `a` at a position of `b`, in increasing order. */
  ghost predicate Embedding<T>(a: seq<T>, b: seq<T>, idx: seq<nat>) {
    && |idx| == |a|
    && (forall k :: 0 <= k < |idx| ==> idx[k] < |b| && a[k] == b[idx[k]])
    && (forall k, l :: 0 <= k < l < |idx| ==> idx[k] < idx[l])
  }

  /** `a` is `b` with some elements removed and the rest kept in order. */
  ghost predicate IsSubsequence<T>(a: seq<T>, b: seq<T>) {
    exists idx :: Embedding(a, b, idx)
  }

  /** The elements of `s` for which `p` holds, in the order of `s`. */
  function Filter<T>(s: seq<T>, p: T -> bool): (r: seq<T>)
    ensures |r| <= |s|
  {
    if s == [] then []
    else if p(s[0]) then [s[0]] + Filter(s[1..], p)
    else Filter(s[1..], p)
  }

  /** An element is kept exactly when it is in the input and passes the test. */
  lemma {:induction false} FilterMembership<T>(s: seq<T>, p: T -> bool)
    ensures forall x <- Filter(s, p) :: x in s && p(x)
    ensures forall x <- s :: p(x) ==> x in Filter(s, p)
  {
    if s != [] {
      FilterMembership(s[1..], p);
      assert s == [s[0]] + s[1..];
    }
  }

  /** The positions of `idx`, one further to the right. */
  function Shift(idx: seq<nat>): (r: seq<nat>)
    ensures |r| == |idx|
    ensures forall k :: 0 <= k < |idx| ==> r[k] == idx[k] + 1
  {
    seq(|idx|, k requires 0 <= k < |idx| => idx[k] + 1)
  }

  /** An embedding survives putting one more element in front of `b`. */
  lemma EmbeddingSkip<T>(x: T, a: seq<T>, b: seq<T>, idx: seq<nat>)
    requires Embedding(a, b, idx)
    ensures Embedding(a, [x] + b, Shift(idx))
  {
  }

  /** An embedding survives putting the same element in front of both sides. */
  lemma EmbeddingCons<T>(x: T, a: seq<T>, b: seq<T>, idx: seq<nat>)
    requires Embedding(a, b, idx)
    ensures Embedding([x] + a, [x] + b, [0] + Shift(idx))
  {
    var jdx := [0] + Shift(idx);
    forall k | 0 <= k < |jdx|
      ensures jdx[k] < |[x] + b| && ([x] + a)[k] == ([x] + b)[jdx[k]]
    {
      if k > 0 {
        assert jdx[k] == idx[k - 1] + 1;
      }
    }
  }

  /** The filtered sequence is a subsequence of its input. */
  lemma {:induction false} FilterIsSubsequence<T>(s: seq<T>, p: T -> bool)
    ensures IsSubsequence(Filter(s, p), s)
  {
    if s == [] {
      assert Embedding(Filter(s, p), s, []);
    } else {
      FilterIsSubsequence(s[1..], p);
      var idx :| Embedding(Filter(s[1..], p), s[1..], idx);
      assert s == [s[0]] + s[1..];
      if p(s[0]) {
        EmbeddingCons(s[0], Filter(s[1..], p), s[1..], idx);
        assert Embedding(Filter(s, p), s, [0] + Shift(idx));
      } else {
        EmbeddingSkip(s[0], Filter(s[1..], p), s[1..], idx);
        assert Embedding(Filter(s, p), s, Shift(idx));
      }
    }
  }

  /** Filtering a sequence with one more element in front. */
  lemma FilterCons<T>(x: T, s: seq<T>, p: T -> bool)
    ensures Filter([x] + s, p) == (if p(x) then [x] else []) + Filter(s, p)
  {
    assert ([x] + s)[0] == x;
    assert ([x] + s)[1..] == s;
  }

  /** Filtering a concatenation filters each part. */
  lemma {:induction false} FilterAppend<T>(a: seq<T>, b: seq<T>, p: T -> bool)
    ensures Filter(a + b, p) == Filter(a, p) + Filter(b, p)
  {
    if a == [] {
      assert a + b == b;
    } else {
      var x, rest := a[0], a[1..];
      FilterAppend(rest, b, p);
      assert a == [x] + rest;
      assert a + b == [x] + (rest + b);
      FilterCons(x, rest + b, p);
      FilterCons(x, rest, p);
      var head := if p(x) then [x] else [];
      assert Filter(a + b, p) == head + (Filter(rest, p) + Filter(b, p));
      assert head + (Filter(rest, p) + Filter(b, p)) == (head + Filter(rest, p)) + Filter(b, p);
    }
  }

  /** When every element passes, nothing is removed. */
  lemma {:induction false} FilterAllPass<T>(s: seq<T>, p: T -> bool)
    requires forall x :: x in s ==> p(x)
    ensures Filter(s, p) == s
  {
    if s != [] {
      FilterAllPass(s[1..], p);
      assert [s[0]] + s[1..] == s;
    }
  }

  /** Two tests that agree on every element of `s` select the same elements. */
  lemma {:induction false} FilterCongruent<T>(s: seq<T>, p: T -> bool, q: T -> bool)
    requires forall x :: x in s ==> p(x) == q(x)
    ensures Filter(s, p) == Filter(s, q)
  {
    if s != [] {
      FilterCongruent(s[1..], p, q);
    }
  }

  /** Filtering with `p` and then with `q` is filtering once with their conjunction `pq`. */
  lemma {:induction false} FilterFilter<T>(s: seq<T>, p: T -> bool, q: T -> bool, pq: T -> bool)
    requires forall x <- s :: pq(x) == (p(x) && q(x))
    ensures Filter(Filter(s, p), q) == Filter(s, pq)
  {
    if s != [] {
      FilterFilter(s[1..], p, q, pq);
      if p(s[0]) {
        assert Filter(s, p)[1..] == Filter(s[1..], p);
      }
    }
  }

  /** Filtering an already filtered sequence with the same test changes nothing. */
  lemma FilterIdempotent<T>(s: seq<T>, p: T -> bool)
    ensures Filter(Filter(s, p), p) == Filter(s, p)
  {
    FilterMembership(s, p);
    FilterAllPass(Filter(s, p), p);
  }
}
