/** Order-preserving selection over sequences. Every derived view of the
    dashboard (active alerts, public alerts, active vehicles) is a call of
    JavaScript's `Array.prototype.filter`, which `Filter` models. */
module Sequences {

  /** The elements of `s` that satisfy `p`, in their order in `s`. */
  function Filter<T>(p: T -> bool, s: seq<T>): (r: seq<T>)
    ensures |r| <= |s|
    ensures forall i :: 0 <= i < |r| ==> p(r[i])
  {
    if s == [] then []
    else if p(s[0]) then [s[0]] + Filter(p, s[1..])
    else Filter(p, s[1..])
  }

  /** `r` is obtained from `s` by deleting some elements and keeping the
      order of the rest. */
  ghost predicate IsSubsequence<T>(r: seq<T>, s: seq<T>)
    decreases |s|
  {
    if r == [] then true
    else if s == [] then false
    else if r[0] == s[0] then IsSubsequence(r[1..], s[1..])
    else IsSubsequence(r, s[1..])
  }

  /** An element is kept exactly when it is in `s` and satisfies `p`. */
  lemma {:induction false} FilterMembership<T>(p: T -> bool, s: seq<T>, x: T)
    ensures x in Filter(p, s) <==> x in s && p(x)
  {
    if s != [] {
      FilterMembership(p, s[1..], x);
      assert s == [s[0]] + s[1..];
    }
  }

  /** Every copy of a kept value survives: the multiplicity of `x` in the
      result is its multiplicity in `s` when `p(x)`, and zero otherwise. */
  lemma {:induction false} FilterMultiplicity<T>(p: T -> bool, s: seq<T>, x: T)
    ensures multiset(Filter(p, s))[x] == if p(x) then multiset(s)[x] else 0
  {
    if s != [] {
      FilterMultiplicity(p, s[1..], x);
      assert s == [s[0]] + s[1..];
    }
  }

  /** The result keeps the order of `s`. */
  lemma {:induction false} FilterIsSubsequence<T>(p: T -> bool, s: seq<T>)
    ensures IsSubsequence(Filter(p, s), s)
  {
    if s != [] {
      FilterIsSubsequence(p, s[1..]);
      if !p(s[0]) && Filter(p, s[1..]) != [] {
        DropHeadKeepsSubsequence(Filter(p, s[1..]), s[1..], s[0]);
        assert [s[0]] + s[1..] == s;
      }
    }
  }

  /** Putting one element in front of `s` keeps every subsequence of `s`
      a subsequence. */
  lemma {:induction false} DropHeadKeepsSubsequence<T>(r: seq<T>, s: seq<T>, x: T)
    requires IsSubsequence(r, s)
    ensures IsSubsequence(r, [x] + s)
    decreases |s|, 1
  {
    if r != [] && r[0] == x {
      // [x] + s matches r[0] against x; the rest must be a subsequence of s
      SubsequenceTail(r, s);
      assert ([x] + s)[1..] == s;
    }
    else if r != [] {
      assert ([x] + s)[1..] == s;
    }
  }

  /** Dropping the first element of `r` keeps it a subsequence. */
  lemma {:induction false} SubsequenceTail<T>(r: seq<T>, s: seq<T>)
    requires r != [] && IsSubsequence(r, s)
    ensures IsSubsequence(r[1..], s)
    decreases |s|, 0
  {
    if r[0] == s[0] {
      if r[1..] != [] {
        DropHeadKeepsSubsequence(r[1..], s[1..], s[0]);
        assert [s[0]] + s[1..] == s;
      }
    } else {
      SubsequenceTail(r, s[1..]);
      if r[1..] != [] {
        DropHeadKeepsSubsequence(r[1..], s[1..], s[0]);
        assert [s[0]] + s[1..] == s;
      }
    }
  }

  /** A sequence whose every element satisfies `p` is its own filter. */
  lemma {:induction false} FilterKeepsAll<T>(p: T -> bool, s: seq<T>)
    requires forall i :: 0 <= i < |s| ==> p(s[i])
    ensures Filter(p, s) == s
  {
    if s != [] {
      FilterKeepsAll(p, s[1..]);
      assert [s[0]] + s[1..] == s;
    }
  }

  /** Filtering a second time with the same predicate changes nothing. */
  lemma FilterIdempotent<T>(p: T -> bool, s: seq<T>)
    ensures Filter(p, Filter(p, s)) == Filter(p, s)
  {
    FilterKeepsAll(p, Filter(p, s));
  }

  /** Filter distributes over concatenation. */
  lemma {:induction false} FilterConcat<T>(p: T -> bool, a: seq<T>, b: seq<T>)
    ensures Filter(p, a + b) == Filter(p, a) + Filter(p, b)
  {
    if a != [] {
      FilterConcat(p, a[1..], b);
      assert (a + b)[1..] == a[1..] + b;
    } else {
      assert a + b == b;
    }
  }

  /** Filtering by `p` and then by `q` is filtering once by their
      conjunction `pq`. */
  lemma {:induction false} FilterOfFilter<T>(p: T -> bool, q: T -> bool, pq: T -> bool, s: seq<T>)
    requires forall x :: pq(x) == (p(x) && q(x))
    ensures Filter(q, Filter(p, s)) == Filter(pq, s)
  {
    if s != [] {
      FilterOfFilter(p, q, pq, s[1..]);
    }
  }

  /** The result is non-empty exactly when some element satisfies `p`. */
  lemma {:induction false} FilterNonEmpty<T>(p: T -> bool, s: seq<T>)
    ensures |Filter(p, s)| > 0 <==> exists i :: 0 <= i < |s| && p(s[i])
  {
    if s != [] {
      FilterNonEmpty(p, s[1..]);
      if exists i :: 0 <= i < |s[1..]| && p(s[1..][i]) {
        var i :| 0 <= i < |s[1..]| && p(s[1..][i]);
        assert p(s[i + 1]);
      }
      if exists i :: 0 <= i < |s| && p(s[i]) {
        var i :| 0 <= i < |s| && p(s[i]);
        if i > 0 { assert p(s[1..][i - 1]); }
      }
    }
  }

  /** The smaller of two integers: how many elements `slice(0, k)` keeps
      from a list of length `n` is `Min(k, n)`. */
  function Min(a: int, b: int): int { if a <= b then a else b }
}
