/** Sequence operations the core performs through JavaScript's array methods:
    Array.prototype.filter (Keep), slice with a negative start (SliceFromEnd) and the
    append-then-truncate idiom `[...prev, x].slice(-n)` (AppendBounded). */
module Seqs {
  import opened Numeric

  /** `a` is `b` with some elements deleted, the rest kept in order. */
  predicate IsSubsequence<T(==)>(a: seq<T>, b: seq<T>)
    decreases |b|
  {
    if b == [] then a == []
    else (a != [] && a[0] == b[0] && IsSubsequence(a[1..], b[1..])) || IsSubsequence(a, b[1..])
  }

  lemma {:induction false} SubsequenceOfItself<T>(s: seq<T>)
    ensures IsSubsequence(s, s)
  {
    if s != [] {
      SubsequenceOfItself(s[1..]);
    }
  }

  /** Array.prototype.filter: the elements of `s` that satisfy `p`, in their order. */
  function Keep<T(!new)>(s: seq<T>, p: T -> bool): (r: seq<T>)
    ensures |r| <= |s|
    ensures forall x :: x in r <==> x in s && p(x)
  {
    if s == [] then []
    else if p(s[0]) then [s[0]] + Keep(s[1..], p)
    else Keep(s[1..], p)
  }

  /** What filter returns is an order-preserving subsequence of its input. */
  lemma {:induction false} KeepIsSubsequence<T(!new)>(s: seq<T>, p: T -> bool)
    ensures IsSubsequence(Keep(s, p), s)
  {
    if s != [] {
      KeepIsSubsequence(s[1..], p);
      if p(s[0]) {
        assert Keep(s, p)[1..] == Keep(s[1..], p);
      }
    }
  }

  /** Filtering twice by the same predicate is filtering once. */
  lemma {:induction false} KeepIdempotent<T(!new)>(s: seq<T>, p: T -> bool)
    ensures Keep(Keep(s, p), p) == Keep(s, p)
  {
    if s != [] {
      KeepIdempotent(s[1..], p);
      if p(s[0]) {
        assert ([s[0]] + Keep(s[1..], p))[1..] == Keep(s[1..], p);
      }
    }
  }

  /** Filtering by `p` and then by `q` is filtering once by their conjunction `r`. */
  lemma {:induction false} KeepTwice<T(!new)>(s: seq<T>, p: T -> bool, q: T -> bool, r: T -> bool)
    requires forall x :: r(x) == (p(x) && q(x))
    ensures Keep(Keep(s, p), q) == Keep(s, r)
  {
    if s != [] {
      KeepTwice(s[1..], p, q, r);
      if p(s[0]) {
        assert ([s[0]] + Keep(s[1..], p))[1..] == Keep(s[1..], p);
      }
    }
  }

  /** A filter whose predicate holds everywhere in `s` returns `s`. */
  lemma {:induction false} KeepAll<T(!new)>(s: seq<T>, p: T -> bool)
    requires forall i :: 0 <= i < |s| ==> p(s[i])
    ensures Keep(s, p) == s
  {
    if s != [] {
      KeepAll(s[1..], p);
      assert [s[0]] + s[1..] == s;
    }
  }

  /** Filters by predicates that agree everywhere agree. */
  lemma {:induction false} KeepSamePredicate<T(!new)>(s: seq<T>, p: T -> bool, q: T -> bool)
    requires forall x :: p(x) == q(x)
    ensures Keep(s, p) == Keep(s, q)
  {
    if s != [] {
      KeepSamePredicate(s[1..], p, q);
    }
  }

  /** Filtering a concatenation is concatenating the filtered parts. */
  lemma {:induction false} KeepConcat<T(!new)>(a: seq<T>, b: seq<T>, p: T -> bool)
    ensures Keep(a + b, p) == Keep(a, p) + Keep(b, p)
  {
    if a != [] {
      var x := a[0];
      assert (a + b)[0] == x && (a + b)[1..] == a[1..] + b;
      KeepConcat(a[1..], b, p);
      if p(x) {
        assert [x] + (Keep(a[1..], p) + Keep(b, p)) == ([x] + Keep(a[1..], p)) + Keep(b, p);
      }
    } else {
      assert a + b == b;
    }
  }

  /** `s.slice(-n)`: the last `n` elements; JavaScript reads `-0` as index 0, so `n == 0`
      keeps everything. */
  function SliceFromEnd<T>(s: seq<T>, n: nat): (r: seq<T>)
    ensures n == 0 || |s| <= n ==> r == s
    ensures n > 0 ==> |r| == MinInt(|s|, n) && r == s[|s| - |r|..]
  {
    if n == 0 || |s| <= n then s else s[|s| - n..]
  }

  /** `[...s, x].slice(-n)`: append, then drop the oldest elements beyond `n`. */
  function AppendBounded<T>(s: seq<T>, x: T, n: nat): (r: seq<T>)
    ensures |r| > 0 && r[|r| - 1] == x
    ensures n > 0 ==> |r| == MinInt(|s| + 1, n)
    ensures n > 0 ==> r == (s + [x])[|s| + 1 - |r|..]
  {
    SliceFromEnd(s + [x], n)
  }

  /** Appending `xs` one at a time with AppendBounded. */
  function AppendAllBounded<T>(s: seq<T>, xs: seq<T>, n: nat): seq<T>
    decreases |xs|
  {
    if xs == [] then s else AppendAllBounded(AppendBounded(s, xs[0], n), xs[1..], n)
  }

  /** Truncating after every append keeps the same elements as appending everything and
      truncating once: the buffer is a FIFO window over the most recent `n` elements. */
  lemma {:induction false} AppendBoundedIsWindow<T>(s: seq<T>, x: T, n: nat)
    requires n > 0
    ensures AppendBounded(SliceFromEnd(s, n), x, n) == SliceFromEnd(s + [x], n)
  {
    if |s| < n {
      assert SliceFromEnd(s, n) == s;
    } else {
      var k := |s| - n;
      var t := s[k..];
      assert SliceFromEnd(s, n) == t;
      assert (t + [x])[1..] == t[1..] + [x];
      assert t[1..] == s[k + 1..];
      assert (s + [x])[k + 1..] == s[k + 1..] + [x];
    }
  }

  lemma ConcatAssociative<T>(a: seq<T>, b: seq<T>, c: seq<T>)
    ensures a + (b + c) == (a + b) + c
  {
  }

  lemma ShiftHead<T>(s: seq<T>, xs: seq<T>)
    requires xs != []
    ensures (s + [xs[0]]) + xs[1..] == s + xs
  {
    assert xs == [xs[0]] + xs[1..];
  }

  lemma {:induction false} AppendAllBoundedIsWindow<T>(s: seq<T>, xs: seq<T>, n: nat)
    requires n > 0
    ensures AppendAllBounded(SliceFromEnd(s, n), xs, n) == SliceFromEnd(s + xs, n)
    decreases |xs|
  {
    if xs != [] {
      var s' := s + [xs[0]];
      AppendBoundedIsWindow(s, xs[0], n);
      AppendAllBoundedIsWindow(s', xs[1..], n);
      ShiftHead(s, xs);
    }
  }
}
