/** Order-preserving filtering of a list, and the subsequence relation it produces. */
module Sequences {

  /** The elements of `s` that `keep` accepts, in their original order: the list a
      `for item in s: if keep(item): out.append(item)` loop builds. */
  function Filter<T>(s: seq<T>, keep: T -> bool): (r: seq<T>)
    ensures |r| <= |s|
  {
    if s == [] then [] else Filter(s[..|s| - 1], keep) + (if keep(s[|s| - 1]) then [s[|s| - 1]] else [])
  }

  /** `a` can be obtained from `b` by deleting elements, without reordering the rest. */
  predicate IsSubsequence<T(==)>(a: seq<T>, b: seq<T>)
  {
    a == [] ||
    (b != [] &&
     ((a[|a| - 1] == b[|b| - 1] && IsSubsequence(a[..|a| - 1], b[..|b| - 1])) ||
      IsSubsequence(a, b[..|b| - 1])))
  }

  lemma {:induction false} SubsequenceReflexive<T>(a: seq<T>)
    ensures IsSubsequence(a, a)
  {
    if a != [] {
      SubsequenceReflexive(a[..|a| - 1]);
    }
  }

  lemma SubsequenceExtend<T>(a: seq<T>, b: seq<T>, x: T)
    requires IsSubsequence(a, b)
    ensures IsSubsequence(a, b + [x])
  {
    assert (b + [x])[..|b|] == b;
  }

  lemma {:induction false} SubsequenceAppendRight<T>(a: seq<T>, b: seq<T>, d: seq<T>)
    requires IsSubsequence(a, b)
    ensures IsSubsequence(a, b + d)
    decreases |d|
  {
    if d == [] {
      assert b + d == b;
    } else {
      var d' := d[..|d| - 1];
      SubsequenceAppendRight(a, b, d');
      SubsequenceExtend(a, b + d', d[|d| - 1]);
      assert b + d' + [d[|d| - 1]] == b + d;
    }
  }

  /** Subsequences can be glued: deleting from both halves of a concatenation. */
  lemma {:induction false} SubsequenceConcat<T>(a: seq<T>, b: seq<T>, c: seq<T>, d: seq<T>)
    requires IsSubsequence(a, b) && IsSubsequence(c, d)
    ensures IsSubsequence(a + c, b + d)
    decreases |c| + |d|
  {
    if c == [] {
      assert a + c == a;
      SubsequenceAppendRight(a, b, d);
    } else {
      var c', d' := c[..|c| - 1], d[..|d| - 1];
      assert (a + c)[..|a + c| - 1] == a + c';
      assert (b + d)[..|b + d| - 1] == b + d';
      if c[|c| - 1] == d[|d| - 1] && IsSubsequence(c', d') {
        SubsequenceConcat(a, b, c', d');
      } else {
        SubsequenceConcat(a, b, c, d');
      }
    }
  }

  /** Filtering only deletes elements: the result is an order-preserving subsequence. */
  lemma {:induction false} FilterIsSubsequence<T>(s: seq<T>, keep: T -> bool)
    ensures IsSubsequence(Filter(s, keep), s)
  {
    if s != [] {
      var s', x := s[..|s| - 1], s[|s| - 1];
      assert s == s' + [x];
      FilterIsSubsequence(s', keep);
      if keep(x) {
        assert Filter(s, keep) == Filter(s', keep) + [x];
        SubsequenceReflexive([x]);
        SubsequenceConcat(Filter(s', keep), s', [x], [x]);
      } else {
        assert Filter(s, keep) == Filter(s', keep);
        SubsequenceAppendRight(Filter(s', keep), s', [x]);
      }
    }
  }

  /** An element is in the filtered list exactly when it is in the input and accepted. */
  lemma {:induction false} FilterMembership<T>(s: seq<T>, keep: T -> bool, x: T)
    ensures x in Filter(s, keep) <==> x in s && keep(x)
  {
    if s != [] {
      var s' := s[..|s| - 1];
      FilterMembership(s', keep, x);
      assert s == s' + [s[|s| - 1]];
    }
  }

  /** A weaker acceptance test keeps at least the same elements, in the same order. */
  lemma {:induction false} FilterMonotone<T>(s: seq<T>, p: T -> bool, q: T -> bool)
    requires forall i :: 0 <= i < |s| && p(s[i]) ==> q(s[i])
    ensures IsSubsequence(Filter(s, p), Filter(s, q))
  {
    if s == [] {
    } else {
      var s', x := s[..|s| - 1], s[|s| - 1];
      FilterMonotone(s', p, q);
      if p(x) {
        SubsequenceReflexive([x]);
        SubsequenceConcat(Filter(s', p), Filter(s', q), [x], [x]);
      } else if q(x) {
        assert Filter(s, p) == Filter(s', p);
        assert Filter(s, q) == Filter(s', q) + [x];
        SubsequenceAppendRight(Filter(s', p), Filter(s', q), [x]);
      } else {
        assert Filter(s, p) == Filter(s', p);
        assert Filter(s, q) == Filter(s', q);
      }
    }
  }

  lemma AppendToEmpty<T>(a: seq<T>)
    ensures [] + a == a
  {
  }

  lemma AppendAssociative<T>(p: seq<T>, a: seq<T>, b: seq<T>)
    ensures (p + a) + b == p + (a + b)
  {
  }

  /** A concatenation starts with its first part. */
  lemma StartsWith<T>(a: seq<T>, b: seq<T>, c: seq<T>)
    ensures |a + b + c| >= |a| && (a + b + c)[..|a|] == a
  {
    assert (a + b + c)[..|a|] == a;
  }

  /** Python's slice `s[:k]`: a negative `k` counts from the end, and the bounds are clipped. */
  function SliceTo<T>(s: seq<T>, k: int): (r: seq<T>)
    ensures |r| == (if k >= 0 then (if k < |s| then k else |s|) else (if |s| + k > 0 then |s| + k else 0))
    ensures r == s[..|r|]
  {
    if k >= 0 then s[..if k < |s| then k else |s|]
    else s[..if |s| + k > 0 then |s| + k else 0]
  }
}
