/** Order-preserving subsequences and `Array.prototype.filter`, which the
    screens use for every list they narrow down. */
module Seqs {

  /** `a` is obtained from `b` by deleting elements, keeping the order. */
  predicate IsSubsequence<T(==)>(a: seq<T>, b: seq<T>)
    decreases |b|
  {
    if a == [] then true
    else if b == [] then false
    else if a[0] == b[0] then IsSubsequence(a[1..], b[1..])
    else IsSubsequence(a, b[1..])
  }

  /** A subsequence is never longer and holds only elements of the original. */
  lemma {:induction false} SubsequenceBounds<T>(a: seq<T>, b: seq<T>)
    requires IsSubsequence(a, b)
    ensures |a| <= |b|
    ensures forall x :: x in a ==> x in b
    decreases |b|
  {
    if a != [] {
      if a[0] == b[0] {
        SubsequenceBounds(a[1..], b[1..]);
        forall x | x in a ensures x in b {
          if x != a[0] { assert x in a[1..]; }
        }
      } else {
        SubsequenceBounds(a, b[1..]);
      }
    }
  }

  /** Deleting the first element of the original still leaves room for
      every subsequence of the rest. */
  lemma {:induction false} SubsequenceDropHead<T>(a: seq<T>, b: seq<T>)
    requires |b| > 0 && IsSubsequence(a, b[1..])
    ensures IsSubsequence(a, b)
    decreases |b|, |a|
  {
    if a != [] && a[0] == b[0] {
      SubsequenceDropFirst(a, b[1..]);
    }
  }

  /** Deleting the first element of a subsequence keeps it a subsequence. */
  lemma {:induction false} SubsequenceDropFirst<T>(a: seq<T>, c: seq<T>)
    requires a != [] && IsSubsequence(a, c)
    ensures IsSubsequence(a[1..], c)
    decreases |c|, |a|
  {
    if a[0] == c[0] {
      if a[1..] != [] {
        SubsequenceDropHead(a[1..], c);
      }
    } else {
      SubsequenceDropFirst(a, c[1..]);
      if a[1..] != [] {
        SubsequenceDropHead(a[1..], c);
      }
    }
  }

  /** `s.filter(p)`: the entries of `s` that satisfy `p`, in their order. */
  function Filter<T>(s: seq<T>, p: T -> bool): seq<T>
  {
    if s == [] then []
    else if p(s[0]) then [s[0]] + Filter(s[1..], p)
    else Filter(s[1..], p)
  }

  /** `s.filter(p)` keeps the order of `s` and exactly the entries that
      satisfy `p`. */
  lemma {:induction false} FilterMembers<T(!new)>(s: seq<T>, p: T -> bool)
    ensures IsSubsequence(Filter(s, p), s)
    ensures forall x :: x in Filter(s, p) <==> x in s && p(x)
    decreases |s|
  {
    if s != [] {
      var rest := Filter(s[1..], p);
      FilterMembers(s[1..], p);
      assert s == [s[0]] + s[1..];
      if p(s[0]) {
        assert ([s[0]] + rest)[1..] == rest;
      } else {
        SubsequenceDropHead(rest, s);
      }
    }
  }

  /** `s.filter(p)` keeps every copy of an entry that satisfies `p` and no
      copy of one that does not. */
  lemma {:induction false} FilterMultiset<T(!new)>(s: seq<T>, p: T -> bool)
    ensures forall x :: multiset(Filter(s, p))[x] == if p(x) then multiset(s)[x] else 0
    decreases |s|
  {
    if s != [] {
      FilterMultiset(s[1..], p);
      assert s == [s[0]] + s[1..];
    }
  }

  /** Filtering a concatenation filters each part. */
  lemma {:induction false} FilterAppend<T(!new)>(a: seq<T>, b: seq<T>, p: T -> bool)
    ensures Filter(a + b, p) == Filter(a, p) + Filter(b, p)
    decreases |a|
  {
    if a == [] {
      assert a + b == b;
    } else {
      FilterAppend(a[1..], b, p);
      var ab := a + b;
      assert ab[0] == a[0] && ab[1..] == a[1..] + b;
      assert Filter(ab, p) == (if p(a[0]) then [a[0]] else []) + Filter(ab[1..], p);
      assert Filter(a, p) == (if p(a[0]) then [a[0]] else []) + Filter(a[1..], p);
    }
  }

  /** The length of `s.filter(p)` is the number of positions of `s` whose
      entry satisfies `p`. */
  lemma {:induction false} FilterCountsMatches<T(!new)>(s: seq<T>, p: T -> bool, n: nat)
    requires n <= |s|
    ensures |Filter(s[..n], p)| == |Matching(s, p, n)|
    decreases n
  {
    if n == 0 {
      MatchingNone(s, p);
    } else {
      FilterCountsMatches(s, p, n - 1);
      MatchingStep(s, p, n);
      assert s[..n] == s[..n - 1] + [s[n - 1]];
      FilterAppend(s[..n - 1], [s[n - 1]], p);
      assert [s[n - 1]][1..] == [];
    }
  }

  /** The positions below `n` whose entry satisfies `p`. */
  ghost function Matching<T>(s: seq<T>, p: T -> bool, n: nat): set<int>
    requires n <= |s|
  {
    set k | 0 <= k < n && p(s[k])
  }

  lemma MatchingNone<T>(s: seq<T>, p: T -> bool)
    ensures Matching(s, p, 0) == {}
  {
  }

  /** One more position adds itself to the set exactly when its entry
      satisfies `p`. */
  lemma MatchingStep<T>(s: seq<T>, p: T -> bool, n: nat)
    requires 0 < n <= |s|
    ensures |Matching(s, p, n)| == |Matching(s, p, n - 1)| + if p(s[n - 1]) then 1 else 0
  {
    var before := Matching(s, p, n - 1);
    if p(s[n - 1]) {
      assert Matching(s, p, n) == before + {n - 1};
    } else {
      assert Matching(s, p, n) == before;
    }
  }

  /** `s.filter(p)` is `s` itself exactly when every entry satisfies `p`;
      otherwise it is strictly shorter. */
  lemma {:induction false} FilterKeepsAll<T(!new)>(s: seq<T>, p: T -> bool)
    ensures (forall k :: 0 <= k < |s| ==> p(s[k])) ==> Filter(s, p) == s
    ensures |Filter(s, p)| == |s| <==> forall k :: 0 <= k < |s| ==> p(s[k])
    decreases |s|
  {
    if s != [] {
      FilterKeepsAll(s[1..], p);
      FilterMembers(s[1..], p);
      SubsequenceBounds(Filter(s[1..], p), s[1..]);
      assert forall k :: 1 <= k < |s| ==> s[1..][k - 1] == s[k];
    }
  }
}
