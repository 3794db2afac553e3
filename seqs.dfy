/**
 * `Array.prototype.filter` and the facts about it that every list screen
 * of the storefront relies on: the result is the subsequence of the input
 * whose elements satisfy the predicate, in their original order.
 */
module Seqs {

  /** `s.filter(p)`. */
  function Filter<T>(s: seq<T>, p: T -> bool): (r: seq<T>)
    ensures |r| <= |s|
  {
    if s == [] then [] else (if p(s[0]) then [s[0]] else []) + Filter(s[1..], p)
  }

  /** `a` is `b` with some elements deleted (order kept). */
  predicate IsSubsequence<T(==)>(a: seq<T>, b: seq<T>)
    decreases |b|
  {
    if b == [] then a == []
    else (a != [] && a[0] == b[0] && IsSubsequence(a[1..], b[1..])) || IsSubsequence(a, b[1..])
  }

  lemma {:induction false} FilterIsSubsequence<T>(s: seq<T>, p: T -> bool)
    ensures IsSubsequence(Filter(s, p), s)
  {
    if s != [] {
      FilterIsSubsequence(s[1..], p);
      var f := Filter(s, p);
      if p(s[0]) {
        assert f == [s[0]] + Filter(s[1..], p);
        assert f != [] && f[0] == s[0] && f[1..] == Filter(s[1..], p);
      } else {
        assert f == Filter(s[1..], p);
      }
    }
  }

  /** An element is kept exactly when it is in the input and satisfies `p`. */
  lemma {:induction false} FilterMember<T>(s: seq<T>, p: T -> bool, x: T)
    ensures x in Filter(s, p) <==> x in s && p(x)
  {
    if s != [] {
      FilterMember(s[1..], p, x);
      assert x in s <==> x == s[0] || x in s[1..];
    }
  }

  /** When every element satisfies `p`, filtering returns the input itself. */
  lemma {:induction false} FilterAll<T>(s: seq<T>, p: T -> bool)
    requires forall i :: 0 <= i < |s| ==> p(s[i])
    ensures Filter(s, p) == s
  {
    if s != [] {
      FilterAll(s[1..], p);
    }
  }

  /** When no element satisfies `p`, filtering returns nothing. */
  lemma {:induction false} FilterNone<T>(s: seq<T>, p: T -> bool)
    requires forall i :: 0 <= i < |s| ==> !p(s[i])
    ensures Filter(s, p) == []
  {
    if s != [] {
      FilterNone(s[1..], p);
    }
  }

  /** Two predicates that agree on the input give the same filter. */
  lemma {:induction false} FilterExt<T>(s: seq<T>, p: T -> bool, q: T -> bool)
    requires forall i :: 0 <= i < |s| ==> p(s[i]) == q(s[i])
    ensures Filter(s, p) == Filter(s, q)
  {
    if s != [] {
      FilterExt(s[1..], p, q);
    }
  }

  /** Three successive filters are one filter on a test that is their conjunction. */
  lemma {:induction false} FilterFilter3<T>(s: seq<T>, p: T -> bool, q: T -> bool, r: T -> bool, pqr: T -> bool)
    requires forall x :: pqr(x) == (p(x) && q(x) && r(x))
    ensures Filter(Filter(Filter(s, p), q), r) == Filter(s, pqr)
  {
    if s != [] {
      FilterFilter3(s[1..], p, q, r, pqr);
      var f := Filter(s, p);
      if p(s[0]) {
        assert f == [s[0]] + Filter(s[1..], p);
        assert f[0] == s[0] && f[1..] == Filter(s[1..], p);
        var g := Filter(f, q);
        if q(s[0]) {
          assert g == [s[0]] + Filter(Filter(s[1..], p), q);
          assert g[0] == s[0] && g[1..] == Filter(Filter(s[1..], p), q);
        } else {
          assert g == Filter(Filter(s[1..], p), q);
        }
      } else {
        assert f == Filter(s[1..], p);
      }
    }
  }

  /** A test and its negation split the input between them. */
  lemma {:induction false} FilterPartition<T>(s: seq<T>, p: T -> bool, notP: T -> bool)
    requires forall x :: notP(x) == !p(x)
    ensures |Filter(s, p)| + |Filter(s, notP)| == |s|
  {
    if s != [] {
      FilterPartition(s[1..], p, notP);
    }
  }

  /** Counts of two tests that never both hold add up to the count of their disjunction. */
  lemma {:induction false} FilterDisjoint<T>(s: seq<T>, p: T -> bool, q: T -> bool, pOrQ: T -> bool)
    requires forall i :: 0 <= i < |s| ==> !(p(s[i]) && q(s[i]))
    requires forall x :: pOrQ(x) == (p(x) || q(x))
    ensures |Filter(s, p)| + |Filter(s, q)| == |Filter(s, pOrQ)|
  {
    if s != [] {
      FilterDisjoint(s[1..], p, q, pOrQ);
    }
  }

  /** When exactly one element satisfies `p`, the filter is that element alone. */
  lemma {:induction false} FilterSingle<T>(s: seq<T>, p: T -> bool, i: nat)
    requires i < |s| && p(s[i])
    requires forall j :: 0 <= j < |s| && j != i ==> !p(s[j])
    ensures Filter(s, p) == [s[i]]
  {
    if i == 0 {
      FilterNone(s[1..], p);
    } else {
      FilterSingle(s[1..], p, i - 1);
    }
  }

  /** Two elements that satisfy `p` both survive, so the filter has at least two. */
  lemma {:induction false} FilterTwo<T>(s: seq<T>, p: T -> bool, i: nat, j: nat)
    requires i < j < |s| && p(s[i]) && p(s[j])
    ensures |Filter(s, p)| >= 2
  {
    if i == 0 {
      FilterMember(s[1..], p, s[j]);
      assert s[1..][j - 1] == s[j];
    } else {
      FilterTwo(s[1..], p, i - 1, j - 1);
    }
  }

  /** The number kept from a concatenation is the sum of the numbers kept from its parts. */
  lemma {:induction false} FilterLengthAppend<T>(a: seq<T>, b: seq<T>, p: T -> bool)
    ensures |Filter(a + b, p)| == |Filter(a, p)| + |Filter(b, p)|
  {
    if a == [] {
      assert a + b == b;
    } else {
      assert (a + b)[0] == a[0];
      assert (a + b)[1..] == a[1..] + b;
      FilterLengthAppend(a[1..], b, p);
    }
  }

  /** The head of a sequence sits somewhere in any rearrangement of it, and the rest of the
      two sequences are again rearrangements of each other. */
  lemma PermutationHead<T>(a: seq<T>, b: seq<T>) returns (j: nat)
    requires a != [] && multiset(a) == multiset(b)
    ensures j < |b| && b[j] == a[0]
    ensures multiset(a[1..]) == multiset(b[..j] + b[j + 1..])
  {
    assert a[0] in multiset(b);
    j :| 0 <= j < |b| && b[j] == a[0];
    assert a == [a[0]] + a[1..];
    assert multiset(a[1..]) == multiset(a) - multiset{a[0]};
    assert b == b[..j] + [b[j]] + b[j + 1..];
    assert multiset(b) == multiset(b[..j]) + multiset{b[j]} + multiset(b[j + 1..]);
    assert multiset(b[..j] + b[j + 1..]) == multiset(b[..j]) + multiset(b[j + 1..]);
  }

  /** Taking the element at `j` out of a sequence drops it from the number kept exactly when
      it passes the test. */
  lemma FilterLengthRemove<T>(b: seq<T>, j: nat, p: T -> bool)
    requires j < |b|
    ensures |Filter(b, p)| == |Filter(b[..j] + b[j + 1..], p)| + (if p(b[j]) then 1 else 0)
  {
    assert b == b[..j] + ([b[j]] + b[j + 1..]);
    FilterLengthAppend(b[..j], [b[j]] + b[j + 1..], p);
    FilterLengthAppend([b[j]], b[j + 1..], p);
    FilterLengthAppend(b[..j], b[j + 1..], p);
    assert ([b[j]] + b[j + 1..])[1..] == b[j + 1..];
  }

  /** How many elements pass a test does not depend on their order. */
  lemma {:induction false} FilterLengthPermutation<T>(a: seq<T>, b: seq<T>, p: T -> bool)
    requires multiset(a) == multiset(b)
    ensures |Filter(a, p)| == |Filter(b, p)|
    decreases |a|
  {
    if a == [] {
      assert |multiset(b)| == 0;
    } else {
      var j := PermutationHead(a, b);
      FilterLengthPermutation(a[1..], b[..j] + b[j + 1..], p);
      FilterLengthRemove(b, j, p);
    }
  }
}
