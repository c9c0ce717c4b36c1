/** Sequence helpers that mirror JavaScript's Array.prototype.filter and the
    facts about it that every view and store of the dashboard relies on. */
module Seqs {

  /** `s.filter(p)`: the elements of `s` that satisfy `p`, in their original order. */
  function Filter<T(==)>(s: seq<T>, p: T -> bool): (r: seq<T>)
    ensures |r| <= |s|
    ensures forall i :: 0 <= i < |r| ==> r[i] in s && p(r[i])
    ensures forall i :: 0 <= i < |s| && p(s[i]) ==> s[i] in r
    decreases |s|
  {
    if s == [] then []
    else if p(s[0]) then [s[0]] + Filter(s[1..], p)
    else Filter(s[1..], p)
  }

  /** `a` can be obtained from `b` by deleting elements: an order-preserving subsequence. */
  predicate IsSubsequence<T(==)>(a: seq<T>, b: seq<T>)
    decreases |b|
  {
    if a == [] then true
    else if b == [] then false
    else (a[0] == b[0] && IsSubsequence(a[1..], b[1..])) || IsSubsequence(a, b[1..])
  }

  lemma {:induction false} FilterIsSubsequence<T>(s: seq<T>, p: T -> bool)
    ensures IsSubsequence(Filter(s, p), s)
    decreases |s|
  {
    if s != [] {
      FilterIsSubsequence(s[1..], p);
      if p(s[0]) {
        assert Filter(s, p) == [s[0]] + Filter(s[1..], p);
        assert Filter(s, p)[1..] == Filter(s[1..], p);
      }
    }
  }

  lemma {:induction false} IsSubsequenceRefl<T>(s: seq<T>)
    ensures IsSubsequence(s, s)
    decreases |s|
  {
    if s != [] {
      IsSubsequenceRefl(s[1..]);
    }
  }

  lemma {:induction false} IsSubsequenceTrans<T>(a: seq<T>, b: seq<T>, c: seq<T>)
    requires IsSubsequence(a, b) && IsSubsequence(b, c)
    ensures IsSubsequence(a, c)
    decreases |c|
  {
    if a != [] {
      assert b != [] && c != [];
      if b[0] == c[0] && IsSubsequence(b[1..], c[1..]) {
        if a[0] == b[0] && IsSubsequence(a[1..], b[1..]) {
          IsSubsequenceTrans(a[1..], b[1..], c[1..]);
        } else {
          IsSubsequenceTrans(a, b[1..], c[1..]);
        }
      } else {
        IsSubsequenceTrans(a, b, c[1..]);
      }
    }
  }

  /** Filtering distributes over concatenation. */
  lemma {:induction false} FilterAppend<T>(a: seq<T>, b: seq<T>, p: T -> bool)
    ensures Filter(a + b, p) == Filter(a, p) + Filter(b, p)
    decreases |a|
  {
    if a == [] {
      assert a + b == b;
    } else {
      assert (a + b)[0] == a[0];
      assert (a + b)[1..] == a[1..] + b;
      FilterAppend(a[1..], b, p);
    }
  }

  /** Filtering a sequence with a given head: the head if it passes, then the
      filtered tail. */
  lemma FilterCons<T>(h: T, t: seq<T>, p: T -> bool)
    ensures Filter([h] + t, p) == (if p(h) then [h] else []) + Filter(t, p)
  {
    assert ([h] + t)[1..] == t;
  }

  /** Filtering the prefix one element longer adds that element exactly when it passes. */
  lemma FilterSnoc<T>(s: seq<T>, i: nat, p: T -> bool)
    requires i < |s|
    ensures Filter(s[..i + 1], p) == Filter(s[..i], p) + (if p(s[i]) then [s[i]] else [])
  {
    assert s[..i + 1] == s[..i] + [s[i]];
    FilterAppend(s[..i], [s[i]], p);
    assert [s[i]][1..] == [];
  }

  /** Filtering keeps every copy of a passing element and no copy of a failing one. */
  lemma {:induction false} FilterMultiset<T>(s: seq<T>, p: T -> bool)
    ensures forall x :: multiset(Filter(s, p))[x] == if p(x) then multiset(s)[x] else 0
    decreases |s|
  {
    if s != [] {
      FilterMultiset(s[1..], p);
      FilterCons(s[0], s[1..], p);
      assert [s[0]] + s[1..] == s;
      assert multiset(s) == multiset([s[0]]) + multiset(s[1..]);
    }
  }

  /** A predicate that holds everywhere keeps the whole sequence. */
  lemma {:induction false} FilterKeepsAll<T>(s: seq<T>, p: T -> bool)
    requires forall i :: 0 <= i < |s| ==> p(s[i])
    ensures Filter(s, p) == s
    decreases |s|
  {
    if s != [] {
      FilterKeepsAll(s[1..], p);
    }
  }

  /** Two predicates that agree on the elements of `s` filter it alike. */
  lemma {:induction false} FilterExtensional<T>(s: seq<T>, p: T -> bool, q: T -> bool)
    requires forall i :: 0 <= i < |s| ==> p(s[i]) == q(s[i])
    ensures Filter(s, p) == Filter(s, q)
    decreases |s|
  {
    if s != [] {
      FilterExtensional(s[1..], p, q);
    }
  }

  /** Two filters in a row are one filter by the conjunction. */
  lemma {:induction false} FilterFilter<T>(s: seq<T>, p: T -> bool, q: T -> bool)
    ensures Filter(Filter(s, p), q) == Filter(s, x => p(x) && q(x))
    decreases |s|
  {
    if s != [] {
      FilterFilter(s[1..], p, q);
      if p(s[0]) {
        assert Filter(s, p) == [s[0]] + Filter(s[1..], p);
        assert Filter(s, p)[1..] == Filter(s[1..], p);
      }
    }
  }

  /** Four filters in a row are one filter by the conjunction of the four. */
  lemma FilterFilter4<T>(s: seq<T>, p1: T -> bool, p2: T -> bool, p3: T -> bool, p4: T -> bool, p: T -> bool)
    requires forall i :: 0 <= i < |s| ==> (p(s[i]) <==> p1(s[i]) && p2(s[i]) && p3(s[i]) && p4(s[i]))
    ensures Filter(Filter(Filter(Filter(s, p1), p2), p3), p4) == Filter(s, p)
  {
    var p12 := x => p1(x) && p2(x);
    var p123 := x => p12(x) && p3(x);
    FilterFilter(s, p1, p2);
    FilterExtensional(s, x => p1(x) && p2(x), p12);
    FilterFilter(s, p12, p3);
    FilterExtensional(s, x => p12(x) && p3(x), p123);
    FilterFilter(s, p123, p4);
    FilterExtensional(s, x => p123(x) && p4(x), p);
  }

  /** `s.filter(p).length`. */
  function Count<T(==)>(s: seq<T>, p: T -> bool): (n: nat)
    ensures n <= |s|
  {
    |Filter(s, p)|
  }

  /** Counting over a prefix one element longer. */
  lemma CountSnoc<T>(s: seq<T>, i: nat, p: T -> bool)
    requires i < |s|
    ensures Count(s[..i + 1], p) == Count(s[..i], p) + (if p(s[i]) then 1 else 0)
  {
    FilterSnoc(s, i, p);
  }

  /** The number of elements satisfying `p` is zero exactly when none does. */
  lemma {:induction false} CountZeroIff<T>(s: seq<T>, p: T -> bool)
    ensures Count(s, p) == 0 <==> forall i :: 0 <= i < |s| ==> !p(s[i])
  {
    if Count(s, p) == 0 {
      forall i | 0 <= i < |s| ensures !p(s[i]) {
      }
    } else {
      var x := Filter(s, p)[0];
      assert x in Filter(s, p);
      var i :| 0 <= i < |s| && s[i] == x;
      assert p(s[i]);
    }
  }

  /** Two sequences of the same length, where `p` at each position of `t`
      implies `q` at that position of `s`: no more elements of `t` satisfy `p`. */
  lemma {:induction false} CountMonotone<T>(s: seq<T>, t: seq<T>, p: T -> bool, q: T -> bool)
    requires |s| == |t|
    requires forall i :: 0 <= i < |t| ==> p(t[i]) ==> q(s[i])
    ensures Count(t, p) <= Count(s, q)
    decreases |s|
  {
    if s != [] {
      CountMonotone(s[1..], t[1..], p, q);
    }
  }

  /** Counts agree when the tests agree position by position. */
  lemma CountPointwise<T>(s: seq<T>, t: seq<T>, p: T -> bool, q: T -> bool)
    requires |s| == |t|
    requires forall i :: 0 <= i < |t| ==> p(t[i]) == q(s[i])
    ensures Count(t, p) == Count(s, q)
  {
    CountMonotone(s, t, p, q);
    CountMonotone(t, s, q, p);
  }

  /** Every element either passes or fails: the two filters split the length. */
  lemma {:induction false} CountComplement<T>(s: seq<T>, p: T -> bool, q: T -> bool)
    requires forall i :: 0 <= i < |s| ==> q(s[i]) == !p(s[i])
    ensures Count(s, p) + Count(s, q) == |s|
    decreases |s|
  {
    if s != [] {
      CountComplement(s[1..], p, q);
    }
  }
}
