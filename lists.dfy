/**
 * JavaScript's `Array.prototype.filter` and the "subsequence in the original order" relation
 * that every search filter of the application is stated in.
 */
module Lists {

  /** `s.filter(p)`: the elements satisfying `p`, in their original order. */
  function Filter<T>(s: seq<T>, p: T -> bool): (r: seq<T>)
    ensures |r| <= |s|
    ensures forall k :: 0 <= k < |r| ==> p(r[k])
  {
    if s == [] then []
    else (if p(s[0]) then [s[0]] else []) + Filter(s[1..], p)
  }

  /** `a` can be obtained from `b` by deleting elements, without reordering the rest. */
  predicate IsSubseq<T(==)>(a: seq<T>, b: seq<T>)
    decreases |b|
  {
    if a == [] then true
    else if b == [] then false
    else (a[0] == b[0] && IsSubseq(a[1..], b[1..])) || IsSubseq(a, b[1..])
  }

  /** A filtered list is a subsequence of the list it came from. */
  lemma {:induction false} FilterIsSubseq<T>(s: seq<T>, p: T -> bool)
    ensures IsSubseq(Filter(s, p), s)
  {
    if s != [] {
      FilterIsSubseq(s[1..], p);
      if p(s[0]) {
        assert Filter(s, p) == [s[0]] + Filter(s[1..], p);
        assert Filter(s, p)[1..] == Filter(s[1..], p);
      } else {
        assert Filter(s, p) == Filter(s[1..], p);
      }
    }
  }

  /** An element is kept exactly when it occurs in the input and satisfies the predicate. */
  lemma {:induction false} FilterMembership<T>(s: seq<T>, p: T -> bool, x: T)
    ensures x in Filter(s, p) <==> x in s && p(x)
  {
    if s != [] {
      FilterMembership(s[1..], p, x);
      assert s == [s[0]] + s[1..];
    }
  }

  /** Filtering with a predicate that holds of every element changes nothing. */
  lemma {:induction false} FilterKeepsAll<T>(s: seq<T>, p: T -> bool)
    requires forall k :: 0 <= k < |s| ==> p(s[k])
    ensures Filter(s, p) == s
  {
    if s != [] {
      FilterKeepsAll(s[1..], p);
    }
  }

  /** Filters by predicates that agree on every value are equal. */
  lemma {:induction false} FilterCongruent<T>(s: seq<T>, p: T -> bool, q: T -> bool)
    requires forall x :: p(x) == q(x)
    ensures Filter(s, p) == Filter(s, q)
  {
    if s != [] {
      FilterCongruent(s[1..], p, q);
    }
  }

  /** Two successive filters are one filter by the conjunction of their predicates. */
  lemma {:induction false} FilterFilter<T>(s: seq<T>, p: T -> bool, q: T -> bool, both: T -> bool)
    requires forall x :: both(x) == (p(x) && q(x))
    ensures Filter(Filter(s, p), q) == Filter(s, both)
  {
    if s != [] {
      FilterFilter(s[1..], p, q, both);
      assert both(s[0]) == (p(s[0]) && q(s[0]));
      if p(s[0]) {
        assert Filter(s, p) == [s[0]] + Filter(s[1..], p);
        FilterCons(s[0], Filter(s[1..], p), q);
      } else {
        assert Filter(s, p) == Filter(s[1..], p);
        assert Filter(s, both) == Filter(s[1..], both);
      }
    }
  }

  /** Filtering distributes over concatenation. */
  lemma {:induction false} FilterConcat<T>(a: seq<T>, b: seq<T>, p: T -> bool)
    ensures Filter(a + b, p) == Filter(a, p) + Filter(b, p)
  {
    if a != [] {
      FilterConcat(a[1..], b, p);
      assert (a + b)[1..] == a[1..] + b;
    } else {
      assert a + b == b;
    }
  }

  /** `filter` keeps every copy of an element that passes and no copy of one that fails. */
  lemma {:induction false} FilterMultiset<T>(s: seq<T>, p: T -> bool, y: T)
    ensures multiset(Filter(s, p))[y] == if p(y) then multiset(s)[y] else 0
  {
    if s != [] {
      FilterMultiset(s[1..], p, y);
      assert s == [s[0]] + s[1..];
    }
  }

  /** Filtering a list with a known head. */
  lemma FilterCons<T>(x: T, s: seq<T>, p: T -> bool)
    ensures Filter([x] + s, p) == (if p(x) then [x] else []) + Filter(s, p)
  {
    assert ([x] + s)[1..] == s;
  }

  /** Where `splice(i, 1)` starts on a list of length `n`: a negative index counts from the end. */
  function SpliceStart(n: nat, i: int): (j: nat)
    ensures i >= 0 ==> j == i
    ensures i < 0 ==> j < n || n == 0
  {
    if i >= 0 then i else if n + i < 0 then 0 else n + i
  }

  /**
   * `copy.splice(i, 1)`: the element at the splice start is removed and the later ones move down
   * one place; a start past the end removes nothing.
   */
  function RemoveAt<T>(l: seq<T>, i: int): (r: seq<T>)
    ensures SpliceStart(|l|, i) >= |l| ==> r == l
    ensures var j := SpliceStart(|l|, i);
      j < |l| ==> (|r| == |l| - 1
        && (forall k :: 0 <= k < j ==> r[k] == l[k])
        && (forall k :: j <= k < |r| ==> r[k] == l[k + 1]))
  {
    var j := SpliceStart(|l|, i);
    if j >= |l| then l else l[..j] + l[j + 1..]
  }

  /** Removing at a valid index takes away exactly that one element. */
  lemma RemoveAtMultiset<T>(l: seq<T>, i: int)
    requires 0 <= i < |l|
    ensures multiset(RemoveAt(l, i)) == multiset(l) - multiset{l[i]}
  {
    assert l == l[..i] + [l[i]] + l[i + 1..];
    assert RemoveAt(l, i) == l[..i] + l[i + 1..];
  }

  /** Removing the element just appended gives back the list. */
  lemma RemoveAfterAppend<T>(l: seq<T>, x: T)
    ensures RemoveAt(l + [x], |l|) == l
  {
    assert (l + [x])[..|l|] == l;
  }
}
