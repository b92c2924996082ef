/** The array operations the pages rely on: `filter`, `find` and `filter(...).length`. */
module Seqs {

  /** `r` keeps some elements of `s`, in their original order (an order-preserving sublist). */
  predicate IsSubseq<T(==)>(r: seq<T>, s: seq<T>)
    decreases |s|
  {
    if r == [] then true
    else if s == [] then false
    else if r[0] == s[0] then IsSubseq(r[1..], s[1..])
    else IsSubseq(r, s[1..])
  }

  /** `s.filter(p)`: the elements of `s` that satisfy `p`, in order. */
  function Filter<T>(p: T -> bool, s: seq<T>): (r: seq<T>)
    ensures |r| <= |s|
    ensures forall i :: 0 <= i < |r| ==> p(r[i])
  {
    if s == [] then []
    else if p(s[0]) then [s[0]] + Filter(p, s[1..])
    else Filter(p, s[1..])
  }

  /** Index of the first element satisfying `p`, or `|s|` when there is none:
      the search that `s.find(p)` performs. */
  function FirstIndex<T>(p: T -> bool, s: seq<T>): (k: nat)
    ensures k <= |s|
    ensures forall j :: 0 <= j < k ==> !p(s[j])
    ensures k < |s| ==> p(s[k])
  {
    if s == [] then 0
    else if p(s[0]) then 0
    else 1 + FirstIndex(p, s[1..])
  }

  /** An element is kept by `Filter` exactly when it is in the input and satisfies `p`. */
  lemma {:induction false} FilterMembership<T>(p: T -> bool, s: seq<T>, x: T)
    ensures x in Filter(p, s) <==> x in s && p(x)
    decreases |s|
  {
    if s != [] {
      FilterMembership(p, s[1..], x);
      assert s == [s[0]] + s[1..];
    }
  }

  /** `Filter` keeps every copy of a satisfying element and no copy of any other. */
  lemma {:induction false} FilterMultiplicity<T>(p: T -> bool, s: seq<T>, x: T)
    ensures multiset(Filter(p, s))[x] == if p(x) then multiset(s)[x] else 0
    decreases |s|
  {
    if s != [] {
      FilterMultiplicity(p, s[1..], x);
      assert s == [s[0]] + s[1..];
      assert multiset(s) == multiset([s[0]]) + multiset(s[1..]);
    }
  }

  /** `Filter` preserves order: its result is a sublist of its input. */
  lemma {:induction false} FilterIsSubseq<T>(p: T -> bool, s: seq<T>)
    ensures IsSubseq(Filter(p, s), s)
    decreases |s|
  {
    if s != [] {
      FilterIsSubseq(p, s[1..]);
      if !p(s[0]) {
        SubseqOfTail(Filter(p, s[1..]), s);
      }
    }
  }

  /** A sublist of the tail is a sublist of the whole sequence. */
  lemma {:induction false} SubseqOfTail<T>(r: seq<T>, s: seq<T>)
    requires s != []
    requires IsSubseq(r, s[1..])
    ensures IsSubseq(r, s)
    decreases 2 * |s|
  {
    if r != [] && r[0] == s[0] {
      // r[1..] is a sublist of s[1..] because r is.
      SubseqDropHead(r, s[1..]);
    }
  }

  /** Dropping the head of a non-empty sublist keeps it a sublist. */
  lemma {:induction false} SubseqDropHead<T>(r: seq<T>, s: seq<T>)
    requires r != []
    requires IsSubseq(r, s)
    ensures IsSubseq(r[1..], s)
    decreases 2 * |s| + 1
  {
    if r[0] != s[0] {
      SubseqDropHead(r, s[1..]);
    }
    SubseqOfTail(r[1..], s);
  }

  /** When every element satisfies `p`, `Filter` returns the input unchanged;
      when none does, it returns the empty list. */
  lemma {:induction false} FilterAllOrNone<T>(p: T -> bool, s: seq<T>)
    ensures (forall i :: 0 <= i < |s| ==> p(s[i])) ==> Filter(p, s) == s
    ensures (forall i :: 0 <= i < |s| ==> !p(s[i])) ==> Filter(p, s) == []
    decreases |s|
  {
    if s != [] {
      FilterAllOrNone(p, s[1..]);
      assert forall i :: 0 <= i < |s[1..]| ==> s[1..][i] == s[i + 1];
    }
  }

  /** `Filter` distributes over concatenation, the order-preservation property in equational form. */
  lemma {:induction false} FilterAppend<T>(p: T -> bool, a: seq<T>, b: seq<T>)
    ensures Filter(p, a + b) == Filter(p, a) + Filter(p, b)
    decreases |a|
  {
    if a != [] {
      FilterAppend(p, a[1..], b);
      assert (a + b)[0] == a[0];
      assert (a + b)[1..] == a[1..] + b;
      if p(a[0]) {
        calc {
          Filter(p, a + b);
          [a[0]] + Filter(p, a[1..] + b);
          [a[0]] + (Filter(p, a[1..]) + Filter(p, b));
          ([a[0]] + Filter(p, a[1..])) + Filter(p, b);
        }
      }
    } else {
      assert a + b == b;
    }
  }

  /** `Filter(p, s).length` equals `|s|` exactly when every element satisfies `p`,
      and is zero exactly when none does. */
  lemma {:induction false} FilterLength<T>(p: T -> bool, s: seq<T>)
    ensures |Filter(p, s)| == |s| <==> forall i :: 0 <= i < |s| ==> p(s[i])
    ensures |Filter(p, s)| == 0 <==> forall i :: 0 <= i < |s| ==> !p(s[i])
    decreases |s|
  {
    if s != [] {
      FilterLength(p, s[1..]);
      assert forall i :: 0 <= i < |s[1..]| ==> s[1..][i] == s[i + 1];
      if !p(s[0]) {
        assert !(forall i :: 0 <= i < |s| ==> p(s[i])) by { assert !p(s[0]); }
      } else {
        assert !(forall i :: 0 <= i < |s| ==> !p(s[i])) by { assert p(s[0]); }
      }
    }
  }

  /** The first element `Filter` keeps is the element `FirstIndex` finds; `Filter`
      keeps nothing exactly when `FirstIndex` finds nothing. */
  lemma {:induction false} FilterHeadIsFirst<T>(p: T -> bool, s: seq<T>)
    ensures Filter(p, s) == [] <==> FirstIndex(p, s) == |s|
    ensures Filter(p, s) != [] ==> Filter(p, s)[0] == s[FirstIndex(p, s)]
    decreases |s|
  {
    if s != [] && !p(s[0]) {
      FilterHeadIsFirst(p, s[1..]);
    }
  }
}
