/** Sequence helpers shared by the models: duplicate-freedom, the distinct
    elements of a list in first-occurrence order (the key order of a Python
    dict or `Counter` filled from the list), and filters. */
module Sequences {

  predicate Distinct<T(==)>(s: seq<T>) {
    forall i, j :: 0 <= i < j < |s| ==> s[i] != s[j]
  }

  /** The distinct elements of `s` in the order they first occur. */
  function Uniq<T(==,!new)>(s: seq<T>): (r: seq<T>)
    ensures Distinct(r)
    ensures forall x :: x in r <==> x in s
    ensures |r| <= |s|
  {
    if s == [] then []
    else
      var u := Uniq(s[..|s| - 1]);
      if s[|s| - 1] in u then u else u + [s[|s| - 1]]
  }

  /** A duplicate-free sequence holds each element at most once. */
  lemma {:induction false} DistinctMultiplicity<T>(s: seq<T>, x: T)
    requires Distinct(s)
    ensures multiset(s)[x] <= 1
  {
    if s != [] {
      var init := s[..|s| - 1];
      DistinctMultiplicity(init, x);
      assert s == init + [s[|s| - 1]];
      if x == s[|s| - 1] {
        assert x !in init;
      }
    }
  }

  /** Two equal entries at different places count twice. */
  lemma RepeatedMultiplicity<T>(s: seq<T>, i: int, j: int)
    requires 0 <= i < j < |s| && s[i] == s[j]
    ensures multiset(s)[s[i]] >= 2
  {
    assert s == s[..j] + s[j..];
    assert s[i] in s[..j];
    assert s[j] in s[j..];
  }

  /** A permutation of a duplicate-free sequence is duplicate-free. */
  lemma PermutationKeepsDistinct<T>(a: seq<T>, b: seq<T>)
    requires Distinct(a) && multiset(a) == multiset(b)
    ensures Distinct(b)
  {
    forall i, j | 0 <= i < j < |b| ensures b[i] != b[j] {
      if b[i] == b[j] {
        RepeatedMultiplicity(b, i, j);
        DistinctMultiplicity(a, b[i]);
      }
    }
  }

  /** Appending one element to the list appends it to `Uniq` unless it is
      already there. */
  lemma UniqSnoc<T(!new)>(s: seq<T>, x: T)
    ensures Uniq(s + [x]) == if x in Uniq(s) then Uniq(s) else Uniq(s) + [x]
  {
    assert (s + [x])[..|s|] == s;
  }

  /** Appending `x` adds one occurrence of `x` and none of anything else. */
  lemma CountSnoc<T>(s: seq<T>, x: T, t: T)
    ensures multiset(s + [x])[t] == multiset(s)[t] + (if x == t then 1 else 0)
  {
  }

  /** A sequence has at most as many distinct elements as entries. */
  lemma {:induction false} SetOfSeqBound<T>(s: seq<T>)
    ensures |set x | x in s| <= |s|
  {
    if s != [] {
      var init := s[..|s| - 1];
      SetOfSeqBound(init);
      assert (set x | x in s) == (set x | x in init) + {s[|s| - 1]} by {
        assert s == init + [s[|s| - 1]];
      }
    }
  }
}
