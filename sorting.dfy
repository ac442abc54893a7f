/** A stable insertion sort by a caller-given order, the model of Python's
    `list.sort(key=...)` and `sorted(...)` (both stable). `le(a, b)` means
    that `a` may stand before `b`; ties keep their input order. */
module Sorting {

  /** `le` is total and transitive, as every order `sorted` is used with here. */
  ghost predicate TotalPreorder<T(!new)>(le: (T, T) -> bool) {
    && (forall a, b :: le(a, b) || le(b, a))
    && (forall a, b, c :: le(a, b) && le(b, c) ==> le(a, c))
  }

  predicate SortedBy<T>(s: seq<T>, le: (T, T) -> bool) {
    forall i, j :: 0 <= i < j < |s| ==> le(s[i], s[j])
  }

  /** Puts `x` into `t` after every element that may stand before it. */
  function Insert<T>(t: seq<T>, x: T, le: (T, T) -> bool): (r: seq<T>)
    ensures multiset(r) == multiset(t) + multiset{x}
    ensures |r| == |t| + 1
  {
    if t == [] || !le(t[0], x) then [x] + t
    else
      assert t == [t[0]] + t[1..];
      [t[0]] + Insert(t[1..], x, le)
  }

  /** A one-element list is already sorted. */
  lemma SortSingleton<T>(x: T, le: (T, T) -> bool)
    ensures Sort([x], le) == [x]
  {
    assert [x][..0] == [];
  }

  /** Stable sort: each element in turn is inserted after its equals. */
  function Sort<T>(s: seq<T>, le: (T, T) -> bool): (r: seq<T>)
    ensures multiset(r) == multiset(s)
    ensures |r| == |s|
  {
    if s == [] then []
    else
      assert s == s[..|s| - 1] + [s[|s| - 1]];
      Insert(Sort(s[..|s| - 1], le), s[|s| - 1], le)
  }

  lemma {:induction false} InsertSorted<T(!new)>(t: seq<T>, x: T, le: (T, T) -> bool)
    requires TotalPreorder(le)
    requires SortedBy(t, le)
    ensures SortedBy(Insert(t, x, le), le)
  {
    if t == [] || !le(t[0], x) {
    } else {
      var rest := Insert(t[1..], x, le);
      InsertSorted(t[1..], x, le);
      forall k | 0 <= k < |rest| ensures le(t[0], rest[k]) {
        assert rest[k] in multiset(rest);
        assert rest[k] in multiset(t[1..]) + multiset{x};
        if rest[k] != x {
          var m :| 0 <= m < |t[1..]| && t[1..][m] == rest[k];
          assert t[m + 1] == rest[k];
        }
      }
    }
  }

  /** The result of `Sort` is ordered by `le`; with the multiset equality in
      its contract, it is a sorted permutation of the input. */
  lemma {:induction false} SortSorted<T(!new)>(s: seq<T>, le: (T, T) -> bool)
    requires TotalPreorder(le)
    ensures SortedBy(Sort(s, le), le)
  {
    if s != [] {
      SortSorted(s[..|s| - 1], le);
      InsertSorted(Sort(s[..|s| - 1], le), s[|s| - 1], le);
    }
  }

  /** No two distinct elements of `a` tie under `le`. */
  ghost predicate NoTies<T(!new)>(a: seq<T>, le: (T, T) -> bool) {
    forall x, y :: x in a && y in a && le(x, y) && le(y, x) ==> x == y
  }

  /** Two sorted sequences with the same elements start with the same one
      when no two distinct elements tie. */
  lemma HeadsEqual<T(!new)>(a: seq<T>, b: seq<T>, le: (T, T) -> bool)
    requires a != [] && SortedBy(a, le) && SortedBy(b, le)
    requires multiset(a) == multiset(b)
    requires NoTies(a, le)
    ensures b != [] && a[0] == b[0]
  {
    assert a[0] in multiset(b);
    var k :| 0 <= k < |b| && b[k] == a[0];
    assert b[0] in multiset(a);
    var m :| 0 <= m < |a| && a[m] == b[0];
    if k > 0 { assert le(b[0], a[0]); }
    if m > 0 { assert le(a[0], b[0]); }
  }

  lemma TailSorted<T>(a: seq<T>, le: (T, T) -> bool)
    requires a != [] && SortedBy(a, le)
    ensures SortedBy(a[1..], le)
  {
    forall i, j | 0 <= i < j < |a[1..]| ensures le(a[1..][i], a[1..][j]) {
      assert a[1..][i] == a[i + 1] && a[1..][j] == a[j + 1];
    }
  }

  lemma TailNoTies<T(!new)>(a: seq<T>, le: (T, T) -> bool)
    requires a != [] && NoTies(a, le)
    ensures NoTies(a[1..], le)
  {
    forall x, y | x in a[1..] && y in a[1..] && le(x, y) && le(y, x) ensures x == y {
      assert x in a && y in a;
    }
  }

  lemma TailMultiset<T>(a: seq<T>, b: seq<T>)
    requires a != [] && b != [] && a[0] == b[0] && multiset(a) == multiset(b)
    ensures multiset(a[1..]) == multiset(b[1..])
  {
    assert a == [a[0]] + a[1..] && b == [b[0]] + b[1..];
    assert multiset(a[1..]) == multiset(a) - multiset{a[0]};
    assert multiset(b[1..]) == multiset(b) - multiset{b[0]};
  }

  /** Two sequences sorted by the same order, with the same elements, are
      equal when no two distinct elements of them tie. */
  lemma {:induction false} SortedUnique<T(!new)>(a: seq<T>, b: seq<T>, le: (T, T) -> bool)
    requires SortedBy(a, le) && SortedBy(b, le)
    requires multiset(a) == multiset(b)
    requires NoTies(a, le)
    ensures a == b
  {
    if a == [] {
      assert |b| == |multiset(b)| == 0;
    } else {
      HeadsEqual(a, b, le);
      TailSorted(a, le);
      TailSorted(b, le);
      TailNoTies(a, le);
      TailMultiset(a, b);
      SortedUnique(a[1..], b[1..], le);
      assert a == [a[0]] + a[1..] && b == [b[0]] + b[1..];
    }
  }
}
