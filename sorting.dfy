/**
 * Python's built-in `sorted` / `list.sort`, modelled by their result: a
 * stable insertion sort under a key comparison `le`.  The lemmas say that the
 * result is ordered, is a permutation of the input, and is the only ordered
 * permutation, so that sorting makes arrival order irrelevant.
 */
module Sorting {

  ghost predicate TotalPreorder<T(!new)>(le: (T, T) -> bool)
  {
    && (forall x, y :: le(x, y) || le(y, x))
    && (forall x, y, z :: le(x, y) && le(y, z) ==> le(x, z))
  }

  predicate SortedBy<T>(s: seq<T>, le: (T, T) -> bool)
  {
    forall i, j :: 0 <= i < j < |s| ==> le(s[i], s[j])
  }

  predicate StrictlySortedBy<T>(s: seq<T>, lt: (T, T) -> bool)
  {
    forall i, j :: 0 <= i < j < |s| ==> lt(s[i], s[j])
  }

  predicate NoDup<T(==)>(s: seq<T>)
  {
    forall i, j :: 0 <= i < j < |s| ==> s[i] != s[j]
  }

  function Elements<T>(s: seq<T>): (r: set<T>)
    ensures forall i :: 0 <= i < |s| ==> s[i] in r
    ensures forall x :: x in r ==> x in s
  {
    set x | x in s
  }

  /** `[f(x) for x in s]`. */
  function MapSeq<T, U>(f: T -> U, s: seq<T>): (r: seq<U>)
    ensures |r| == |s| && forall i :: 0 <= i < |s| ==> r[i] == f(s[i])
  {
    seq(|s|, i requires 0 <= i < |s| => f(s[i]))
  }

  /** Places `x` in front of the first element it is `le` to. */
  function Insert<T>(x: T, s: seq<T>, le: (T, T) -> bool): (r: seq<T>)
    ensures multiset(r) == multiset(s) + multiset{x}
  {
    if |s| == 0 then [x]
    else if le(x, s[0]) then [x] + s
    else
      assert s == [s[0]] + s[1..];
      [s[0]] + Insert(x, s[1..], le)
  }

  /** Insertion sort; elements the order ties keep their input order. */
  function Sort<T>(s: seq<T>, le: (T, T) -> bool): (r: seq<T>)
    ensures multiset(r) == multiset(s) && |r| == |s|
  {
    if |s| == 0 then []
    else
      assert s == [s[0]] + s[1..];
      Insert(s[0], Sort(s[1..], le), le)
  }

  lemma {:induction false} InsertSorted<T(!new)>(x: T, s: seq<T>, le: (T, T) -> bool)
    requires TotalPreorder(le) && SortedBy(s, le)
    ensures SortedBy(Insert(x, s, le), le)
  {
    if |s| > 0 && !le(x, s[0]) {
      var tail := Insert(x, s[1..], le);
      InsertSorted(x, s[1..], le);
      assert le(s[0], x);
      forall k | 0 <= k < |tail| ensures le(s[0], tail[k]) {
        assert tail[k] in multiset(tail);
        assert tail[k] == x || tail[k] in multiset(s[1..]);
        if tail[k] != x {
          var m :| 0 <= m < |s[1..]| && s[1..][m] == tail[k];
          assert s[m + 1] == tail[k];
        }
      }
    }
  }

  lemma {:induction false} SortSorted<T(!new)>(s: seq<T>, le: (T, T) -> bool)
    requires TotalPreorder(le)
    ensures SortedBy(Sort(s, le), le)
  {
    if |s| > 0 {
      SortSorted(s[1..], le);
      InsertSorted(s[0], Sort(s[1..], le), le);
    }
  }

  lemma MultisetAppend<T>(x: seq<T>, y: seq<T>)
    ensures multiset(x + y) == multiset(x) + multiset(y)
  {
  }

  /** Taking the same head off two permutations of each other leaves two permutations. */
  lemma TailPermutation<T>(a: seq<T>, b: seq<T>)
    requires multiset(a) == multiset(b) && |a| > 0 && |b| > 0 && a[0] == b[0]
    ensures multiset(a[1..]) == multiset(b[1..])
  {
    assert a == [a[0]] + a[1..] && b == [b[0]] + b[1..];
    MultisetAppend([a[0]], a[1..]);
    MultisetAppend([b[0]], b[1..]);
    forall x ensures multiset(a[1..])[x] == multiset(b[1..])[x] {
      assert multiset(a)[x] == multiset{a[0]}[x] + multiset(a[1..])[x];
      assert multiset(b)[x] == multiset{b[0]}[x] + multiset(b[1..])[x];
    }
  }

  /** Removing position `j` of `b` leaves a permutation of the tail of `a`. */
  lemma RemoveAt<T>(a: seq<T>, b: seq<T>, j: nat)
    requires multiset(a) == multiset(b) && |a| > 0 && j < |b| && b[j] == a[0]
    ensures b == b[..j] + [b[j]] + b[j + 1..]
    ensures multiset(b[..j] + b[j + 1..]) == multiset(a[1..])
  {
    var p, q := b[..j], b[j + 1..];
    assert b == p + [b[j]] + q;
    assert a == [a[0]] + a[1..];
    MultisetAppend(p, q);
    MultisetAppend(p + [b[j]], q);
    MultisetAppend(p, [b[j]]);
    MultisetAppend([a[0]], a[1..]);
    forall x ensures multiset(p + q)[x] == multiset(a[1..])[x] {
      assert multiset(b)[x] == multiset(p)[x] + multiset{a[0]}[x] + multiset(q)[x];
      assert multiset(a)[x] == multiset{a[0]}[x] + multiset(a[1..])[x];
    }
  }

  /** Where an element of a permutation of `b` stands in `b`. */
  lemma PositionIn<T>(x: T, a: seq<T>, b: seq<T>) returns (j: nat)
    requires multiset(a) == multiset(b) && x in a
    ensures j < |b| && b[j] == x
  {
    assert x in multiset(a);
    assert x in b;
    j :| 0 <= j < |b| && b[j] == x;
  }

  /** `le` is antisymmetric on the elements of `s`. */
  ghost predicate AntisymmetricOn<T>(s: seq<T>, le: (T, T) -> bool)
  {
    forall i, j :: 0 <= i < |s| && 0 <= j < |s| && le(s[i], s[j]) && le(s[j], s[i]) ==> s[i] == s[j]
  }

  /**
   * Two `le`-ordered permutations of each other are equal when `le` is
   * antisymmetric on their elements.
   */
  lemma {:induction false} SortedUnique<T>(a: seq<T>, b: seq<T>, le: (T, T) -> bool)
    requires AntisymmetricOn(a, le)
    requires SortedBy(a, le) && SortedBy(b, le) && multiset(a) == multiset(b)
    ensures a == b
  {
    assert |multiset(a)| == |a| && |multiset(b)| == |b|;
    if |a| > 0 {
      var j := PositionIn(a[0], a, b);
      var i := PositionIn(b[0], b, a);
      assert a[0] == b[0] by {
        if i != 0 && j != 0 {
          assert le(a[0], a[i]) && le(b[0], b[j]);
        }
      }
      TailPermutation(a, b);
      assert AntisymmetricOn(a[1..], le) by {
        forall i', j' | 0 <= i' < |a[1..]| && 0 <= j' < |a[1..]| ensures a[1..][i'] == a[1 + i'] && a[1..][j'] == a[1 + j'] {}
      }
      SortedUnique(a[1..], b[1..], le);
    }
  }

  /** Sorting under an order antisymmetric on the input depends only on its multiset. */
  lemma SortPermutationInvariant<T(!new)>(a: seq<T>, b: seq<T>, le: (T, T) -> bool)
    requires TotalPreorder(le) && AntisymmetricOn(a, le)
    requires multiset(a) == multiset(b)
    ensures Sort(a, le) == Sort(b, le)
  {
    SortSorted(a, le);
    SortSorted(b, le);
    var sa := Sort(a, le);
    forall i, j | 0 <= i < |sa| && 0 <= j < |sa| && le(sa[i], sa[j]) && le(sa[j], sa[i]) ensures sa[i] == sa[j] {
      var i' := PositionIn(sa[i], sa, a);
      var j' := PositionIn(sa[j], sa, a);
    }
    SortedUnique(sa, Sort(b, le), le);
  }

  /** Two strictly ordered sequences with the same elements are equal. */
  lemma {:induction false} StrictlySortedUnique<T>(a: seq<T>, b: seq<T>, lt: (T, T) -> bool)
    requires forall x, y :: lt(x, y) ==> !lt(y, x)
    requires StrictlySortedBy(a, lt) && StrictlySortedBy(b, lt) && Elements(a) == Elements(b)
    ensures a == b
  {
    if |a| == 0 {
      assert |b| == 0;
    } else {
      assert a[0] in Elements(b);
      assert b[0] in Elements(a);
      var j :| 0 <= j < |b| && b[j] == a[0];
      var i :| 0 <= i < |a| && a[i] == b[0];
      assert a[0] == b[0];
      assert a[0] !in a[1..];
      assert b[0] !in b[1..];
      assert a == [a[0]] + a[1..] && b == [b[0]] + b[1..];
      assert Elements(a[1..]) == Elements(a) - {a[0]};
      assert Elements(b[1..]) == Elements(b) - {b[0]};
      StrictlySortedUnique(a[1..], b[1..], lt);
    }
  }

  /** An element repeated at two positions occurs twice in the multiset. */
  lemma DuplicateCountsTwice<T>(s: seq<T>, i: nat, j: nat)
    requires i < j < |s| && s[i] == s[j]
    ensures multiset(s)[s[i]] >= 2
  {
    assert s == s[..j] + s[j..];
    assert s[..j][i] == s[i];
    assert s[j..][0] == s[j];
    assert multiset(s) == multiset(s[..j]) + multiset(s[j..]);
  }

  lemma {:induction false} NoDupCountsOnce<T>(s: seq<T>, x: T)
    requires NoDup(s)
    ensures multiset(s)[x] <= 1
  {
    if |s| > 0 {
      assert s == [s[0]] + s[1..];
      NoDupCountsOnce(s[1..], x);
      if x == s[0] {
        assert x !in s[1..];
      }
    }
  }

  /** A permutation of a duplicate-free sequence is duplicate-free. */
  lemma PermutationNoDup<T>(a: seq<T>, b: seq<T>)
    requires multiset(a) == multiset(b) && NoDup(b)
    ensures NoDup(a)
  {
    forall i, j | 0 <= i < j < |a| ensures a[i] != a[j] {
      if a[i] == a[j] {
        DuplicateCountsTwice(a, i, j);
        NoDupCountsOnce(b, a[i]);
      }
    }
  }

  lemma MapSeqAppend<T, U>(f: T -> U, x: seq<T>, y: seq<T>)
    ensures MapSeq(f, x + y) == MapSeq(f, x) + MapSeq(f, y)
  {
  }

  /** Putting `v` in front, or between `p` and `q`, of two permutations keeps them permutations. */
  lemma MiddlePermutation<T>(v: T, t: seq<T>, p: seq<T>, q: seq<T>)
    requires multiset(t) == multiset(p + q)
    ensures multiset([v] + t) == multiset(p + [v] + q)
  {
    MultisetAppend(p + [v], q);
    MultisetAppend(p, [v]);
    MultisetAppend(p, q);
    MultisetAppend([v], t);
  }

  /** Mapping commutes with splitting a sequence around position `j`. */
  lemma MapSeqAround<T, U>(f: T -> U, b: seq<T>, j: nat)
    requires j < |b|
    ensures MapSeq(f, b) == MapSeq(f, b[..j]) + [f(b[j])] + MapSeq(f, b[j + 1..])
    ensures MapSeq(f, b[..j] + b[j + 1..]) == MapSeq(f, b[..j]) + MapSeq(f, b[j + 1..])
  {
  }

  /** The inductive step of `MapSeqPermutation`: `a[0]` sits at `b[j]`. */
  lemma MapSeqPermutationStep<T, U>(f: T -> U, a: seq<T>, b: seq<T>, j: nat)
    requires |a| > 0 && j < |b| && b[j] == a[0]
    requires multiset(MapSeq(f, a[1..])) == multiset(MapSeq(f, b[..j] + b[j + 1..]))
    ensures multiset(MapSeq(f, a)) == multiset(MapSeq(f, b))
  {
    MapSeqAround(f, b, j);
    assert MapSeq(f, a) == [f(a[0])] + MapSeq(f, a[1..]);
    MiddlePermutation(f(a[0]), MapSeq(f, a[1..]), MapSeq(f, b[..j]), MapSeq(f, b[j + 1..]));
  }

  /** Mapping over two permutations of each other gives two permutations. */
  lemma {:induction false} MapSeqPermutation<T, U>(f: T -> U, a: seq<T>, b: seq<T>)
    requires multiset(a) == multiset(b)
    ensures multiset(MapSeq(f, a)) == multiset(MapSeq(f, b))
  {
    assert |multiset(a)| == |a| && |multiset(b)| == |b|;
    if |a| > 0 {
      var j := PositionIn(a[0], a, b);
      RemoveAt(a, b, j);
      MapSeqPermutation(f, a[1..], b[..j] + b[j + 1..]);
      MapSeqPermutationStep(f, a, b, j);
    }
  }

  lemma SortPair<T>(b: T, c: T, le: (T, T) -> bool)
    requires le(b, c)
    ensures Sort([b, c], le) == [b, c]
  {
    assert [b, c][1..] == [c] && [c][1..] == [];
  }

  lemma InsertPast<T>(a: T, b: T, c: T, le: (T, T) -> bool)
    requires !le(a, b) && le(a, c)
    ensures Insert(a, [b, c], le) == [b, a, c]
  {
    assert [b, c][1..] == [c];
  }

  /** Three items where only the first is out of place: sorting moves it behind the second. */
  lemma SortThree<T>(a: T, b: T, c: T, le: (T, T) -> bool)
    requires !le(a, b) && le(a, c) && le(b, c)
    ensures Sort([a, b, c], le) == [b, a, c]
  {
    SortPair(b, c, le);
    InsertPast(a, b, c, le);
    assert [a, b, c][1..] == [b, c];
  }

  /** The distinct items of `s` in first-occurrence order, standing for `set(s)` before it is sorted. */
  function Dedup<T(==)>(s: seq<T>): (r: seq<T>)
    ensures NoDup(r) && Elements(r) == Elements(s)
  {
    if |s| == 0 then []
    else
      var n := |s| - 1;
      var d := Dedup(s[..n]);
      assert Elements(s) == Elements(s[..n]) + {s[n]} by {
        assert s == s[..n] + [s[n]];
      }
      if s[n] in d then d else d + [s[n]]
  }

  /** `[x for x in s if p(x)]`. */
  function Filter<T>(p: T -> bool, s: seq<T>): (r: seq<T>)
    ensures |r| <= |s|
  {
    if |s| == 0 then []
    else
      var n := |s| - 1;
      Filter(p, s[..n]) + (if p(s[n]) then [s[n]] else [])
  }

  /** The kept items are exactly the items satisfying `p`, each as often as in `s`. */
  lemma {:induction false} FilterMultiset<T>(p: T -> bool, s: seq<T>, x: T)
    ensures multiset(Filter(p, s))[x] == if p(x) then multiset(s)[x] else 0
  {
    if |s| > 0 {
      var n := |s| - 1;
      FilterMultiset(p, s[..n], x);
      assert s == s[..n] + [s[n]];
    }
  }

  /** Filtering keeps the order. */
  lemma {:induction false} FilterSorted<T>(p: T -> bool, s: seq<T>, le: (T, T) -> bool)
    requires SortedBy(s, le)
    ensures SortedBy(Filter(p, s), le)
  {
    if |s| > 0 {
      var n := |s| - 1;
      var f := Filter(p, s[..n]);
      assert SortedBy(s[..n], le);
      FilterSorted(p, s[..n], le);
      if p(s[n]) {
        forall i | 0 <= i < |f| ensures le(f[i], s[n]) {
          FilterMultiset(p, s[..n], f[i]);
          assert f[i] in multiset(s[..n]);
          var j :| 0 <= j < n && s[..n][j] == f[i];
        }
      }
    }
  }

  /** One more item of `s` is kept or dropped by `p`. */
  lemma FilterStep<T>(p: T -> bool, s: seq<T>, k: nat)
    requires k < |s|
    ensures Filter(p, s[..k + 1]) == Filter(p, s[..k]) + (if p(s[k]) then [s[k]] else [])
  {
    assert s[..k + 1][..k] == s[..k];
  }
}
