/**
 * `Array.prototype.sort` with a three-way comparator, as the stable
 * insertion sort the specification of `sort` permits: equal elements keep
 * their relative order.
 */
module Sorting {

  /** Swapping the operands flips the comparator's sign. */
  ghost predicate Antisymmetric<T(!new)>(cmp: (T, T) -> int)
  {
    forall a, b :: cmp(a, b) < 0 <==> cmp(b, a) > 0
  }

  /** The comparator's "at most" is transitive. */
  ghost predicate Transitive<T(!new)>(cmp: (T, T) -> int)
  {
    forall a, b, c :: cmp(a, b) <= 0 && cmp(b, c) <= 0 ==> cmp(a, c) <= 0
  }

  /** A comparator `sort` handles consistently. */
  ghost predicate Consistent<T(!new)>(cmp: (T, T) -> int)
  {
    Antisymmetric(cmp) && Transitive(cmp)
  }

  /** Every element compares at most each later one. */
  predicate SortedBy<T>(cmp: (T, T) -> int, s: seq<T>)
  {
    forall i, j :: 0 <= i < j < |s| ==> cmp(s[i], s[j]) <= 0
  }

  /** Inserts `x` before the first element it compares below, so after every element it ties with. */
  function Insert<T>(cmp: (T, T) -> int, x: T, s: seq<T>): (r: seq<T>)
    ensures multiset(r) == multiset(s) + multiset{x}
    ensures |r| == |s| + 1
  {
    if s == [] then [x]
    else if cmp(x, s[0]) < 0 then [x] + s
    else
      assert s == [s[0]] + s[1..];
      [s[0]] + Insert(cmp, x, s[1..])
  }

  /** `s.sort(cmp)` on a copy of `s`. */
  function Sort<T>(cmp: (T, T) -> int, s: seq<T>): (r: seq<T>)
    ensures multiset(r) == multiset(s)
  {
    if s == [] then []
    else
      assert s == s[..|s| - 1] + [s[|s| - 1]];
      Insert(cmp, s[|s| - 1], Sort(cmp, s[..|s| - 1]))
  }

  /** Same elements, as a set, when the multisets agree. */
  lemma SameMembers<T>(r: seq<T>, s: seq<T>)
    requires multiset(r) == multiset(s)
    ensures forall y :: y in r <==> y in s
  {
    forall y ensures y in r <==> y in s {
      assert y in r <==> y in multiset(r);
      assert y in s <==> y in multiset(s);
    }
  }

  /** Inserting into a sorted sequence keeps it sorted. */
  lemma {:induction false} InsertSorted<T(!new)>(cmp: (T, T) -> int, x: T, s: seq<T>)
    requires Consistent(cmp) && SortedBy(cmp, s)
    ensures SortedBy(cmp, Insert(cmp, x, s))
  {
    if s != [] {
      var r := Insert(cmp, x, s);
      if cmp(x, s[0]) < 0 {
        assert r == [x] + s;
        forall j | 1 < j < |r| ensures cmp(x, r[j]) <= 0 {
          assert cmp(s[0], s[j - 1]) <= 0;
        }
      } else {
        assert cmp(s[0], x) <= 0;
        var t := Insert(cmp, x, s[1..]);
        assert r == [s[0]] + t;
        InsertSorted(cmp, x, s[1..]);
        SameMembers(t, s[1..] + [x]);
        forall j | 0 <= j < |t| ensures cmp(s[0], t[j]) <= 0 {
          assert t[j] in t;
          if t[j] != x {
            assert t[j] in s[1..];
            var k :| 0 <= k < |s[1..]| && s[1..][k] == t[j];
            assert s[k + 1] == t[j];
          }
        }
      }
    }
  }

  /** The result of `Sort` is in comparator order. */
  lemma {:induction false} SortSorted<T(!new)>(cmp: (T, T) -> int, s: seq<T>)
    requires Consistent(cmp)
    ensures SortedBy(cmp, Sort(cmp, s))
  {
    if s != [] {
      SortSorted(cmp, s[..|s| - 1]);
      InsertSorted(cmp, s[|s| - 1], Sort(cmp, s[..|s| - 1]));
    }
  }

  predicate Distinct<T(==)>(s: seq<T>)
  {
    forall i, j :: 0 <= i < j < |s| ==> s[i] != s[j]
  }

  /** Inserting an element not already present keeps a sequence free of repeats. */
  lemma {:induction false} InsertDistinct<T>(cmp: (T, T) -> int, x: T, s: seq<T>)
    requires Distinct(s) && x !in s
    ensures Distinct(Insert(cmp, x, s))
  {
    if s == [] {
    } else if cmp(x, s[0]) < 0 {
      DistinctCons(x, s);
    } else {
      var t := Insert(cmp, x, s[1..]);
      assert Insert(cmp, x, s) == [s[0]] + t;
      assert s[0] !in s[1..] && s[0] != x;
      assert Distinct(s[1..]);
      InsertDistinct(cmp, x, s[1..]);
      SameMembers(t, s[1..] + [x]);
      DistinctCons(s[0], t);
    }
  }

  lemma DistinctCons<T>(x: T, s: seq<T>)
    requires Distinct(s) && x !in s
    ensures Distinct([x] + s)
  {
    var r := [x] + s;
    forall i, j | 0 <= i < j < |r| ensures r[i] != r[j] {
      assert r[j] == s[j - 1];
      if i > 0 {
        assert r[i] == s[i - 1];
      }
    }
  }

  /** Sorting keeps a sequence without repeats free of repeats. */
  lemma {:induction false} SortDistinct<T>(cmp: (T, T) -> int, s: seq<T>)
    requires Distinct(s)
    ensures Distinct(Sort(cmp, s))
  {
    if s != [] {
      var n := |s| - 1;
      assert Distinct(s[..n]);
      SortDistinct(cmp, s[..n]);
      var sorted := Sort(cmp, s[..n]);
      assert s[n] !in s[..n];
      SameMembers(sorted, s[..n]);
      InsertDistinct(cmp, s[n], sorted);
    }
  }

  /** `Sort` inserts the last element into the sorted front. */
  lemma SortSnoc<T>(cmp: (T, T) -> int, s: seq<T>, x: T)
    ensures Sort(cmp, s + [x]) == Insert(cmp, x, Sort(cmp, s))
  {
    assert (s + [x])[..|s|] == s;
  }

  lemma SortPair<T>(cmp: (T, T) -> int, a: T, b: T)
    requires cmp(b, a) < 0
    ensures Sort(cmp, [a, b]) == [b, a]
  {
    SortSnoc(cmp, [], a);
    assert [] + [a] == [a];
    SortSnoc(cmp, [a], b);
    assert [a] + [b] == [a, b];
  }

  /** How `Sort` orders three elements when the third belongs between the other two. */
  lemma SortThree<T>(cmp: (T, T) -> int, a: T, b: T, c: T)
    requires cmp(b, a) < 0 && cmp(c, b) >= 0 && cmp(c, a) < 0
    ensures Sort(cmp, [a, b, c]) == [b, c, a]
  {
    SortPair(cmp, a, b);
    InsertBetween(cmp, b, c, a);
    SortSnoc(cmp, [a, b], c);
    assert [a, b] + [c] == [a, b, c];
  }

  lemma InsertBetween<T>(cmp: (T, T) -> int, a: T, x: T, b: T)
    requires cmp(x, a) >= 0 && cmp(x, b) < 0
    ensures Insert(cmp, x, [a, b]) == [a, x, b]
  {
    assert [a, b][1..] == [b];
  }
}
