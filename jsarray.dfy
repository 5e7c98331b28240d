/**
 * The JavaScript array methods the storefront relies on: `filter`, `find`,
 * `map` and `slice(0, end)`, over Dafny sequences.
 */
module JsArray {
  import opened Wrappers

  /** `s.filter(f)`: the elements of `s` satisfying `f`, in their original order. */
  function Filter<T(!new)>(f: T -> bool, s: seq<T>): (r: seq<T>)
    ensures |r| <= |s|
    ensures forall x :: x in r <==> x in s && f(x)
  {
    if s == [] then [] else (if f(s[0]) then [s[0]] else []) + Filter(f, s[1..])
  }

  /** Filtering distributes over concatenation, which pins down that the order is kept. */
  lemma {:induction false} FilterAppend<T(!new)>(f: T -> bool, a: seq<T>, b: seq<T>)
    ensures Filter(f, a + b) == Filter(f, a) + Filter(f, b)
  {
    if a != [] {
      assert (a + b)[1..] == a[1..] + b;
      FilterAppend(f, a[1..], b);
    } else {
      assert a + b == b;
    }
  }

  /** Filtering with a predicate every element satisfies changes nothing. */
  lemma {:induction false} FilterAll<T(!new)>(f: T -> bool, s: seq<T>)
    requires forall x :: x in s ==> f(x)
    ensures Filter(f, s) == s
  {
    if s != [] {
      FilterAll(f, s[1..]);
    }
  }

  /** Filtering with a predicate no element satisfies yields nothing. */
  lemma {:induction false} FilterNone<T(!new)>(f: T -> bool, s: seq<T>)
    requires forall x :: x in s ==> !f(x)
    ensures Filter(f, s) == []
  {
    if s != [] {
      FilterNone(f, s[1..]);
    }
  }

  /** `s.find(f)`: the first element satisfying `f`, if there is one. */
  function Find<T(!new)>(f: T -> bool, s: seq<T>): (r: Option<T>)
    ensures r.Some? ==> r.value in s && f(r.value)
    ensures r.None? <==> forall x :: x in s ==> !f(x)
  {
    if s == [] then None else if f(s[0]) then Some(s[0]) else Find(f, s[1..])
  }

  /** What `find` returns is the head of what `filter` returns with the same predicate. */
  lemma {:induction false} FindIsFirstFiltered<T(!new)>(f: T -> bool, s: seq<T>)
    ensures Find(f, s) == if Filter(f, s) == [] then None else Some(Filter(f, s)[0])
  {
    if s != [] && !f(s[0]) {
      FindIsFirstFiltered(f, s[1..]);
    }
  }

  /** `find` returns the element at the first index that satisfies `f`. */
  lemma {:induction false} FindFirstIndex<T(!new)>(f: T -> bool, s: seq<T>, k: nat)
    requires k < |s| && f(s[k])
    requires forall j :: 0 <= j < k ==> !f(s[j])
    ensures Find(f, s) == Some(s[k])
  {
    if k > 0 {
      FindFirstIndex(f, s[1..], k - 1);
    }
  }

  /** When `find` finds something, it is the element at the first index that satisfies `f`. */
  lemma {:induction false} FindIndex<T(!new)>(f: T -> bool, s: seq<T>) returns (k: nat)
    requires Find(f, s).Some?
    ensures k < |s| && f(s[k]) && (forall j :: 0 <= j < k ==> !f(s[j]))
    ensures Find(f, s) == Some(s[k])
  {
    if f(s[0]) {
      k := 0;
    } else {
      var rest := FindIndex(f, s[1..]);
      k := rest + 1;
      assert forall j :: 1 <= j < k ==> s[j] == s[1..][j - 1];
    }
  }

  /** `s.map(f)`. */
  function Map<T, U>(f: T -> U, s: seq<T>): (r: seq<U>)
    ensures |r| == |s|
    ensures forall i :: 0 <= i < |s| ==> r[i] == f(s[i])
  {
    seq(|s|, i requires 0 <= i < |s| => f(s[i]))
  }

  /** `s.indexOf(x)`: the first index holding `x`, or -1 when there is none. */
  function IndexOf<T(==)>(s: seq<T>, x: T): (i: int)
    ensures -1 <= i < |s|
    ensures i >= 0 ==> s[i] == x && forall j :: 0 <= j < i ==> s[j] != x
    ensures i == -1 <==> x !in s
  {
    if s == [] then -1 else if s[0] == x then 0 else var k := IndexOf(s[1..], x); if k == -1 then -1 else k + 1
  }

  /** The end index `slice(0, end)` uses: a negative end counts from the back, and both are clamped. */
  function SliceEnd(len: nat, end: int): (e: nat)
    ensures e <= len
    ensures end >= 0 ==> e == if end < len then end else len
    ensures end < 0 ==> e == if len + end > 0 then len + end else 0
  {
    if end < 0 then (if len + end > 0 then len + end else 0)
    else if end < len then end else len
  }
}
