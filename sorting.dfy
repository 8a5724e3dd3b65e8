/**
 * Python's `sorted(xs, key=...)` and `list.sort(key=...)`: a stable sort.
 * Elements are compared with a strict "comes before" relation `lt`; for an
 * ascending sort on a key `lt(a, b)` is `key(a) < key(b)`, for
 * `reverse=True` it is `key(b) < key(a)`. Elements that neither comes
 * before keep their input order, as Python's sort guarantees.
 */
module Sorting {

  /** `lt` is a strict weak order: irreflexive, transitive, and incomparability is transitive. */
  ghost predicate StrictWeakOrder<T(!new)>(lt: (T, T) -> bool) {
    && (forall a :: !lt(a, a))
    && (forall a, b, c :: lt(a, b) && lt(b, c) ==> lt(a, c))
    && (forall a, b, c :: lt(a, c) ==> lt(a, b) || lt(b, c))
  }

  /** No element comes before an element to its left. */
  ghost predicate SortedBy<T>(s: seq<T>, lt: (T, T) -> bool) {
    forall i, j :: 0 <= i < j < |s| ==> !lt(s[j], s[i])
  }

  /** Inserts `x` after every element of `s` that `x` does not come before. */
  function Insert<T>(x: T, s: seq<T>, lt: (T, T) -> bool): (r: seq<T>)
    ensures |r| == |s| + 1
    ensures multiset(r) == multiset(s) + multiset{x}
  {
    if s == [] || lt(x, s[0]) then [x] + s
    else
      assert s == [s[0]] + s[1..];
      [s[0]] + Insert(x, s[1..], lt)
  }

  /** Insertion sort, taking the elements in input order (hence stable). */
  function Sort<T>(s: seq<T>, lt: (T, T) -> bool): (r: seq<T>)
    ensures |r| == |s|
    ensures multiset(r) == multiset(s)
  {
    if s == [] then []
    else
      assert s == s[..|s| - 1] + [s[|s| - 1]];
      Insert(s[|s| - 1], Sort(s[..|s| - 1], lt), lt)
  }

  /** `s[:n]`. */
  function Take<T>(s: seq<T>, n: nat): (r: seq<T>)
    ensures |r| == if n < |s| then n else |s|
    ensures forall i :: 0 <= i < |r| ==> r[i] == s[i]
  {
    if n < |s| then s[..n] else s
  }

  /**
   * The first `n` elements of a sorted sequence are sorted, come from it,
   * and nothing left out comes before an element that was kept.
   */
  lemma TakeOfSorted<T>(s: seq<T>, lt: (T, T) -> bool, n: nat)
    requires SortedBy(s, lt)
    ensures multiset(Take(s, n)) <= multiset(s)
    ensures SortedBy(Take(s, n), lt)
    ensures forall x, i :: multiset(Take(s, n))[x] < multiset(s)[x] && 0 <= i < |Take(s, n)| ==> !lt(x, Take(s, n)[i])
  {
    var r := Take(s, n);
    var m := |r|;
    assert r == s[..m];
    assert s == s[..m] + s[m..];
    assert multiset(s) == multiset(s[..m]) + multiset(s[m..]);
    forall x, i | multiset(r)[x] < multiset(s)[x] && 0 <= i < |r|
      ensures !lt(x, r[i])
    {
      assert x in multiset(s[m..]);
      var k :| 0 <= k < |s[m..]| && s[m..][k] == x;
      assert s[m + k] == x;
    }
  }

  lemma {:induction false} InsertSorted<T(!new)>(x: T, s: seq<T>, lt: (T, T) -> bool)
    requires StrictWeakOrder(lt)
    requires SortedBy(s, lt)
    ensures SortedBy(Insert(x, s, lt), lt)
    decreases |s|
  {
    var r := Insert(x, s, lt);
    if s == [] || lt(x, s[0]) {
      forall i, j | 0 <= i < j < |r| ensures !lt(r[j], r[i]) {
        if i == 0 {
          assert r[j] == s[j - 1];
        }
      }
    } else {
      var tail := Insert(x, s[1..], lt);
      InsertSorted(x, s[1..], lt);
      forall j | 0 < j < |r| ensures !lt(r[j], s[0]) {
        assert r[j] == tail[j - 1];
        assert r[j] in multiset(tail);
        if r[j] != x {
          assert r[j] in multiset(s[1..]);
          var k :| 0 <= k < |s[1..]| && s[1..][k] == r[j];
          assert s[k + 1] == r[j];
        }
      }
    }
  }

  /** Sorting yields an ordered permutation of its input. */
  lemma {:induction false} SortSorted<T(!new)>(s: seq<T>, lt: (T, T) -> bool)
    requires StrictWeakOrder(lt)
    ensures SortedBy(Sort(s, lt), lt)
    decreases |s|
  {
    if s != [] {
      SortSorted(s[..|s| - 1], lt);
      InsertSorted(s[|s| - 1], Sort(s[..|s| - 1], lt), lt);
    }
  }

  /** The index of the first element that no element comes before. */
  function FirstMin<T>(s: seq<T>, lt: (T, T) -> bool): (k: nat)
    requires |s| > 0
    ensures k < |s|
  {
    if |s| == 1 then 0
    else
      var k := FirstMin(s[..|s| - 1], lt);
      if lt(s[|s| - 1], s[k]) then |s| - 1 else k
  }

  /** `FirstMin` is minimal, and it comes before every element to its left. */
  lemma {:induction false} FirstMinIsFirstMinimal<T(!new)>(s: seq<T>, lt: (T, T) -> bool)
    requires |s| > 0
    requires StrictWeakOrder(lt)
    ensures forall j :: 0 <= j < |s| ==> !lt(s[j], s[FirstMin(s, lt)])
    ensures forall j :: 0 <= j < FirstMin(s, lt) ==> lt(s[FirstMin(s, lt)], s[j])
    decreases |s|
  {
    if |s| > 1 {
      var p := s[..|s| - 1];
      FirstMinIsFirstMinimal(p, lt);
      var k := FirstMin(p, lt);
      var x := s[|s| - 1];
      if lt(x, s[k]) {
        forall j | 0 <= j < |s| - 1 ensures lt(x, s[j]) && !lt(s[j], x) {
          assert p[j] == s[j];
          assert !lt(s[j], s[k]);
        }
      }
    }
  }

  /** The head of the sorted sequence is the first minimal element of the input. */
  lemma {:induction false} SortHead<T>(s: seq<T>, lt: (T, T) -> bool)
    requires |s| > 0
    ensures Sort(s, lt)[0] == s[FirstMin(s, lt)]
    decreases |s|
  {
    if |s| > 1 {
      SortHead(s[..|s| - 1], lt);
    }
  }

  /** Ascending on an integer key: `sort(key=key)`. */
  function ByKey<T>(key: T -> int): (T, T) -> bool {
    (a: T, b: T) => key(a) < key(b)
  }

  /**
   * The head of a sequence sorted on an integer key is an element with the
   * least key, and its key is strictly less than that of every element
   * before it.
   */
  lemma SortByKeyHead<T(!new)>(s: seq<T>, key: T -> int) returns (k: nat)
    requires s != []
    ensures k < |s| && Sort(s, ByKey(key))[0] == s[k]
    ensures forall j :: 0 <= j < |s| ==> key(s[k]) <= key(s[j])
    ensures forall j :: 0 <= j < k ==> key(s[k]) < key(s[j])
  {
    k := FirstMin(s, ByKey(key));
    SortHead(s, ByKey(key));
    FirstMinIsFirstMinimal(s, ByKey(key));
  }
}
