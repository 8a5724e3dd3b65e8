/**
 * Order-preserving filtering of sequences (Python's `[x for x in s if p(x)]`),
 * defined by its last element so that a loop over a prefix extends it one
 * step at a time.
 */
module Seqs {
  /** The elements of `s` satisfying `p`, in order. */
  function Keep<T>(s: seq<T>, p: T -> bool): (r: seq<T>)
    ensures |r| <= |s|
    ensures forall x :: x in r ==> x in s && p(x)
  {
    if s == [] then [] else Keep(s[..|s| - 1], p) + (if p(s[|s| - 1]) then [s[|s| - 1]] else [])
  }

  /** Extending the input by one element extends the output by that element if it is kept. */
  lemma KeepSnoc<T>(s: seq<T>, x: T, p: T -> bool)
    ensures Keep(s + [x], p) == Keep(s, p) + (if p(x) then [x] else [])
  {
    assert (s + [x])[..|s + [x]| - 1] == s;
  }

  lemma {:induction false} KeepAppend<T>(a: seq<T>, b: seq<T>, p: T -> bool)
    ensures Keep(a + b, p) == Keep(a, p) + Keep(b, p)
    decreases |b|
  {
    if b == [] {
      assert a + b == a;
    } else {
      var b' := b[..|b| - 1];
      assert a + b == (a + b') + [b[|b| - 1]];
      assert b == b' + [b[|b| - 1]];
      KeepSnoc(a + b', b[|b| - 1], p);
      KeepSnoc(b', b[|b| - 1], p);
      KeepAppend(a, b', p);
    }
  }

  /** Every occurrence of a kept value survives; a value that is not kept never appears. */
  lemma {:induction false} KeepCount<T>(s: seq<T>, p: T -> bool, x: T)
    ensures multiset(Keep(s, p))[x] == if p(x) then multiset(s)[x] else 0
    decreases |s|
  {
    if s != [] {
      var s' := s[..|s| - 1];
      assert s == s' + [s[|s| - 1]];
      KeepCount(s', p, x);
    }
  }

  /** Nothing is kept when no element satisfies the predicate. */
  lemma {:induction false} KeepNone<T>(s: seq<T>, p: T -> bool)
    requires forall i :: 0 <= i < |s| ==> !p(s[i])
    ensures Keep(s, p) == []
    decreases |s|
  {
    if s != [] {
      KeepNone(s[..|s| - 1], p);
    }
  }

  /** Everything is kept when every element satisfies the predicate. */
  lemma {:induction false} KeepAll<T>(s: seq<T>, p: T -> bool)
    requires forall i :: 0 <= i < |s| ==> p(s[i])
    ensures Keep(s, p) == s
    decreases |s|
  {
    if s != [] {
      var s', x := s[..|s| - 1], s[|s| - 1];
      assert s == s' + [x];
      forall i | 0 <= i < |s'|
        ensures p(s'[i])
      {
        assert s'[i] == s[i];
      }
      KeepAll(s', p);
      KeepSnoc(s', x, p);
    }
  }

  /** An element that is not kept makes the result strictly shorter than the input. */
  lemma {:induction false} KeepDropsRejected<T>(s: seq<T>, p: T -> bool, i: nat)
    requires i < |s| && !p(s[i])
    ensures |Keep(s, p)| < |s|
    decreases |s|
  {
    var n := |s| - 1;
    if i < n {
      assert s[..n][i] == s[i];
      KeepDropsRejected(s[..n], p, i);
    }
  }

  /** Keeping by a stronger predicate keeps no more. */
  lemma {:induction false} KeepMonotone<T>(s: seq<T>, p: T -> bool, q: T -> bool)
    requires forall x :: p(x) ==> q(x)
    ensures |Keep(s, p)| <= |Keep(s, q)|
    decreases |s|
  {
    if s != [] {
      KeepMonotone(s[..|s| - 1], p, q);
    }
  }

  /** `[f(x) for x in s]`. */
  function Map<T, U>(s: seq<T>, f: T -> U): (r: seq<U>)
    ensures |r| == |s|
    ensures forall i :: 0 <= i < |s| ==> r[i] == f(s[i])
  {
    seq(|s|, i requires 0 <= i < |s| => f(s[i]))
  }

  lemma MapSnoc<T, U>(s: seq<T>, x: T, f: T -> U)
    ensures Map(s + [x], f) == Map(s, f) + [f(x)]
  {
  }

  /** One more element of the input adds its image to the output exactly when it is kept. */
  lemma MapKeepSnoc<T, U>(s: seq<T>, x: T, p: T -> bool, f: T -> U)
    ensures Map(Keep(s + [x], p), f) == Map(Keep(s, p), f) + (if p(x) then [f(x)] else [])
  {
    KeepSnoc(s, x, p);
    if p(x) {
      MapSnoc(Keep(s, p), x, f);
    } else {
      assert Keep(s + [x], p) == Keep(s, p);
    }
  }

  /** The same, for a loop index over `s`. */
  lemma MapKeepPrefix<T, U>(s: seq<T>, i: nat, p: T -> bool, f: T -> U)
    requires i < |s|
    ensures Map(Keep(s[..i + 1], p), f) == Map(Keep(s[..i], p), f) + (if p(s[i]) then [f(s[i])] else [])
  {
    assert s[..i + 1] == s[..i] + [s[i]];
    MapKeepSnoc(s[..i], s[i], p, f);
  }

  /**
   * A loop that appends `f(s[i])` to an accumulator exactly when `p(s[i])`
   * keeps the accumulator equal to its start plus the mapped, filtered prefix.
   */
  lemma AccumulateKept<T, U>(s: seq<T>, i: nat, p: T -> bool, f: T -> U, start: seq<U>, before: seq<U>, after: seq<U>)
    requires i < |s|
    requires before == start + Map(Keep(s[..i], p), f)
    requires after == before + (if p(s[i]) then [f(s[i])] else [])
    ensures after == start + Map(Keep(s[..i + 1], p), f)
  {
    MapKeepPrefix(s, i, p, f);
  }

  lemma AppendAssoc<T>(x: seq<T>, y: seq<T>, z: seq<T>)
    ensures (x + y) + z == x + (y + z)
  {
  }

  lemma AppendFour<T>(b: seq<T>, w: seq<T>, x: seq<T>, y: seq<T>, z: seq<T>)
    ensures b + w + x + y + z == b + (w + x + y + z)
  {
  }

  lemma MapAppend<T, U>(a: seq<T>, b: seq<T>, f: T -> U)
    ensures Map(a + b, f) == Map(a, f) + Map(b, f)
  {
  }

  /** Filtering and mapping a concatenation is concatenating the filtered and mapped parts. */
  lemma MapKeepAppend<T, U>(a: seq<T>, b: seq<T>, p: T -> bool, f: T -> U)
    ensures Map(Keep(a + b, p), f) == Map(Keep(a, p), f) + Map(Keep(b, p), f)
  {
    KeepAppend(a, b, p);
    MapAppend(Keep(a, p), Keep(b, p), f);
  }
}
