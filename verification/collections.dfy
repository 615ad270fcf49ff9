/** Facts about sequences used by the aggregation: duplicates, and projections of permutations. */
module Collections {

  /** No element occurs twice. */
  predicate Distinct<T(==)>(s: seq<T>)
  {
    forall i, j :: 0 <= i < j < |s| ==> s[i] != s[j]
  }

  /** The elements of `s` that satisfy `f`, in order, like `Array.prototype.filter`. */
  function Filter<T>(s: seq<T>, f: T -> bool): (r: seq<T>)
    ensures forall x :: x in r ==> f(x)
  {
    if s == [] then [] else Filter(s[..|s| - 1], f) + (if f(s[|s| - 1]) then [s[|s| - 1]] else [])
  }

  /** The elements of `s` that do not satisfy `f`, in order. */
  function Reject<T>(s: seq<T>, f: T -> bool): (r: seq<T>)
    ensures forall x :: x in r ==> !f(x)
  {
    if s == [] then [] else Reject(s[..|s| - 1], f) + (if f(s[|s| - 1]) then [] else [s[|s| - 1]])
  }

  /** Two predicates that agree on every element keep the same elements. */
  lemma {:induction false} FilterAgreeing<T>(s: seq<T>, f: T -> bool, g: T -> bool)
    requires forall x :: f(x) == g(x)
    ensures Filter(s, f) == Filter(s, g)
  {
    if s != [] {
      FilterAgreeing(s[..|s| - 1], f, g);
    }
  }

  /** Together the kept and the rejected elements are the whole sequence. */
  lemma {:induction false} FilterRejectPermutes<T>(s: seq<T>, f: T -> bool)
    ensures multiset(Filter(s, f)) + multiset(Reject(s, f)) == multiset(s)
  {
    if s != [] {
      var init, x := s[..|s| - 1], s[|s| - 1];
      FilterRejectPermutes(init, f);
      assert s == init + [x];
    }
  }

  /** `Filter` keeps each element that satisfies `f` as often as `s` holds it, and no other. */
  lemma {:induction false} FilterCounts<T>(s: seq<T>, f: T -> bool)
    ensures forall x :: multiset(Filter(s, f))[x] == if f(x) then multiset(s)[x] else 0
  {
    if s != [] {
      var init, y := s[..|s| - 1], s[|s| - 1];
      FilterCounts(init, f);
      assert s == init + [y];
    }
  }

  /** Filtering a concatenation filters each part, keeping their order. */
  lemma {:induction false} FilterAppend<T>(a: seq<T>, b: seq<T>, f: T -> bool)
    ensures Filter(a + b, f) == Filter(a, f) + Filter(b, f)
  {
    if b == [] {
      assert a + b == a;
    } else {
      var b', y := b[..|b| - 1], b[|b| - 1];
      assert (a + b)[..|a + b| - 1] == a + b';
      assert (a + b)[|a + b| - 1] == y;
      FilterAppend(a, b', f);
    }
  }

  /** Filtering twice with the same predicate is filtering once. */
  lemma {:induction false} FilterIdempotent<T>(s: seq<T>, f: T -> bool)
    ensures Filter(Filter(s, f), f) == Filter(s, f)
  {
    if s != [] {
      var init, y := s[..|s| - 1], s[|s| - 1];
      FilterIdempotent(init, f);
      var tail := if f(y) then [y] else [];
      FilterAppend(Filter(init, f), tail, f);
      assert Filter(tail, f) == tail by {
        if tail != [] {
          assert tail[..0] == [];
        }
      }
    }
  }

  /** When no element satisfies `f`, nothing is kept and nothing is moved. */
  lemma {:induction false} FilterNone<T>(s: seq<T>, f: T -> bool)
    requires forall x :: x in s ==> !f(x)
    ensures Filter(s, f) == [] && Reject(s, f) == s
  {
    if s != [] {
      FilterNone(s[..|s| - 1], f);
      assert s == s[..|s| - 1] + [s[|s| - 1]];
    }
  }

  /** A prefix one element longer. */
  lemma TakeOneMore<T>(s: seq<T>, j: int)
    requires 0 <= j < |s|
    ensures s[..j + 1] == s[..j] + [s[j]]
  {
  }

  /** `s` with `f` applied to every element, like `Array.prototype.map`. */
  function MapSeq<T, U>(s: seq<T>, f: T -> U): (r: seq<U>)
    ensures |r| == |s|
    ensures forall i :: 0 <= i < |s| ==> r[i] == f(s[i])
  {
    seq(|s|, i requires 0 <= i < |s| => f(s[i]))
  }

  /** A sequence without duplicates holds each of its elements exactly once. */
  lemma {:induction false} DistinctCounts<T>(s: seq<T>)
    requires Distinct(s)
    ensures forall x :: multiset(s)[x] == if x in s then 1 else 0
  {
    if s != [] {
      var s', y := s[..|s| - 1], s[|s| - 1];
      assert Distinct(s');
      DistinctCounts(s');
      assert s == s' + [y];
      assert y !in s';
    }
  }

  /** Two sequences with the same elements, counted with multiplicity, and one of them
      without duplicates: the other has none either. */
  lemma DistinctTransfers<T>(a: seq<T>, b: seq<T>)
    requires multiset(a) == multiset(b) && Distinct(a)
    ensures Distinct(b)
  {
    DistinctCounts(a);
    forall i, j | 0 <= i < j < |b| ensures b[i] != b[j] {
      assert b == b[..j] + b[j..];
      assert b[j] in multiset(b[j..]);
      assert multiset(b)[b[j]] == multiset(b[..j])[b[j]] + multiset(b[j..])[b[j]];
      assert b[j] !in b[..j];
      assert b[i] in b[..j];
    }
  }

  lemma MapSeqAppend<T, U>(a: seq<T>, b: seq<T>, f: T -> U)
    ensures MapSeq(a + b, f) == MapSeq(a, f) + MapSeq(b, f)
  {
  }

  /** Taking the same element out of two sequences with the same elements leaves sequences
      with the same elements. */
  lemma RemoveMatching<T>(a': seq<T>, x: T, b1: seq<T>, b2: seq<T>)
    requires multiset(a' + [x]) == multiset(b1 + [x] + b2)
    ensures multiset(a') == multiset(b1 + b2)
  {
    calc {
      multiset(a') + multiset{x};
      multiset(a' + [x]);
      multiset(b1 + [x] + b2);
      multiset(b1 + b2) + multiset{x};
    }
    forall y ensures multiset(a')[y] == multiset(b1 + b2)[y] {
      assert (multiset(a') + multiset{x})[y] == (multiset(b1 + b2) + multiset{x})[y];
    }
  }

  /** Putting one image back on both sides keeps the images equal as multisets. */
  lemma MapAround<T, U>(a': seq<T>, x: T, b1: seq<T>, b2: seq<T>, f: T -> U)
    requires multiset(MapSeq(a', f)) == multiset(MapSeq(b1 + b2, f))
    ensures multiset(MapSeq(a' + [x], f)) == multiset(MapSeq(b1 + [x] + b2, f))
  {
    MapSeqAppend(a', [x], f);
    MapSeqAppend(b1, b2, f);
    MapSeqAppend(b1 + [x], b2, f);
    MapSeqAppend(b1, [x], f);
  }

  /** Mapping two sequences that hold the same elements gives sequences that hold the same images. */
  lemma {:induction false} MapPermutes<T, U>(a: seq<T>, b: seq<T>, f: T -> U)
    requires multiset(a) == multiset(b)
    ensures multiset(MapSeq(a, f)) == multiset(MapSeq(b, f))
    decreases |a|
  {
    if a != [] {
      var a', x := a[..|a| - 1], a[|a| - 1];
      assert a == a' + [x];
      assert x in multiset(b);
      var k :| 0 <= k < |b| && b[k] == x;
      var b1, b2 := b[..k], b[k + 1..];
      assert b == b1 + [x] + b2;
      RemoveMatching(a', x, b1, b2);
      MapPermutes(a', b1 + b2, f);
      MapAround(a', x, b1, b2, f);
    }
  }
}
