/**
 * The stable sort that `Array.prototype.sort` performs since ECMAScript 2019,
 * for a comparator of the form `(a, b) => key(a) - key(b)`: the result is
 * ordered by non-decreasing key, and elements whose keys compare equal keep
 * the order they had in the input.  A descending comparator such as
 * `(a, b) => key(b) - key(a)` is the same sort on the negated key.
 *
 * The sort is written as an insertion sort: each element, taken in input
 * order, goes after every element already placed whose key is not greater.
 */
module Sorting {

  /** Keys never decrease from left to right. */
  predicate SortedBy<T>(s: seq<T>, key: T -> real)
  {
    forall i, j :: 0 <= i < j < |s| ==> key(s[i]) <= key(s[j])
  }

  /** No two positions of `s` hold elements whose keys compare equal. */
  predicate DistinctKeys<T>(s: seq<T>, key: T -> real)
  {
    forall i, j :: 0 <= i < j < |s| ==> key(s[i]) != key(s[j])
  }

  /** The elements of `s` whose key is `k`, in the order they occur in `s`. */
  function KeyClass<T>(s: seq<T>, key: T -> real, k: real): seq<T>
  {
    if s == [] then []
    else KeyClass(s[..|s| - 1], key, k) + (if key(s[|s| - 1]) == k then [s[|s| - 1]] else [])
  }

  function Reverse<T>(s: seq<T>): (r: seq<T>)
    ensures |r| == |s|
    ensures forall i :: 0 <= i < |s| ==> r[i] == s[|s| - 1 - i]
  {
    seq(|s|, i requires 0 <= i < |s| => s[|s| - 1 - i])
  }

  /** Where `Insert` puts `x`: after the longest prefix it does not scan past. */
  function InsertPos<T>(r: seq<T>, x: T, key: T -> real): (p: nat)
    ensures p <= |r|
  {
    if r == [] || key(r[|r| - 1]) <= key(x) then |r|
    else InsertPos(r[..|r| - 1], x, key)
  }

  /** Scans `r` from its end and puts `x` after the last element whose key is not greater. */
  function Insert<T>(r: seq<T>, x: T, key: T -> real): seq<T>
  {
    if r == [] || key(r[|r| - 1]) <= key(x) then r + [x]
    else Insert(r[..|r| - 1], x, key) + [r[|r| - 1]]
  }

  function SortBy<T>(s: seq<T>, key: T -> real): seq<T>
  {
    if s == [] then [] else Insert(SortBy(s[..|s| - 1], key), s[|s| - 1], key)
  }

  /** `Insert` splits `r` at `InsertPos`: every element after `x` has a greater key, and,
      when `r` is sorted, every element before it has a key that is not greater. */
  lemma {:induction false} InsertAt<T>(r: seq<T>, x: T, key: T -> real)
    ensures Insert(r, x, key) == r[..InsertPos(r, x, key)] + [x] + r[InsertPos(r, x, key)..]
    ensures forall j :: InsertPos(r, x, key) <= j < |r| ==> key(x) < key(r[j])
    ensures SortedBy(r, key) ==> forall j :: 0 <= j < InsertPos(r, x, key) ==> key(r[j]) <= key(x)
  {
    if r == [] || key(r[|r| - 1]) <= key(x) {
      assert r[..|r|] == r && r[|r|..] == [];
    } else {
      var r', last := r[..|r| - 1], r[|r| - 1];
      InsertAt(r', x, key);
      var p := InsertPos(r', x, key);
      assert r'[..p] == r[..p];
      assert r'[p..] + [last] == r[p..];
      assert SortedBy(r, key) ==> SortedBy(r', key);
    }
  }

  /** Inserting adds exactly one occurrence of `x`. */
  lemma {:induction false} InsertPermutes<T>(r: seq<T>, x: T, key: T -> real)
    ensures |Insert(r, x, key)| == |r| + 1
    ensures multiset(Insert(r, x, key)) == multiset(r) + multiset{x}
  {
    if r != [] && key(r[|r| - 1]) > key(x) {
      var r', last := r[..|r| - 1], r[|r| - 1];
      InsertPermutes(r', x, key);
      assert r == r' + [last];
      calc {
        multiset(Insert(r, x, key));
        multiset(Insert(r', x, key) + [last]);
        multiset(Insert(r', x, key)) + multiset{last};
        multiset(r') + multiset{x} + multiset{last};
        multiset(r' + [last]) + multiset{x};
      }
    }
  }

  /** Sorting keeps the elements, with their multiplicities. */
  lemma {:induction false} SortByPermutes<T>(s: seq<T>, key: T -> real)
    ensures |SortBy(s, key)| == |s|
    ensures multiset(SortBy(s, key)) == multiset(s)
  {
    if s != [] {
      var s', x := s[..|s| - 1], s[|s| - 1];
      SortByPermutes(s', key);
      InsertPermutes(SortBy(s', key), x, key);
      assert s == s' + [x];
      calc {
        multiset(SortBy(s, key));
        multiset(Insert(SortBy(s', key), x, key));
        multiset(SortBy(s', key)) + multiset{x};
        multiset(s') + multiset{x};
        multiset(s' + [x]);
      }
    }
  }

  lemma {:induction false} SortBySorts<T>(s: seq<T>, key: T -> real)
    ensures SortedBy(SortBy(s, key), key)
  {
    if s != [] {
      var s', x := s[..|s| - 1], s[|s| - 1];
      SortBySorts(s', key);
      var r := SortBy(s', key);
      InsertAt(r, x, key);
      var p := InsertPos(r, x, key);
      var t := r[..p] + [x] + r[p..];
      forall i, j | 0 <= i < j < |t| ensures key(t[i]) <= key(t[j]) {
        if j < p {
          assert t[i] == r[i] && t[j] == r[j];
        } else if j == p {
          assert t[i] == r[i];
        } else if i < p {
          assert t[i] == r[i] && t[j] == r[j - 1];
        } else if i == p {
          assert t[j] == r[j - 1];
        } else {
          assert t[i] == r[i - 1] && t[j] == r[j - 1];
        }
      }
    }
  }

  lemma {:induction false} KeyClassAppend<T>(a: seq<T>, b: seq<T>, key: T -> real, k: real)
    ensures KeyClass(a + b, key, k) == KeyClass(a, key, k) + KeyClass(b, key, k)
  {
    if b == [] {
      assert a + b == a;
    } else {
      KeyClassAppend(a, b[..|b| - 1], key, k);
      assert (a + b)[..|a + b| - 1] == a + b[..|b| - 1];
    }
  }

  lemma {:induction false} KeyClassEmpty<T>(s: seq<T>, key: T -> real, k: real)
    requires forall j :: 0 <= j < |s| ==> key(s[j]) != k
    ensures KeyClass(s, key, k) == []
  {
    if s != [] {
      KeyClassEmpty(s[..|s| - 1], key, k);
    }
  }

  lemma KeyClassSingle<T>(x: T, key: T -> real, k: real)
    ensures KeyClass([x], key, k) == if key(x) == k then [x] else []
  {
    assert [x][..0] == [];
  }

  /** Stability: for every key, the elements with that key appear in the sorted
      output in exactly the order they had in the input. */
  lemma {:induction false} SortByStable<T>(s: seq<T>, key: T -> real, k: real)
    ensures KeyClass(SortBy(s, key), key, k) == KeyClass(s, key, k)
  {
    if s != [] {
      var s', x := s[..|s| - 1], s[|s| - 1];
      var r := SortBy(s', key);
      var p := InsertPos(r, x, key);
      var a, b := r[..p], r[p..];
      var cx := KeyClass([x], key, k);
      assert SortBy(s, key) == a + [x] + b by {
        InsertAt(r, x, key);
      }
      calc {
        KeyClass(a + [x] + b, key, k);
        { KeyClassAppend(a + [x], b, key, k); KeyClassAppend(a, [x], key, k); }
        KeyClass(a, key, k) + cx + KeyClass(b, key, k);
        { KeyClassSingle(x, key, k);
          if key(x) == k { InsertAt(r, x, key); KeyClassEmpty(b, key, k); } }
        KeyClass(a, key, k) + KeyClass(b, key, k) + cx;
        { KeyClassAppend(a, b, key, k); assert r == a + b; }
        KeyClass(r, key, k) + cx;
        { SortByStable(s', key, k); }
        KeyClass(s', key, k) + cx;
        { KeyClassAppend(s', [x], key, k); assert s == s' + [x]; }
        KeyClass(s, key, k);
      }
    }
  }

  /** Every element of a sorted copy of `s'` has a key different from that of the
      element that follows `s'` in `s`. */
  lemma KeysDifferFromLast<T>(s: seq<T>, key: T -> real)
    requires s != [] && DistinctKeys(s, key)
    ensures forall y :: y in SortBy(s[..|s| - 1], key) ==> key(y) != key(s[|s| - 1])
  {
    var s' := s[..|s| - 1];
    SortByPermutes(s', key);
    forall y | y in SortBy(s', key) ensures key(y) != key(s[|s| - 1]) {
      assert y in multiset(s');
      var i :| 0 <= i < |s'| && s'[i] == y;
      assert s[i] == y;
    }
  }

  /** Inserting into the reverse of a sorted sequence under the negated key puts the new
      element at the mirror image of where it goes under the key, when its key is new. */
  /** `InsertPos` is the split point between the keys not greater than that of `x`
      and the keys greater than it. */
  lemma {:induction false} InsertPosIs<T>(r: seq<T>, x: T, key: T -> real, m: nat)
    requires m <= |r|
    requires forall j :: 0 <= j < m ==> key(r[j]) <= key(x)
    requires forall j :: m <= j < |r| ==> key(x) < key(r[j])
    ensures InsertPos(r, x, key) == m
  {
    if r != [] && key(x) < key(r[|r| - 1]) {
      InsertPosIs(r[..|r| - 1], x, key, m);
    }
  }

  /** Under the negated key, `x` goes into `Reverse(r)` at the mirror image of its place in `r`. */
  lemma MirroredPosition<T>(r: seq<T>, x: T, key: T -> real, neg: T -> real)
    requires forall y :: neg(y) == -key(y)
    requires SortedBy(r, key)
    requires forall y :: y in r ==> key(y) != key(x)
    ensures InsertPos(Reverse(r), x, neg) == |r| - InsertPos(r, x, key)
  {
    var n := |r|;
    var p := InsertPos(r, x, key);
    var rr := Reverse(r);
    InsertAt(r, x, key);
    assert forall j :: 0 <= j < n ==> rr[j] == r[n - 1 - j] && r[n - 1 - j] in r;
    InsertPosIs(rr, x, neg, n - p);
  }

  lemma ReverseAround<T>(a: seq<T>, x: T, b: seq<T>)
    ensures Reverse(a + [x] + b) == Reverse(b) + [x] + Reverse(a)
  {
  }

  /** Inserting into the reverse of a sorted sequence under the negated key puts the new
      element at the mirror image of where it goes under the key, when its key is new. */
  lemma {:induction false} InsertNegatedMirrors<T>(r: seq<T>, x: T, key: T -> real, neg: T -> real)
    requires forall y :: neg(y) == -key(y)
    requires SortedBy(r, key)
    requires forall y :: y in r ==> key(y) != key(x)
    ensures Insert(Reverse(r), x, neg) == Reverse(Insert(r, x, key))
  {
    var p := InsertPos(r, x, key);
    var rr := Reverse(r);
    MirroredPosition(r, x, key, neg);
    var a, b := r[..p], r[p..];
    calc {
      Insert(rr, x, neg);
      { InsertAt(rr, x, neg); }
      rr[..|r| - p] + [x] + rr[|r| - p..];
      { assert rr[..|r| - p] == Reverse(b); assert rr[|r| - p..] == Reverse(a); }
      Reverse(b) + [x] + Reverse(a);
      { ReverseAround(a, x, b); }
      Reverse(a + [x] + b);
      { InsertAt(r, x, key); }
      Reverse(Insert(r, x, key));
    }
  }

  /** When no two keys compare equal, sorting on the negated key gives the exact
      reverse of sorting on the key. */
  lemma {:induction false} SortByNegatedIsReverse<T>(s: seq<T>, key: T -> real, neg: T -> real)
    requires forall x :: neg(x) == -key(x)
    requires DistinctKeys(s, key)
    ensures SortBy(s, neg) == Reverse(SortBy(s, key))
  {
    if s != [] {
      var s', x := s[..|s| - 1], s[|s| - 1];
      assert DistinctKeys(s', key);
      SortByNegatedIsReverse(s', key, neg);
      var r := SortBy(s', key);
      SortBySorts(s', key);
      KeysDifferFromLast(s, key);
      InsertNegatedMirrors(r, x, key, neg);
    }
  }
}
