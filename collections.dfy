/** The array operations the components use on their record lists:
    `filter`, `map` that replaces by id, `find`, `some`, `new Set(...)` and `reduce` sums. */
module Collections {
  import opened Wrappers

  /** `s.filter(p)`: the elements of s that satisfy p, in their order in s. */
  function Filter<T(!new)>(s: seq<T>, p: T -> bool): (r: seq<T>)
    ensures |r| <= |s|
    ensures forall i :: 0 <= i < |r| ==> p(r[i])
    ensures forall x :: x in r <==> x in s && p(x)
    decreases |s|
  {
    if s == [] then []
    else if p(s[0]) then [s[0]] + Filter(s[1..], p)
    else Filter(s[1..], p)
  }

  /** Filtering commutes with concatenation, so the kept elements keep their order. */
  lemma {:induction false} FilterAppend<T(!new)>(a: seq<T>, b: seq<T>, p: T -> bool)
    ensures Filter(a + b, p) == Filter(a, p) + Filter(b, p)
    decreases |a|
  {
    if a == [] {
      assert a + b == b;
    } else {
      assert (a + b)[1..] == a[1..] + b;
      FilterAppend(a[1..], b, p);
    }
  }

  /** When every element passes, the filter returns the whole list in order. */
  lemma {:induction false} FilterAll<T(!new)>(s: seq<T>, p: T -> bool)
    requires forall i :: 0 <= i < |s| ==> p(s[i])
    ensures Filter(s, p) == s
    decreases |s|
  {
    if s != [] {
      FilterAll(s[1..], p);
    }
  }

  /** When no element passes, the filter is empty. */
  lemma {:induction false} FilterNone<T(!new)>(s: seq<T>, p: T -> bool)
    requires forall i :: 0 <= i < |s| ==> !p(s[i])
    ensures Filter(s, p) == []
    decreases |s|
  {
    if s != [] {
      FilterNone(s[1..], p);
    }
  }

  /** Two filter passes are one pass over the conjunction. */
  lemma {:induction false} FilterFilter<T(!new)>(s: seq<T>, p: T -> bool, q: T -> bool, pq: T -> bool)
    requires forall x :: pq(x) == (p(x) && q(x))
    ensures Filter(Filter(s, p), q) == Filter(s, pq)
    decreases |s|
  {
    if s != [] {
      FilterFilter(s[1..], p, q, pq);
    }
  }

  /** Filters with the same verdict on every element agree. */
  lemma {:induction false} FilterSame<T(!new)>(s: seq<T>, p: T -> bool, q: T -> bool)
    requires forall i :: 0 <= i < |s| ==> p(s[i]) == q(s[i])
    ensures Filter(s, p) == Filter(s, q)
    decreases |s|
  {
    if s != [] {
      FilterSame(s[1..], p, q);
    }
  }

  /** The indices i with lo <= i < |s| and p(s[i]), in increasing order. */
  function KeptIndices<T(!new)>(s: seq<T>, p: T -> bool, lo: nat): seq<nat>
    decreases |s| - lo
  {
    if lo >= |s| then []
    else (if p(s[lo]) then [lo] else []) + KeptIndices(s, p, lo + 1)
  }

  /** r lists s at the indices ix, which increase and are exactly the indices from lo
      on whose elements satisfy p. */
  ghost predicate ListsAt<T>(s: seq<T>, p: T -> bool, lo: nat, r: seq<T>, ix: seq<nat>) {
    && |r| == |ix|
    && (forall k :: 0 <= k < |ix| ==> lo <= ix[k] < |s| && r[k] == s[ix[k]])
    && (forall k, m :: 0 <= k < m < |ix| ==> ix[k] < ix[m])
    && (forall i :: lo <= i < |s| ==> (i in ix <==> p(s[i])))
  }

  /** The filter of s[lo..] lists s at its kept indices: one element per index, in
      increasing index order, so that order and repetitions of the input are kept. */
  lemma {:induction false} FilterAtIndices<T(!new)>(s: seq<T>, p: T -> bool, lo: nat)
    requires lo <= |s|
    ensures ListsAt(s, p, lo, Filter(s[lo..], p), KeptIndices(s, p, lo))
    decreases |s| - lo
  {
    if lo < |s| {
      FilterAtIndices(s, p, lo + 1);
      var r, ix := Filter(s[lo + 1..], p), KeptIndices(s, p, lo + 1);
      assert s[lo..] == [s[lo]] + s[lo + 1..];
      if p(s[lo]) {
        FilterKeep(s[lo], s[lo + 1..], p);
        assert KeptIndices(s, p, lo) == [lo] + ix;
        ListsAtKeep(s, p, lo, r, ix);
      } else {
        FilterDrop(s[lo], s[lo + 1..], p);
        assert KeptIndices(s, p, lo) == ix;
        ListsAtDrop(s, p, lo, r, ix);
      }
    }
  }

  lemma FilterKeep<T(!new)>(x: T, t: seq<T>, p: T -> bool)
    requires p(x)
    ensures Filter([x] + t, p) == [x] + Filter(t, p)
  {
    assert ([x] + t)[1..] == t;
  }

  lemma FilterDrop<T(!new)>(x: T, t: seq<T>, p: T -> bool)
    requires !p(x)
    ensures Filter([x] + t, p) == Filter(t, p)
  {
    assert ([x] + t)[1..] == t;
  }

  /** A kept element at lo goes in front, with its index. */
  lemma ListsAtKeep<T>(s: seq<T>, p: T -> bool, lo: nat, r: seq<T>, ix: seq<nat>)
    requires lo < |s| && p(s[lo]) && ListsAt(s, p, lo + 1, r, ix)
    ensures ListsAt(s, p, lo, [s[lo]] + r, [lo] + ix)
  {
    var r', ix' := [s[lo]] + r, [lo] + ix;
    forall k | 0 <= k < |ix'| ensures lo <= ix'[k] < |s| && r'[k] == s[ix'[k]] {
      if k > 0 { assert ix'[k] == ix[k - 1] && r'[k] == r[k - 1]; }
    }
    forall k, m | 0 <= k < m < |ix'| ensures ix'[k] < ix'[m] {
      assert ix'[m] == ix[m - 1];
      if k > 0 { assert ix'[k] == ix[k - 1]; }
    }
    forall i | lo <= i < |s| ensures i in ix' <==> p(s[i]) {
      if i > lo { assert i in ix' <==> i in ix; }
    }
  }

  /** An element at lo that fails p is left out, and lo is not a kept index. */
  lemma ListsAtDrop<T>(s: seq<T>, p: T -> bool, lo: nat, r: seq<T>, ix: seq<nat>)
    requires lo < |s| && !p(s[lo]) && ListsAt(s, p, lo + 1, r, ix)
    ensures ListsAt(s, p, lo, r, ix)
  {
  }

  /** `s.filter(p)` is the subsequence of s at the increasing indices where p holds. */
  lemma FilterIsSubsequence<T(!new)>(s: seq<T>, p: T -> bool)
    ensures ListsAt(s, p, 0, Filter(s, p), KeptIndices(s, p, 0))
  {
    FilterAtIndices(s, p, 0);
    assert s[0..] == s;
  }

  /** `s.map(x => key(x) === id ? y : x)` */
  function ReplaceWhere<T(!new)>(s: seq<T>, key: T -> string, id: string, y: T): (r: seq<T>)
    ensures |r| == |s|
    ensures forall i :: 0 <= i < |s| ==> r[i] == (if key(s[i]) == id then y else s[i])
    decreases |s|
  {
    if s == [] then []
    else [if key(s[0]) == id then y else s[0]] + ReplaceWhere(s[1..], key, id, y)
  }

  /** `s.some(x => key(x) === id)` */
  predicate HasKey<T(!new)>(s: seq<T>, key: T -> string, id: string) {
    exists i :: 0 <= i < |s| && key(s[i]) == id
  }

  /** `x => key(x) !== id` */
  function KeyIsNot<T>(key: T -> string, id: string): T -> bool {
    x => key(x) != id
  }

  /** `x => key(x) === id` */
  function KeyIs<T>(key: T -> string, id: string): T -> bool {
    x => key(x) == id
  }

  /** `s.filter(x => key(x) !== id)`: by FilterIsSubsequence, the rest keep their order
      and their repeats. */
  function RemoveKey<T(!new)>(s: seq<T>, key: T -> string, id: string): (r: seq<T>)
    ensures r == Filter(s, KeyIsNot(key, id))
    ensures !HasKey(r, key, id)
    ensures forall x :: x in r <==> x in s && key(x) != id
  {
    Filter(s, KeyIsNot(key, id))
  }

  /** Removing a key nobody has changes nothing. */
  lemma RemoveKeyAbsent<T(!new)>(s: seq<T>, key: T -> string, id: string)
    requires !HasKey(s, key, id)
    ensures RemoveKey(s, key, id) == s
  {
    FilterAll(s, KeyIsNot(key, id));
  }

  /** Removing a key from two lists joined is removing it from each. */
  lemma RemoveKeyAppend<T(!new)>(a: seq<T>, b: seq<T>, key: T -> string, id: string)
    ensures RemoveKey(a + b, key, id) == RemoveKey(a, key, id) + RemoveKey(b, key, id)
  {
    FilterAppend(a, b, KeyIsNot(key, id));
  }

  /** Removing a key keeps the other keys unique. */
  lemma RemoveKeyUnique<T(!new)>(s: seq<T>, key: T -> string, id: string)
    requires UniqueKeys(s, key)
    ensures UniqueKeys(RemoveKey(s, key, id), key)
  {
    FilterKeepsUnique(s, key, KeyIsNot(key, id));
  }

  /** `s.filter(x => key(x) === id)`: what RemoveKey drops. */
  function KeepKey<T(!new)>(s: seq<T>, key: T -> string, id: string): (r: seq<T>)
    ensures r == Filter(s, KeyIs(key, id))
    ensures forall x :: x in r <==> x in s && key(x) == id
  {
    Filter(s, KeyIs(key, id))
  }

  /** Removing a key leaves the sum of everything else. */
  lemma RemoveKeySum<T(!new)>(s: seq<T>, key: T -> string, id: string, f: T -> int)
    ensures SumOf(RemoveKey(s, key, id), f) + SumOf(KeepKey(s, key, id), f) == SumOf(s, f)
  {
    FilterPartitionSum(s, KeyIsNot(key, id), KeyIs(key, id), f);
  }

  /** No two elements share a key. */
  predicate UniqueKeys<T(!new)>(s: seq<T>, key: T -> string) {
    forall i, j :: 0 <= i < j < |s| ==> key(s[i]) != key(s[j])
  }

  lemma {:induction false} FilterKeepsUnique<T(!new)>(s: seq<T>, key: T -> string, p: T -> bool)
    requires UniqueKeys(s, key)
    ensures UniqueKeys(Filter(s, p), key)
    decreases |s|
  {
    if s != [] {
      assert UniqueKeys(s[1..], key);
      FilterKeepsUnique(s[1..], key, p);
      if p(s[0]) {
        var r := Filter(s, p);
        forall j | 0 < j < |r| ensures key(r[0]) != key(r[j]) {
          assert r[j] in s[1..];
        }
      }
    }
  }

  /** `s.find(p)`: the first element satisfying p, or undefined. */
  function FindFirst<T(!new)>(s: seq<T>, p: T -> bool): (r: Option<T>)
    ensures r.None? <==> forall i :: 0 <= i < |s| ==> !p(s[i])
    ensures r.Some? ==> exists i :: 0 <= i < |s| && s[i] == r.value && p(s[i])
                                    && forall j :: 0 <= j < i ==> !p(s[j])
    decreases |s|
  {
    if s == [] then None
    else if p(s[0]) then Some(s[0])
    else
      var r := FindFirst(s[1..], p);
      if r.Some? then
        ghost var i :| 0 <= i < |s[1..]| && s[1..][i] == r.value && p(s[1..][i])
                       && forall j :: 0 <= j < i ==> !p(s[1..][j]);
        assert s[i + 1] == r.value && forall j :: 0 <= j < i + 1 ==> !p(s[j]);
        r
      else r
  }

  /** `Array.from(new Set(s))`: each value once, in order of first occurrence. */
  function Distinct<T(==,!new)>(s: seq<T>): (r: seq<T>)
    ensures forall x :: x in r <==> x in s
    ensures forall i, j :: 0 <= i < j < |r| ==> r[i] != r[j]
    decreases |s|
  {
    if s == [] then []
    else
      var d := Distinct(s[..|s| - 1]);
      assert forall x :: x in s <==> x in s[..|s| - 1] || x == s[|s| - 1];
      if s[|s| - 1] in d then d else d + [s[|s| - 1]]
  }

  /** `s.indexOf(x)`: the position of the first occurrence of x in s. */
  function FirstIndex<T(==)>(s: seq<T>, x: T): (i: nat)
    requires x in s
    ensures i < |s| && s[i] == x
    ensures forall j :: 0 <= j < i ==> s[j] != x
    decreases |s|
  {
    if s[0] == x then 0
    else
      assert x in s[1..];
      1 + FirstIndex(s[1..], x)
  }

  /** A value that occurs in the first n elements has its first occurrence there. */
  lemma FirstIndexPrefix<T>(s: seq<T>, n: nat, x: T)
    requires n <= |s| && x in s[..n]
    ensures x in s && FirstIndex(s, x) == FirstIndex(s[..n], x)
  {
    var i, k := FirstIndex(s, x), FirstIndex(s[..n], x);
    assert s[k] == x;        // so i <= k < n
    assert s[..n][i] == x;   // so k <= i
  }

  /** The values of r all occur in s, in increasing order of their first occurrence. */
  ghost predicate FirstSeenOrder<T>(r: seq<T>, s: seq<T>) {
    forall i, j :: 0 <= i < j < |r| ==> r[i] in s && r[j] in s && FirstIndex(s, r[i]) < FirstIndex(s, r[j])
  }

  /** The values of `Distinct(s)` come in increasing order of their first occurrence in s. */
  lemma {:induction false} DistinctOrder<T(!new)>(s: seq<T>)
    ensures FirstSeenOrder(Distinct(s), s)
    decreases |s|
  {
    if s == [] {
      assert Distinct(s) == [];
    } else {
      var n := |s| - 1;
      var pre, d, r := s[..n], Distinct(s[..n]), Distinct(s);
      DistinctOrder(pre);
      forall i | 0 <= i < |d| ensures d[i] in s && FirstIndex(s, d[i]) == FirstIndex(pre, d[i]) {
        FirstIndexPrefix(s, n, d[i]);
      }
      if s[n] in d {
        assert r == d;
        forall i, j | 0 <= i < j < |r|
          ensures r[i] in s && r[j] in s && FirstIndex(s, r[i]) < FirstIndex(s, r[j])
        {
          assert FirstIndex(pre, d[i]) < FirstIndex(pre, d[j]);
        }
      } else {
        assert r == d + [s[n]];
        assert s[n] !in pre;
        assert FirstIndex(s, s[n]) == n;
        forall i, j | 0 <= i < j < |r|
          ensures r[i] in s && r[j] in s && FirstIndex(s, r[i]) < FirstIndex(s, r[j])
        {
          if j < |d| {
            assert r[i] == d[i] && r[j] == d[j];
          } else {
            assert r[i] == d[i] && r[j] == s[n];
          }
        }
      }
    }
  }

  /** `s.reduce((sum, x) => sum + f(x), 0)` */
  function SumOf<T(!new)>(s: seq<T>, f: T -> int): int
    decreases |s|
  {
    if s == [] then 0 else SumOf(s[..|s| - 1], f) + f(s[|s| - 1])
  }

  lemma {:induction false} SumOfAppend<T(!new)>(a: seq<T>, b: seq<T>, f: T -> int)
    ensures SumOf(a + b, f) == SumOf(a, f) + SumOf(b, f)
    decreases |b|
  {
    if b == [] {
      assert a + b == a;
    } else {
      assert (a + b)[..|a + b| - 1] == a + b[..|b| - 1];
      SumOfAppend(a, b[..|b| - 1], f);
    }
  }

  /** Sums of two parts of each element add up to the sum of the whole. */
  lemma {:induction false} SumOfSplit<T(!new)>(s: seq<T>, f: T -> int, g: T -> int, h: T -> int)
    requires forall x :: h(x) == f(x) + g(x)
    ensures SumOf(s, h) == SumOf(s, f) + SumOf(s, g)
    decreases |s|
  {
    if s != [] {
      SumOfSplit(s[..|s| - 1], f, g, h);
    }
  }

  /** a is the beginning of b. */
  ghost predicate IsPrefix<T(!new)>(a: seq<T>, b: seq<T>) {
    |a| <= |b| && b[..|a|] == a
  }

  lemma PrefixOfAppend<T(!new)>(a: seq<T>, b: seq<T>)
    ensures IsPrefix(a, a + b)
  {
    assert (a + b)[..|a|] == a;
  }

  lemma PrefixTrans<T(!new)>(a: seq<T>, b: seq<T>, c: seq<T>)
    requires IsPrefix(a, b) && IsPrefix(b, c)
    ensures IsPrefix(a, c)
  {
    assert c[..|a|] == c[..|b|][..|a|];
  }

  /** A piece that follows `pre` at the start of `whole` sits at offset |pre|. */
  lemma PieceAt<T(!new)>(pre: seq<T>, piece: seq<T>, whole: seq<T>)
    requires IsPrefix(pre + piece, whole)
    ensures |pre| + |piece| <= |whole|
    ensures whole[|pre|..|pre| + |piece|] == piece
  {
    assert whole[|pre|..|pre| + |piece|] == (pre + piece)[|pre|..];
  }

  /** `s.map(f)` */
  function Map<T, U>(s: seq<T>, f: T -> U): (r: seq<U>)
    ensures |r| == |s|
    ensures forall i :: 0 <= i < |s| ==> r[i] == f(s[i])
    decreases |s|
  {
    if s == [] then [] else Map(s[..|s| - 1], f) + [f(s[|s| - 1])]
  }

  /** Summing only where p holds is summing over the filtered list. */
  lemma {:induction false} SumOfFilter<T(!new)>(s: seq<T>, p: T -> bool, f: T -> int, g: T -> int)
    requires forall x :: g(x) == (if p(x) then f(x) else 0)
    ensures SumOf(s, g) == SumOf(Filter(s, p), f)
    decreases |s|
  {
    if s != [] {
      SumOfFilter(s[1..], p, f, g);
      assert s == [s[0]] + s[1..];
      SumOfAppend([s[0]], s[1..], g);
      assert SumOf([s[0]], g) == g(s[0]) by { assert [s[0]][..0] == []; }
      if p(s[0]) {
        assert Filter(s, p) == [s[0]] + Filter(s[1..], p);
        SumOfAppend([s[0]], Filter(s[1..], p), f);
        assert SumOf([s[0]], f) == f(s[0]) by { assert [s[0]][..0] == []; }
      }
    }
  }

  /** A filter and its opposite split a sum in two. */
  lemma FilterPartitionSum<T(!new)>(s: seq<T>, p: T -> bool, q: T -> bool, f: T -> int)
    requires forall x :: q(x) == !p(x)
    ensures SumOf(Filter(s, p), f) + SumOf(Filter(s, q), f) == SumOf(s, f)
  {
    var g1 := x => if p(x) then f(x) else 0;
    var g2 := x => if q(x) then f(x) else 0;
    SumOfFilter(s, p, f, g1);
    SumOfFilter(s, q, f, g2);
    SumOfSplit(s, g1, g2, f);
  }

  /** Where each of nine consecutive pieces sits in their concatenation. */
  lemma NinePieces<T(!new)>(a0: seq<T>, a1: seq<T>, a2: seq<T>, a3: seq<T>, a4: seq<T>,
                            a5: seq<T>, a6: seq<T>, a7: seq<T>, a8: seq<T>)
    ensures var L := a0 + a1 + a2 + a3 + a4 + a5 + a6 + a7 + a8;
            var o1 := |a0|;
            var o2 := o1 + |a1|;
            var o3 := o2 + |a2|;
            var o4 := o3 + |a3|;
            var o5 := o4 + |a4|;
            var o6 := o5 + |a5|;
            var o7 := o6 + |a6|;
            var o8 := o7 + |a7|;
            |L| == o8 + |a8|
            && L[..o1] == a0 && L[o1..o2] == a1 && L[o2..o3] == a2 && L[o3..o4] == a3
            && L[o4..o5] == a4 && L[o5..o6] == a5 && L[o6..o7] == a6 && L[o7..o8] == a7
            && L[o8..] == a8
  {
    var A1 := a0 + a1;
    var A2 := A1 + a2;
    var A3 := A2 + a3;
    var A4 := A3 + a4;
    var A5 := A4 + a5;
    var A6 := A5 + a6;
    var A7 := A6 + a7;
    var L := A7 + a8;
    PrefixOfAppend(a0, a1);
    PrefixOfAppend(A1, a2);
    PrefixOfAppend(A2, a3);
    PrefixOfAppend(A3, a4);
    PrefixOfAppend(A4, a5);
    PrefixOfAppend(A5, a6);
    PrefixOfAppend(A6, a7);
    PrefixOfAppend(A7, a8);
    PrefixTrans(A6, A7, L);
    PrefixTrans(A5, A6, L);
    PrefixTrans(A4, A5, L);
    PrefixTrans(A3, A4, L);
    PrefixTrans(A2, A3, L);
    PrefixTrans(A1, A2, L);
    PrefixTrans(a0, A1, L);
    PieceAt(a0, a1, L);
    PieceAt(A1, a2, L);
    PieceAt(A2, a3, L);
    PieceAt(A3, a4, L);
    PieceAt(A4, a5, L);
    PieceAt(A5, a6, L);
    PieceAt(A6, a7, L);
    assert L[|A7|..] == a8;
  }
}
