/** `Array.prototype.sort` with a comparator `(a, b) => key(b) - key(a)`, as the dashboard
    uses it: a stable sort into descending key order. It is written as insertion sort,
    which yields the one stable order. */
module Sorting {
  import opened Seqs

  ghost predicate SortedDesc<T>(s: seq<T>, key: T -> real) {
    forall i, j :: 0 <= i < j < |s| ==> key(s[i]) >= key(s[j])
  }

  /** How many leading elements of `t` have a key at least that of `x`. */
  function InsertPos<T>(t: seq<T>, x: T, key: T -> real): (n: nat)
    ensures n <= |t|
    ensures forall m :: 0 <= m < n ==> key(t[m]) >= key(x)
    ensures n < |t| ==> key(t[n]) < key(x)
  {
    if |t| == 0 || key(t[0]) < key(x) then 0 else 1 + InsertPos(t[1..], x, key)
  }

  /** `x` placed just before the first element whose key is smaller than its own. */
  function Insert<T>(t: seq<T>, x: T, key: T -> real): seq<T> {
    if |t| == 0 then [x]
    else if key(t[0]) < key(x) then [x] + t
    else [t[0]] + Insert(t[1..], x, key)
  }

  /** The sort itself: each element in turn inserted into the sorted prefix before it. */
  function SortDesc<T>(s: seq<T>, key: T -> real): seq<T> {
    if |s| == 0 then [] else Insert(SortDesc(s[..|s| - 1], key), s[|s| - 1], key)
  }

  /** Insertion splits `t` at `InsertPos`. */
  lemma {:induction false} InsertSplits<T>(t: seq<T>, x: T, key: T -> real)
    ensures Insert(t, x, key) == t[..InsertPos(t, x, key)] + [x] + t[InsertPos(t, x, key)..]
    decreases |t|
  {
    if |t| > 0 && key(t[0]) >= key(x) {
      InsertSplits(t[1..], x, key);
      var n := InsertPos(t[1..], x, key);
      assert t[..n + 1] == [t[0]] + t[1..][..n];
      assert t[n + 1..] == t[1..][n..];
    }
  }

  /** A position with only larger-or-equal keys before it and only smaller keys from it
      on is the insertion position. */
  lemma {:induction false} InsertAt<T>(t: seq<T>, x: T, key: T -> real, j: nat)
    requires j <= |t|
    requires forall m :: 0 <= m < j ==> key(t[m]) >= key(x)
    requires forall m :: j <= m < |t| ==> key(t[m]) < key(x)
    ensures Insert(t, x, key) == t[..j] + [x] + t[j..]
    decreases |t|
  {
    if j > 0 {
      InsertAt(t[1..], x, key, j - 1);
      assert t[..j] == [t[0]] + t[1..][..j - 1];
      assert t[j..] == t[1..][j - 1..];
    }
  }

  lemma InsertSorted<T>(t: seq<T>, x: T, key: T -> real)
    requires SortedDesc(t, key)
    ensures SortedDesc(Insert(t, x, key), key)
  {
    InsertSplits(t, x, key);
    var n := InsertPos(t, x, key);
    var u := Insert(t, x, key);
    forall i, j | 0 <= i < j < |u|
      ensures key(u[i]) >= key(u[j])
    {
      if j < n || i > n {
      } else if i == n {
        assert u[j] == t[j - 1];
      } else if j == n {
        assert u[i] == t[i];
      } else {
        assert u[i] == t[i] && u[j] == t[j - 1];
      }
    }
  }

  lemma {:induction false} InsertPermutes<T>(t: seq<T>, x: T, key: T -> real)
    ensures multiset(Insert(t, x, key)) == multiset(t) + multiset{x}
    decreases |t|
  {
    if |t| > 0 {
      assert t == [t[0]] + t[1..];
      if key(t[0]) >= key(x) {
        InsertPermutes(t[1..], x, key);
      }
    }
  }

  /** The sort yields descending order. */
  lemma {:induction false} SortDescSorted<T>(s: seq<T>, key: T -> real)
    ensures SortedDesc(SortDesc(s, key), key)
    decreases |s|
  {
    if |s| > 0 {
      SortDescSorted(s[..|s| - 1], key);
      InsertSorted(SortDesc(s[..|s| - 1], key), s[|s| - 1], key);
    }
  }

  /** The sort is a permutation: the same elements, each as often. */
  lemma {:induction false} SortDescPermutes<T>(s: seq<T>, key: T -> real)
    ensures multiset(SortDesc(s, key)) == multiset(s)
    decreases |s|
  {
    if |s| > 0 {
      SortDescPermutes(s[..|s| - 1], key);
      InsertPermutes(SortDesc(s[..|s| - 1], key), s[|s| - 1], key);
      assert s == s[..|s| - 1] + [s[|s| - 1]];
    }
  }

  lemma SortDescLength<T>(s: seq<T>, key: T -> real)
    ensures |SortDesc(s, key)| == |s|
  {
    SortDescPermutes(s, key);
    assert |multiset(SortDesc(s, key))| == |multiset(s)|;
  }

  /** The elements that share the key `v`. */
  function KeyIs<T>(key: T -> real, v: real): T -> bool {
    x => key(x) == v
  }

  /** In a sorted list, everything from a position whose key is below `v` is below `v`. */
  lemma SortedBelow<T>(t: seq<T>, n: nat, v: real, key: T -> real)
    requires SortedDesc(t, key)
    requires n < |t| ==> key(t[n]) < v
    ensures forall m :: n <= m < |t| ==> key(t[m]) < v
  {
    forall m | n <= m < |t|
      ensures key(t[m]) < v
    {
      assert key(t[n]) >= key(t[m]);
    }
  }

  /** Elements below `v` are all dropped by a filter for the key `v`. */
  lemma FilterBelow<T>(b: seq<T>, key: T -> real, v: real)
    requires forall m :: 0 <= m < |b| ==> key(b[m]) < v
    ensures Filter(b, KeyIs(key, v)) == []
  {
    FilterNone(b, KeyIs(key, v));
  }

  lemma FilterSingleton<T>(x: T, f: T -> bool)
    ensures Filter([x], f) == if f(x) then [x] else []
  {
    assert [x][..0] == [];
  }

  /** The insertion position moves with the list's first element. */
  lemma InsertPosTail<T>(t: seq<T>, x: T, key: T -> real)
    requires 0 < |t| && key(t[0]) >= key(x)
    requires forall m :: InsertPos(t, x, key) <= m < |t| ==> key(t[m]) < key(x)
    ensures forall m :: InsertPos(t[1..], x, key) <= m < |t[1..]| ==> key(t[1..][m]) < key(x)
  {
    assert InsertPos(t[1..], x, key) + 1 == InsertPos(t, x, key);
    forall m | InsertPos(t[1..], x, key) <= m < |t[1..]|
      ensures key(t[1..][m]) < key(x)
    {
      assert t[1..][m] == t[m + 1];
    }
  }

  lemma FilterCons<T>(y: T, u: seq<T>, f: T -> bool)
    ensures Filter([y] + u, f) == (if f(y) then [y] else []) + Filter(u, f)
  {
    FilterConcat([y], u, f);
    FilterSingleton(y, f);
  }

  /** Inserting `x` adds it, among the elements with its key, after all of them, provided
      only smaller keys follow its insertion position. */
  lemma {:induction false} InsertStable<T>(t: seq<T>, x: T, key: T -> real, v: real)
    requires forall m :: InsertPos(t, x, key) <= m < |t| ==> key(t[m]) < key(x)
    ensures Filter(Insert(t, x, key), KeyIs(key, v))
      == Filter(t, KeyIs(key, v)) + (if key(x) == v then [x] else [])
    decreases |t|
  {
    var f := KeyIs(key, v);
    if |t| == 0 {
      FilterSingleton(x, f);
    } else if key(t[0]) < key(x) {
      FilterCons(x, t, f);
      if key(x) == v {
        FilterBelow(t, key, v);
      }
    } else {
      var u := t[1..];
      InsertPosTail(t, x, key);
      InsertStable(u, x, key, v);
      assert Insert(t, x, key) == [t[0]] + Insert(u, x, key);
      assert t == [t[0]] + u;
      FilterConsAppend(t[0], u, Insert(u, x, key), if key(x) == v then [x] else [], f);
    }
  }

  /** A list whose filter is that of `u` followed by `e` keeps that relation under a common
      first element. */
  lemma FilterConsAppend<T>(y: T, u: seq<T>, w: seq<T>, e: seq<T>, f: T -> bool)
    requires Filter(w, f) == Filter(u, f) + e
    ensures Filter([y] + w, f) == Filter([y] + u, f) + e
  {
    FilterCons(y, w, f);
    FilterCons(y, u, f);
    AppendAssoc(if f(y) then [y] else [], Filter(u, f), e);
  }

  lemma AppendAssoc<T>(a: seq<T>, b: seq<T>, c: seq<T>)
    ensures a + (b + c) == (a + b) + c
  {
  }

  /** The sort is stable: the elements sharing any one key keep their original order. */
  lemma {:induction false} SortDescStable<T>(s: seq<T>, key: T -> real, v: real)
    ensures Filter(SortDesc(s, key), KeyIs(key, v)) == Filter(s, KeyIs(key, v))
    decreases |s|
  {
    if |s| > 0 {
      var init := s[..|s| - 1];
      SortDescStable(init, key, v);
      var t, x := SortDesc(init, key), s[|s| - 1];
      SortDescSorted(init, key);
      SortedBelow(t, InsertPos(t, x, key), key(x), key);
      InsertStable(t, x, key, v);
    }
  }

  /** Sorting a list that is already in descending order changes nothing. */
  lemma {:induction false} SortDescOfSorted<T>(s: seq<T>, key: T -> real)
    requires SortedDesc(s, key)
    ensures SortDesc(s, key) == s
    decreases |s|
  {
    if |s| > 0 {
      var init := s[..|s| - 1];
      var x := s[|s| - 1];
      SortDescOfSorted(init, key);
      InsertAt(init, x, key, |init|);
      assert init[|init|..] == [];
      assert s == init + [x];
    }
  }

  /** Sorting twice is sorting once. */
  lemma SortDescIdempotent<T>(s: seq<T>, key: T -> real)
    ensures SortDesc(SortDesc(s, key), key) == SortDesc(s, key)
  {
    SortDescSorted(s, key);
    SortDescOfSorted(SortDesc(s, key), key);
  }

  /** `a.sort(...)` in place: each element in turn moved left past the smaller ones before
      it, so the array ends as `SortDesc` of what it held. */
  method InsertionSort<T>(a: array<T>, key: T -> real)
    modifies a
    ensures a[..] == SortDesc(old(a[..]), key)
  {
    ghost var s := a[..];
    var i := 0;
    while i < a.Length
      invariant 0 <= i <= a.Length
      invariant a[..i] == SortDesc(s[..i], key)
      invariant a[i..] == s[i..]
    {
      SortDescSorted(s[..i], key);
      assert a[i] == s[i];
      InsertLast(a, i, key);
      assert s[..i + 1][..i] == s[..i];
      i := i + 1;
    }
    assert s[..a.Length] == s;
    assert a[..a.Length] == a[..];
  }

  /** The outer loop's body: `a[i]` moved into the sorted prefix before it. */
  method InsertLast<T>(a: array<T>, i: nat, key: T -> real)
    requires i < a.Length && SortedDesc(a[..i], key)
    modifies a
    ensures a[..i + 1] == Insert(old(a[..i]), old(a[i]), key)
    ensures a[i + 1..] == old(a[i + 1..])
  {
    ghost var t := a[..i];
    ghost var rest := a[i + 1..];
    var x := a[i];
    var j := i;
    while j > 0 && key(a[j - 1]) < key(x)
      invariant 0 <= j <= i
      invariant forall m :: 0 <= m < j ==> a[m] == t[m]
      invariant forall m :: j < m <= i ==> a[m] == t[m - 1]
      invariant a[i + 1..] == rest
      invariant forall m :: j <= m < i ==> key(t[m]) < key(x)
    {
      a[j] := a[j - 1];
      j := j - 1;
    }
    a[j] := x;
    KeysBefore(t, x, j, key);
    InsertAt(t, x, key, j);
    Placed(t, x, a[..], j, i);
  }

  /** In a sorted list, everything before a position whose predecessor is at least `x`
      is at least `x`. */
  lemma KeysBefore<T>(t: seq<T>, x: T, j: nat, key: T -> real)
    requires SortedDesc(t, key) && j <= |t|
    requires j > 0 ==> key(t[j - 1]) >= key(x)
    ensures forall m :: 0 <= m < j ==> key(t[m]) >= key(x)
  {
    forall m | 0 <= m < j
      ensures key(t[m]) >= key(x)
    {
      assert key(t[m]) >= key(t[j - 1]);
    }
  }

  lemma Placed<T>(t: seq<T>, x: T, b: seq<T>, j: nat, i: nat)
    requires j <= i == |t| < |b|
    requires forall m :: 0 <= m < j ==> b[m] == t[m]
    requires b[j] == x
    requires forall m :: j < m <= i ==> b[m] == t[m - 1]
    ensures b[..i + 1] == t[..j] + [x] + t[j..]
  {
  }

  /** No two elements share a key. */
  ghost predicate DistinctKeys<T>(s: seq<T>, key: T -> real) {
    forall i, j :: 0 <= i < j < |s| ==> key(s[i]) != key(s[j])
  }

  /** Two descending arrangements of one collection under distinct keys start alike. */
  lemma SortedSameHead<T>(a: seq<T>, b: seq<T>, key: T -> real)
    requires SortedDesc(a, key) && SortedDesc(b, key)
    requires multiset(a) == multiset(b) && 0 < |a|
    requires DistinctKeys(a, key)
    ensures 0 < |b| && a[0] == b[0]
  {
    assert a[0] in multiset(b);
    var j :| 0 <= j < |b| && b[j] == a[0];
    assert b[0] in multiset(a);
    var i :| 0 <= i < |a| && a[i] == b[0];
    assert key(b[0]) >= key(b[j]);
    assert key(a[0]) >= key(a[i]);
  }

  /** Dropping the first element keeps order, distinctness, and the rest of the multiset. */
  lemma SortedTail<T>(a: seq<T>, key: T -> real)
    requires SortedDesc(a, key) && 0 < |a|
    ensures SortedDesc(a[1..], key)
    ensures multiset(a[1..]) == multiset(a) - multiset{a[0]}
  {
    assert a == [a[0]] + a[1..];
  }

  lemma DistinctTail<T>(a: seq<T>, key: T -> real)
    requires DistinctKeys(a, key) && 0 < |a|
    ensures DistinctKeys(a[1..], key)
  {
  }

  /** Under distinct keys there is only one descending order of a collection. */
  lemma {:induction false} SortedUnique<T>(a: seq<T>, b: seq<T>, key: T -> real)
    requires SortedDesc(a, key) && SortedDesc(b, key)
    requires multiset(a) == multiset(b)
    requires DistinctKeys(a, key)
    ensures a == b
    decreases |a|
  {
    SameLength(a, b);
    if |a| > 0 {
      SortedSameHead(a, b, key);
      SortedTail(a, key);
      SortedTail(b, key);
      DistinctTail(a, key);
      SortedUnique(a[1..], b[1..], key);
      SameHeadSameTail(a, b);
    }
  }

  lemma SameLength<T>(a: seq<T>, b: seq<T>)
    requires multiset(a) == multiset(b)
    ensures |a| == |b|
  {
    assert |a| == |multiset(a)| == |multiset(b)| == |b|;
  }

  lemma SameHeadSameTail<T>(a: seq<T>, b: seq<T>)
    requires 0 < |a| && 0 < |b| && a[0] == b[0] && a[1..] == b[1..]
    ensures a == b
  {
    assert a == [a[0]] + a[1..] && b == [b[0]] + b[1..];
  }
}
