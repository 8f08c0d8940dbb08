/** The JavaScript array operations the dashboard relies on (`filter`, `find`,
    `slice` with a "+n more" badge), stated once on sequences, with the facts
    the components' proofs use. */
module Seqs {
  import opened Wrappers

  /** `Array.prototype.filter`: the elements satisfying `f`, in their original order. */
  function Filter<T>(s: seq<T>, f: T -> bool): (r: seq<T>)
    ensures |r| <= |s|
    decreases |s|
  {
    if |s| == 0 then []
    else Filter(s[..|s| - 1], f) + (if f(s[|s| - 1]) then [s[|s| - 1]] else [])
  }

  /** The filtered list holds exactly the elements of the list that pass the test. */
  lemma {:induction false} FilterMember<T>(s: seq<T>, f: T -> bool, x: T)
    ensures x in Filter(s, f) <==> x in s && f(x)
    decreases |s|
  {
    if |s| > 0 {
      var init := s[..|s| - 1];
      FilterMember(init, f, x);
      assert s == init + [s[|s| - 1]];
    }
  }

  /** Nothing passes: the filtered list is empty. */
  lemma {:induction false} FilterNone<T>(s: seq<T>, f: T -> bool)
    requires forall m :: 0 <= m < |s| ==> !f(s[m])
    ensures Filter(s, f) == []
    decreases |s|
  {
    if |s| > 0 {
      FilterNone(s[..|s| - 1], f);
    }
  }

  /** Filtering distributes over concatenation. */
  lemma {:induction false} FilterConcat<T>(a: seq<T>, b: seq<T>, f: T -> bool)
    ensures Filter(a + b, f) == Filter(a, f) + Filter(b, f)
    decreases |b|
  {
    if |b| == 0 {
      assert a + b == a;
    } else {
      var b' := b[..|b| - 1];
      assert (a + b)[..|a + b| - 1] == a + b';
      FilterConcat(a, b', f);
    }
  }

  /** Filtering one element more at the end of a prefix. */
  lemma FilterPrefixStep<T>(s: seq<T>, i: nat, f: T -> bool)
    requires i < |s|
    ensures Filter(s[..i + 1], f) == Filter(s[..i], f) + (if f(s[i]) then [s[i]] else [])
  {
    assert s[..i + 1][..i] == s[..i];
  }

  /** Every element kept: filtering changes nothing. */
  lemma {:induction false} FilterKeepsAll<T>(s: seq<T>, f: T -> bool)
    requires forall x :: x in s ==> f(x)
    ensures Filter(s, f) == s
    decreases |s|
  {
    if |s| > 0 {
      assert s == s[..|s| - 1] + [s[|s| - 1]];
      FilterKeepsAll(s[..|s| - 1], f);
    }
  }

  /** Two tests that agree on every element keep the same elements. */
  lemma {:induction false} FilterExt<T>(s: seq<T>, f: T -> bool, g: T -> bool)
    requires forall x :: x in s ==> f(x) == g(x)
    ensures Filter(s, f) == Filter(s, g)
    decreases |s|
  {
    if |s| > 0 {
      var init := s[..|s| - 1];
      assert forall x :: x in init ==> x in s;
      FilterExt(init, f, g);
    }
  }

  /** Filtering twice by the same test is filtering once. */
  lemma FilterIdempotent<T>(s: seq<T>, f: T -> bool)
    ensures Filter(Filter(s, f), f) == Filter(s, f)
  {
    forall x | x in Filter(s, f)
      ensures f(x)
    {
      FilterMember(s, f, x);
    }
    FilterKeepsAll(Filter(s, f), f);
  }

  /** When every element satisfies exactly one of three tests, the three filtered
      lists together are as long as the list. */
  lemma {:induction false} FilterPartition3<T>(s: seq<T>, a: T -> bool, b: T -> bool, c: T -> bool)
    requires forall x :: x in s ==> (a(x) || b(x) || c(x)) && !(a(x) && b(x)) && !(a(x) && c(x)) && !(b(x) && c(x))
    ensures |Filter(s, a)| + |Filter(s, b)| + |Filter(s, c)| == |s|
    decreases |s|
  {
    if |s| > 0 {
      var init := s[..|s| - 1];
      assert forall x :: x in init ==> x in s;
      FilterPartition3(init, a, b, c);
    }
  }

  function Indicator(b: bool): int { if b then 1 else 0 }

  /** The same for four tests. */
  lemma {:induction false} FilterPartition4<T>(s: seq<T>, a: T -> bool, b: T -> bool, c: T -> bool, d: T -> bool)
    requires forall x :: x in s ==>
      Indicator(a(x)) + Indicator(b(x)) + Indicator(c(x)) + Indicator(d(x)) == 1
    ensures |Filter(s, a)| + |Filter(s, b)| + |Filter(s, c)| + |Filter(s, d)| == |s|
    decreases |s|
  {
    if |s| > 0 {
      var init := s[..|s| - 1];
      assert forall x :: x in init ==> x in s;
      FilterPartition4(init, a, b, c, d);
    }
  }

  /** Removing the element at `i` drops it from the filter's count if it passes. */
  lemma FilterRemove<T>(t: seq<T>, i: nat, f: T -> bool)
    requires i < |t|
    ensures |Filter(t, f)| == |Filter(t[..i] + t[i + 1..], f)| + Indicator(f(t[i]))
  {
    assert t == t[..i] + [t[i]] + t[i + 1..];
    FilterConcat(t[..i] + [t[i]], t[i + 1..], f);
    FilterConcat(t[..i], [t[i]], f);
    FilterConcat(t[..i], t[i + 1..], f);
    assert [t[i]][..0] == [];
  }

  /** An element found in a list's multiset has a position, and dropping it there leaves
      the rest of the multiset. */
  lemma RemoveAt<T>(t: seq<T>, x: T) returns (i: nat)
    requires x in multiset(t)
    ensures i < |t| && t[i] == x
    ensures multiset(t[..i] + t[i + 1..]) == multiset(t) - multiset{x}
  {
    i :| 0 <= i < |t| && t[i] == x;
    assert t == t[..i] + [x] + t[i + 1..];
  }

  /** Reordering a list does not change how many of its elements a filter keeps. */
  lemma {:induction false} FilterCountPermutation<T>(s: seq<T>, t: seq<T>, f: T -> bool)
    requires multiset(s) == multiset(t)
    ensures |Filter(s, f)| == |Filter(t, f)|
    decreases |s|
  {
    if |s| == 0 {
      assert |t| == |multiset(t)| == 0;
    } else {
      var x := s[|s| - 1];
      assert x in multiset(s);
      var i := RemoveAt(t, x);
      var n := RemoveAt(s, x);
      FilterCountPermutation(s[..n] + s[n + 1..], t[..i] + t[i + 1..], f);
      FilterRemove(t, i, f);
      FilterRemove(s, n, f);
    }
  }

  /** `a` is obtained from `b` by deleting elements: an increasing choice of positions
      of `b` spells out `a`. */
  ghost predicate Subsequence<T>(a: seq<T>, b: seq<T>) {
    exists idx: seq<nat> :: SpellsOut(idx, a, b)
  }

  ghost predicate SpellsOut<T>(idx: seq<nat>, a: seq<T>, b: seq<T>) {
    && |idx| == |a|
    && (forall k :: 0 <= k < |idx| ==> idx[k] < |b| && a[k] == b[idx[k]])
    && (forall k, l :: 0 <= k < l < |idx| ==> idx[k] < idx[l])
  }

  /** A filtered list is a subsequence of the list it came from. */
  lemma FilterIsSubsequence<T>(s: seq<T>, f: T -> bool)
    ensures Subsequence(Filter(s, f), s)
  {
    var idx := FilterPositions(s, f);
  }

  lemma {:induction false} FilterPositions<T>(s: seq<T>, f: T -> bool) returns (idx: seq<nat>)
    ensures SpellsOut(idx, Filter(s, f), s)
    decreases |s|
  {
    if |s| > 0 {
      var init, x := s[..|s| - 1], s[|s| - 1];
      var idx' := FilterPositions(init, f);
      assert s == init + [x];
      if f(x) {
        idx := SpellsOutSnoc(idx', Filter(init, f), init, x);
      } else {
        SpellsOutWiden(idx', Filter(init, f), init, x);
        idx := idx';
      }
    } else {
      idx := [];
    }
  }

  /** Positions spelling out `a` in `b` still do so in `b` with one element more. */
  lemma SpellsOutWiden<T>(idx: seq<nat>, a: seq<T>, b: seq<T>, x: T)
    requires SpellsOut(idx, a, b)
    ensures SpellsOut(idx, a, b + [x])
  {
    forall k | 0 <= k < |idx|
      ensures idx[k] < |b + [x]| && a[k] == (b + [x])[idx[k]]
    {
      assert idx[k] < |b|;
    }
  }

  /** One element more on both sides: its position is appended. */
  lemma SpellsOutSnoc<T>(idx: seq<nat>, a: seq<T>, b: seq<T>, x: T) returns (idx': seq<nat>)
    requires SpellsOut(idx, a, b)
    ensures SpellsOut(idx', a + [x], b + [x])
  {
    SpellsOutWiden(idx, a, b, x);
    idx' := idx + [|b|];
    forall k | 0 <= k < |idx'|
      ensures idx'[k] < |b + [x]| && (a + [x])[k] == (b + [x])[idx'[k]]
    {
      if k < |idx| {
        assert idx'[k] == idx[k] && (a + [x])[k] == a[k];
      }
    }
    forall k, l | 0 <= k < l < |idx'|
      ensures idx'[k] < idx'[l]
    {
      assert idx[k] < |b|;
      if l < |idx| {
        assert idx'[k] == idx[k] && idx'[l] == idx[l];
      }
    }
  }

  /** `Array.prototype.findIndex`: the position of the first element satisfying `f`. */
  function FindFirst<T>(s: seq<T>, f: T -> bool): (r: Option<nat>)
    ensures r.Some? ==> r.value < |s| && f(s[r.value]) && forall k :: 0 <= k < r.value ==> !f(s[k])
    ensures r.None? ==> forall k :: 0 <= k < |s| ==> !f(s[k])
    decreases |s|
  {
    if |s| == 0 then None
    else if f(s[0]) then Some(0)
    else match FindFirst(s[1..], f)
      case None => None
      case Some(i) => Some(i + 1)
  }

  /** A position whose element passes, with none passing before it, is what `findIndex`
      returns. */
  lemma FindFirstIs<T>(s: seq<T>, f: T -> bool, k: nat)
    requires k < |s| && f(s[k])
    requires forall m :: 0 <= m < k ==> !f(s[m])
    ensures FindFirst(s, f) == Some(k)
  {
  }

  /** `Array.prototype.find`: the first element satisfying `f`, if any. */
  function Find<T>(s: seq<T>, f: T -> bool): (r: Option<T>)
    ensures r.Some? ==> exists k :: 0 <= k < |s| && s[k] == r.value && f(s[k])
                          && forall m :: 0 <= m < k ==> !f(s[m])
    ensures r.None? <==> forall k :: 0 <= k < |s| ==> !f(s[k])
  {
    match FindFirst(s, f)
    case Some(k) => Some(s[k])
    case None => None
  }

  /** What a capped list display shows: `s.slice(0, cap)` and, when `s` is longer, a
      "+hidden" badge. */
  datatype Capped<T> = Capped(shown: seq<T>, hidden: nat)

  function Cap<T>(s: seq<T>, cap: nat): (r: Capped<T>)
    ensures |r.shown| <= |s| && r.shown == s[..|r.shown|]
    ensures |r.shown| == if |s| <= cap then |s| else cap
    ensures |r.shown| + r.hidden == |s|
    ensures r.hidden > 0 <==> |s| > cap
  {
    if |s| <= cap then Capped(s, 0) else Capped(s[..cap], |s| - cap)
  }

  /** The lists `f` yields for the elements of `s`, concatenated in order: a `forEach`
      that pushes what each element gives. */
  function FlatMap<T, U>(s: seq<T>, f: T -> seq<U>): seq<U>
    decreases |s|
  {
    if |s| == 0 then [] else FlatMap(s[..|s| - 1], f) + f(s[|s| - 1])
  }

  lemma FlatMapSnoc<T, U>(s: seq<T>, x: T, f: T -> seq<U>)
    ensures FlatMap(s + [x], f) == FlatMap(s, f) + f(x)
  {
    assert (s + [x])[..|s|] == s;
  }

  /** Whatever an element yields is in the result. */
  lemma {:induction false} FlatMapHas<T, U>(s: seq<T>, i: nat, f: T -> seq<U>, y: U)
    requires i < |s| && y in f(s[i])
    ensures y in FlatMap(s, f)
    decreases |s|
  {
    if i < |s| - 1 {
      var init := s[..|s| - 1];
      assert init[i] == s[i];
      FlatMapHas(init, i, f, y);
    }
  }

  /** Everything in the result was yielded by some element. */
  lemma {:induction false} FlatMapFrom<T, U>(s: seq<T>, f: T -> seq<U>, y: U) returns (i: nat)
    requires y in FlatMap(s, f)
    ensures i < |s| && y in f(s[i])
    decreases |s|
  {
    var init := s[..|s| - 1];
    if y in f(s[|s| - 1]) {
      i := |s| - 1;
    } else {
      i := FlatMapFrom(init, f, y);
      assert init[i] == s[i];
    }
  }

  /** When each element yields one item if it passes `g` and none otherwise, the result
      is as long as the filter by `g`. */
  lemma {:induction false} FlatMapLength<T, U>(s: seq<T>, f: T -> seq<U>, g: T -> bool)
    requires forall x :: |f(x)| == Indicator(g(x))
    ensures |FlatMap(s, f)| == |Filter(s, g)|
    decreases |s|
  {
    if |s| > 0 {
      FlatMapLength(s[..|s| - 1], f, g);
    }
  }
}
