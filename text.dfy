/** The JavaScript string operations the dashboard relies on: `indexOf`, `replace` with a
    string pattern (first occurrence only) and with a global regular expression over a
    literal (every occurrence, left to right, without overlaps), the `$` patterns of a
    replacement string, `trim`, `split('.')[0]`, and the decimal renderings `String(n)`,
    `toFixed(0)` and `toFixed(2)`. */
module Text {
  import opened Wrappers

  // ---------------------------------------------------------------------------
  // Occurrences
  // ---------------------------------------------------------------------------

  /** `p` occurs in `s` starting at position `i`. */
  predicate OccursAt(s: string, p: string, i: nat) {
    i + |p| <= |s| && s[i..i + |p|] == p
  }

  ghost predicate Contains(s: string, p: string) {
    exists i: nat :: OccursAt(s, p, i)
  }

  /** `s.indexOf(p, from)`: the first position at or after `from` where `p` occurs. */
  function IndexOf(s: string, p: string, from: nat): (r: Option<nat>)
    ensures r.Some? ==> from <= r.value && OccursAt(s, p, r.value)
    ensures r.Some? ==> forall k: nat :: from <= k < r.value ==> !OccursAt(s, p, k)
    ensures r.None? ==> forall k: nat :: from <= k ==> !OccursAt(s, p, k)
    decreases |s| - from
  {
    if from + |p| > |s| then None
    else if OccursAt(s, p, from) then Some(from)
    else IndexOf(s, p, from + 1)
  }

  /** Occurrences inside a slice are occurrences in the whole text. */
  lemma OccursInSlice(s: string, a: nat, b: nat, p: string, j: nat)
    requires a <= b <= |s|
    requires OccursAt(s[a..b], p, j)
    ensures OccursAt(s, p, a + j)
  {
    forall i | 0 <= i < |p|
      ensures s[a + j..a + j + |p|][i] == p[i]
    {
      assert s[a..b][j..j + |p|][i] == p[i];
    }
  }

  lemma OccursInLeft(a: string, b: string, p: string, j: nat)
    requires OccursAt(a, p, j)
    ensures OccursAt(a + b, p, j)
  {
    assert (a + b)[j..j + |p|] == a[j..j + |p|];
  }

  lemma OccursInRight(a: string, b: string, p: string, j: nat)
    requires OccursAt(b, p, j)
    ensures OccursAt(a + b, p, |a| + j)
  {
    assert (a + b)[|a| + j..|a| + j + |p|] == b[j..j + |p|];
  }

  /** A text whose characters include none of `p`'s first character does not contain `p`. */
  lemma NoFirstCharNoOccurrence(s: string, p: string)
    requires 0 < |p| && p[0] !in s
    ensures !Contains(s, p)
  {
    forall i: nat
      ensures !OccursAt(s, p, i)
    {
      if i + |p| <= |s| {
        assert s[i..i + |p|][0] == s[i] && s[i] in s;
      }
    }
  }

  /** `r` cannot occur inside `p` when one of its characters is absent from `p`. */
  lemma ForeignCharNotContained(p: string, r: string, i: nat)
    requires i < |r| && r[i] !in p
    ensures !Contains(p, r)
  {
    forall k: nat
      ensures !OccursAt(p, r, k)
    {
      if k + |r| <= |p| {
        assert p[k..k + |r|][i] == p[k + i] && p[k + i] in p;
      }
    }
  }

  // ---------------------------------------------------------------------------
  // Placeholders
  // ---------------------------------------------------------------------------

  /** A `{{name}}` token: two opening braces, a name without braces, two closing braces. */
  predicate IsToken(t: string) {
    && 4 <= |t|
    && t[0] == '{' && t[1] == '{' && t[|t| - 2] == '}' && t[|t| - 1] == '}'
    && forall i :: 2 <= i < |t| - 2 ==> t[i] != '{' && t[i] != '}'
  }

  predicate BraceFree(s: string) {
    '{' !in s && '}' !in s
  }

  /** Tokens never overlap: two token occurrences that overlap are the same occurrence of
      the same token. */
  lemma TokensDisjoint(s: string, t1: string, k1: nat, t2: string, k2: nat)
    requires IsToken(t1) && IsToken(t2)
    requires OccursAt(s, t1, k1) && OccursAt(s, t2, k2)
    requires k1 <= k2 < k1 + |t1|
    ensures k1 == k2 && t1 == t2
  {
    var d := k2 - k1;
    assert t1[d] == '{' by {
      assert s[k1..k1 + |t1|][d] == t1[d];
      assert s[k2..k2 + |t2|][0] == t2[0];
    }
    assert d + 1 < |t1|;
    assert t1[d + 1] == '{' by {
      assert s[k1..k1 + |t1|][d + 1] == t1[d + 1];
      assert s[k2..k2 + |t2|][1] == t2[1];
    }
    // Both start at the same place, so the first closing pair ends both.
    var l := if |t1| <= |t2| then |t1| else |t2|;
    assert t1[l - 2] == t2[l - 2] by {
      assert s[k1..k1 + |t1|][l - 2] == t1[l - 2];
      assert s[k2..k2 + |t2|][l - 2] == t2[l - 2];
    }
    assert |t1| == |t2|;
  }

  lemma SliceLeft(a: string, c: string, k: nat, n: nat)
    requires k + n <= |a|
    ensures (a + c)[k..k + n] == a[k..k + n]
  {
  }

  lemma SliceRight(c: string, b: string, k: nat, n: nat)
    requires |c| <= k && k + n <= |c| + |b|
    ensures (c + b)[k..k + n] == b[k - |c|..k - |c| + n]
  {
  }

  /** The window of `a + r + b` at `k` does not spell `p` (the per-position case analysis
      behind `JoinNoOccurrence`). */
  lemma JoinWindow(a: string, r: string, b: string, p: string, k: nat)
    requires 0 < |p| && p[0] == '{' && p[|p| - 1] == '}'
    requires BraceFree(r) && !Contains(p, r)
    requires !Contains(a, p) && !Contains(b, p)
    ensures !OccursAt(a + r + b, p, k)
  {
    var s := a + r + b;
    if k + |p| <= |s| {
      var w := s[k..k + |p|];
      if k + |p| <= |a| {
        SliceLeft(a + r, b, k, |p|);
        SliceLeft(a, r, k, |p|);
        assert !OccursAt(a, p, k);
      } else if k >= |a| + |r| {
        SliceRight(a + r, b, k, |p|);
        assert !OccursAt(b, p, k - |a + r|);
      } else if k >= |a| {
        assert w[0] == r[k - |a|] && r[k - |a|] in r;
      } else if k + |p| <= |a| + |r| {
        assert w[|p| - 1] == r[k + |p| - 1 - |a|] && r[k + |p| - 1 - |a|] in r;
      } else {
        var j := |a| - k;
        forall i | 0 <= i < |r|
          ensures w[j..j + |r|][i] == r[i]
        {
          assert w[j + i] == s[|a| + i];
        }
        assert w[j..j + |r|] == r;
        assert !OccursAt(p, r, j);
      }
    }
  }

  /** Putting a brace-free `r` between two texts without `p` creates no `p`, when `p`
      starts with `{`, ends with `}` and does not contain `r`. */
  lemma JoinNoOccurrence(a: string, r: string, b: string, p: string)
    requires 0 < |p| && p[0] == '{' && p[|p| - 1] == '}'
    requires BraceFree(r) && !Contains(p, r)
    requires !Contains(a, p) && !Contains(b, p)
    ensures !Contains(a + r + b, p)
  {
    forall k: nat
      ensures !OccursAt(a + r + b, p, k)
    {
      JoinWindow(a, r, b, p, k);
    }
  }

  // ---------------------------------------------------------------------------
  // String.prototype.replace
  // ---------------------------------------------------------------------------

  /** The replacement text for the match `s[pos..end]`: in `r`, `$$` stands for a dollar
      sign, `$&` for the match, `` $` `` for the text before it and `$'` for the text after
      it (no capture groups exist, so every other `$` stays literal). */
  function Expand(r: string, s: string, pos: nat, end: nat): string
    requires pos <= end <= |s|
    decreases |r|
  {
    if |r| == 0 then ""
    else if r[0] == '$' && |r| >= 2 && r[1] == '$' then "$" + Expand(r[2..], s, pos, end)
    else if r[0] == '$' && |r| >= 2 && r[1] == '&' then s[pos..end] + Expand(r[2..], s, pos, end)
    else if r[0] == '$' && |r| >= 2 && r[1] == '`' then s[..pos] + Expand(r[2..], s, pos, end)
    else if r[0] == '$' && |r| >= 2 && r[1] == '\'' then s[end..] + Expand(r[2..], s, pos, end)
    else [r[0]] + Expand(r[1..], s, pos, end)
  }

  /** Without a `$`, the replacement text is inserted verbatim. */
  lemma {:induction false} ExpandLiteral(r: string, s: string, pos: nat, end: nat)
    requires pos <= end <= |s|
    requires '$' !in r
    ensures Expand(r, s, pos, end) == r
    decreases |r|
  {
    if |r| > 0 {
      assert r == [r[0]] + r[1..];
      ExpandLiteral(r[1..], s, pos, end);
    }
  }

  /** `s.replace(p, r)` with a string pattern: only the first occurrence is replaced. */
  function ReplaceFirst(s: string, p: string, r: string): string {
    match IndexOf(s, p, 0)
    case None => s
    case Some(i) => s[..i] + Expand(r, s, i, i + |p|) + s[i + |p|..]
  }

  /** `p` absent: `replace` returns the text unchanged. */
  lemma ReplaceFirstAbsent(s: string, p: string, r: string)
    requires !Contains(s, p)
    ensures ReplaceFirst(s, p, r) == s
  {
  }

  /** An occurrence with none before it (from `from` on) is the one `indexOf` finds. */
  lemma IndexOfIs(s: string, p: string, from: nat, i: nat)
    requires from <= i && OccursAt(s, p, i)
    requires forall k: nat :: from <= k < i ==> !OccursAt(s, p, k)
    ensures IndexOf(s, p, from) == Some(i)
  {
  }

  /** No `{`-led `p` starts inside a prefix `a` without `{`, and one starts right after it. */
  lemma FirstAfterBraceFree(a: string, p: string, b: string)
    requires 0 < |p| && p[0] == '{' && '{' !in a
    ensures OccursAt(a + p + b, p, |a|)
    ensures forall k: nat :: k < |a| ==> !OccursAt(a + p + b, p, k)
  {
    var s := a + p + b;
    assert s[|a|..|a| + |p|] == p;
    forall k: nat | k < |a|
      ensures !OccursAt(s, p, k)
    {
      if k + |p| <= |s| {
        assert s[k..k + |p|][0] == a[k] && a[k] in a;
      }
    }
  }

  /** The first occurrence of a `{`-led placeholder after a brace-free prefix is the one
      that `replace` rewrites, and a `$`-free value is inserted verbatim. */
  lemma ReplaceFirstAfterBraceFree(a: string, p: string, b: string, r: string)
    requires 0 < |p| && p[0] == '{' && '{' !in a && '$' !in r
    ensures ReplaceFirst(a + p + b, p, r) == a + r + b
  {
    var s := a + p + b;
    FirstAfterBraceFree(a, p, b);
    IndexOfIs(s, p, 0, |a|);
    ExpandLiteral(r, s, |a|, |a| + |p|);
    assert s[..|a|] == a;
    assert s[|a| + |p|..] == b;
  }

  /** `s.replace(/p/g, r)` for a literal non-empty `p`, scanning from `from`: every
      occurrence, left to right, without overlaps. */
  function ReplaceAllFrom(s: string, p: string, r: string, from: nat): string
    requires 0 < |p| && from <= |s|
    decreases |s| - from
  {
    match IndexOf(s, p, from)
    case None => s[from..]
    case Some(i) => s[from..i] + Expand(r, s, i, i + |p|) + ReplaceAllFrom(s, p, r, i + |p|)
  }

  function ReplaceAll(s: string, p: string, r: string): string
    requires 0 < |p|
  {
    ReplaceAllFrom(s, p, r, 0)
  }

  /** `p` absent: a global replace returns the text unchanged. */
  lemma ReplaceAllAbsent(s: string, p: string, r: string)
    requires 0 < |p| && !Contains(s, p)
    ensures ReplaceAll(s, p, r) == s
  {
  }

  /** A slice holds no `p` when no occurrence of `p` starts inside it. */
  lemma NoOccurrenceInSlice(s: string, a: nat, b: nat, p: string)
    requires a <= b <= |s| && 0 < |p|
    requires forall k: nat :: a <= k < b ==> !OccursAt(s, p, k)
    ensures !Contains(s[a..b], p)
  {
    forall j: nat
      ensures !OccursAt(s[a..b], p, j)
    {
      if OccursAt(s[a..b], p, j) {
        OccursInSlice(s, a, b, p, j);
      }
    }
  }

  /** A global replace of `q` by a safe value leaves no `p` behind when `p` is `q` itself
      or did not occur in the scanned text: a value without braces or `$` that `p` does
      not contain cannot combine with the surrounding text into a new `p`. */
  lemma {:induction false} ReplaceAllFromNoOccurrence(s: string, q: string, r: string, p: string, from: nat)
    requires 0 < |q| && from <= |s|
    requires 0 < |p| && p[0] == '{' && p[|p| - 1] == '}'
    requires BraceFree(r) && '$' !in r && !Contains(p, r)
    requires p == q || forall k: nat :: from <= k ==> !OccursAt(s, p, k)
    ensures !Contains(ReplaceAllFrom(s, q, r, from), p)
    decreases |s| - from
  {
    match IndexOf(s, q, from)
    case None =>
      NoOccurrenceInSlice(s, from, |s|, p);
      assert s[from..] == s[from..|s|];
    case Some(i) =>
      NoOccurrenceInSlice(s, from, i, p);
      ExpandLiteral(r, s, i, i + |q|);
      ReplaceAllFromNoOccurrence(s, q, r, p, i + |q|);
      JoinNoOccurrence(s[from..i], r, ReplaceAllFrom(s, q, r, i + |q|), p);
  }

  lemma ReplaceAllNoOccurrence(s: string, q: string, r: string, p: string)
    requires 0 < |q|
    requires 0 < |p| && p[0] == '{' && p[|p| - 1] == '}'
    requires BraceFree(r) && '$' !in r && !Contains(p, r)
    requires p == q || !Contains(s, p)
    ensures !Contains(ReplaceAll(s, q, r), p)
  {
    ReplaceAllFromNoOccurrence(s, q, r, p, 0);
  }

  /** An occurrence inside a slice `s[from..i]` survives whatever follows the slice. */
  lemma OccursBeforeTail(s: string, from: nat, i: nat, p: string, k: nat, tail: string)
    requires from <= k && k + |p| <= i <= |s| && OccursAt(s, p, k)
    ensures OccursAt(s[from..i] + tail, p, k - from)
  {
    var t := s[from..i] + tail;
    forall l | 0 <= l < |p|
      ensures t[k - from..k - from + |p|][l] == p[l]
    {
      assert t[k - from + l] == s[k + l];
      assert s[k..k + |p|][l] == p[l];
    }
  }

  /** Occurrences of two different tokens lie apart. */
  lemma TokensApart(s: string, q: string, i: nat, p: string, k: nat)
    requires IsToken(p) && IsToken(q) && p != q
    requires OccursAt(s, q, i) && OccursAt(s, p, k)
    ensures k + |p| <= i || i + |q| <= k
  {
    if i <= k < i + |q| {
      TokensDisjoint(s, q, i, p, k);
    } else if k < i < k + |p| {
      TokensDisjoint(s, p, k, q, i);
    }
  }

  /** One step of a global replace: the text up to the match, the expanded value, and the
      replace of the rest. */
  lemma ReplaceAllFromStep(s: string, q: string, r: string, from: nat, i: nat)
    requires 0 < |q| && from <= |s| && IndexOf(s, q, from) == Some(i)
    ensures i + |q| <= |s|
    ensures ReplaceAllFrom(s, q, r, from)
      == s[from..i] + (Expand(r, s, i, i + |q|) + ReplaceAllFrom(s, q, r, i + |q|))
  {
  }

  lemma KeepsBeforeMatch(s: string, q: string, r: string, p: string, from: nat, i: nat, k: nat)
    requires 0 < |q| && from <= k && k + |p| <= i && IndexOf(s, q, from) == Some(i)
    requires OccursAt(s, p, k)
    ensures OccursAt(ReplaceAllFrom(s, q, r, from), p, k - from)
  {
    ReplaceAllFromStep(s, q, r, from, i);
    OccursBeforeTail(s, from, i, p, k, Expand(r, s, i, i + |q|) + ReplaceAllFrom(s, q, r, i + |q|));
  }

  lemma KeepsAfterMatch(s: string, q: string, r: string, p: string, from: nat, i: nat)
    requires 0 < |q| && from <= |s| && IndexOf(s, q, from) == Some(i)
    requires i + |q| <= |s| && Contains(ReplaceAllFrom(s, q, r, i + |q|), p)
    ensures Contains(ReplaceAllFrom(s, q, r, from), p)
  {
    ReplaceAllFromStep(s, q, r, from, i);
    var e, rest := Expand(r, s, i, i + |q|), ReplaceAllFrom(s, q, r, i + |q|);
    var j': nat :| OccursAt(rest, p, j');
    OccursInRight(e, rest, p, j');
    OccursInRight(s[from..i], e + rest, p, |e| + j');
  }

  lemma KeepsNoMatch(s: string, q: string, r: string, p: string, from: nat, k: nat)
    requires 0 < |q| && from <= k && from <= |s| && IndexOf(s, q, from).None?
    requires OccursAt(s, p, k)
    ensures OccursAt(ReplaceAllFrom(s, q, r, from), p, k - from)
  {
    OccursBeforeTail(s, from, |s|, p, k, "");
    assert s[from..|s|] + "" == s[from..];
  }

  /** The first step of a global replace either already keeps the occurrence of `p` at `k`
      or passes a match of `q` that lies wholly before it. */
  lemma KeepsStep(s: string, q: string, r: string, p: string, from: nat, k: nat)
      returns (passed: bool, i: nat)
    requires IsToken(p) && IsToken(q) && p != q
    requires from <= k && from <= |s| && OccursAt(s, p, k)
    ensures passed ==> IndexOf(s, q, from) == Some(i) && i + |q| <= k
    ensures !passed ==> Contains(ReplaceAllFrom(s, q, r, from), p)
  {
    var m := IndexOf(s, q, from);
    if m.None? {
      KeepsNoMatch(s, q, r, p, from, k);
      passed, i := false, 0;
    } else {
      i := m.value;
      TokensApart(s, q, i, p, k);
      if k + |p| <= i {
        KeepsBeforeMatch(s, q, r, p, from, i, k);
        passed := false;
      } else {
        passed := true;
      }
    }
  }

  /** A global replace of one token keeps every occurrence of a different token,
      whatever the value: tokens never overlap, so each occurrence of `p` lies inside
      the text between two matches of `q`. */
  lemma {:induction false} ReplaceAllFromKeeps(s: string, q: string, r: string, p: string, from: nat, k: nat)
    requires IsToken(p) && IsToken(q) && p != q
    requires from <= k && from <= |s| && OccursAt(s, p, k)
    ensures Contains(ReplaceAllFrom(s, q, r, from), p)
    decreases |s| - from
  {
    var passed, i := KeepsStep(s, q, r, p, from, k);
    if passed {
      ReplaceAllFromKeeps(s, q, r, p, i + |q|, k);
      KeepsAfterMatch(s, q, r, p, from, i);
    }
  }

  lemma ReplaceAllKeeps(s: string, q: string, r: string, p: string)
    requires IsToken(p) && IsToken(q) && p != q
    requires Contains(s, p)
    ensures Contains(ReplaceAll(s, q, r), p)
  {
    var k: nat :| OccursAt(s, p, k);
    ReplaceAllFromKeeps(s, q, r, p, 0, k);
  }

  // ---------------------------------------------------------------------------
  // split('.')[0] and trim
  // ---------------------------------------------------------------------------

  /** `s.split(c)[0]`: the text before the first `c`, or all of `s` when it has none. */
  function Before(s: string, c: char): (r: string)
    ensures c !in r
    ensures |r| <= |s| && r == s[..|r|]
    ensures |r| < |s| ==> s[|r|] == c
  {
    if |s| == 0 then ""
    else if s[0] == c then ""
    else [s[0]] + Before(s[1..], c)
  }

  /** A prefix free of `c` and followed by `c` (or by nothing) is what `split(c)[0]` keeps. */
  lemma BeforeIs(s: string, c: char, n: nat)
    requires n <= |s| && c !in s[..n]
    requires n < |s| ==> s[n] == c
    ensures Before(s, c) == s[..n]
  {
    var r := Before(s, c);
    forall i | 0 <= i < n
      ensures s[i] != c
    {
      assert s[..n][i] == s[i];
    }
  }

  /** A prefix without `c` is kept whole, followed by what the rest keeps. */
  lemma BeforeAppend(x: string, y: string, c: char)
    requires c !in x
    ensures Before(x + y, c) == x + Before(y, c)
  {
    var n := |Before(y, c)|;
    assert (x + y)[..|x| + n] == x + y[..n];
    BeforeIs(x + y, c, |x| + n);
  }

  /** When `x` contains `c`, whatever follows `x` is cut off. */
  lemma BeforePrefix(x: string, y: string, c: char)
    requires c in x
    ensures Before(x + y, c) == Before(x, c)
  {
    var n := |Before(x, c)|;
    assert (x + y)[..n] == x[..n];
    BeforeIs(x + y, c, n);
  }

  /** A text whose only `{` opens it contains a `{`-led `p` only where it starts. */
  lemma BraceOnlyAtStart(name: string, rest: string, p: string)
    requires 0 < |p| && p[0] == '{' && '{' !in name && '{' !in rest
    requires !OccursAt("{" + name + rest, p, 0)
    ensures !Contains("{" + name + rest, p)
  {
    var s := "{" + name + rest;
    forall k: nat
      ensures !OccursAt(s, p, k)
    {
      if 0 < k && k + |p| <= |s| {
        assert s[k..k + |p|][0] == s[k] == (name + rest)[k - 1];
        assert (name + rest)[k - 1] in name + rest;
      }
    }
  }

  /** The characters `String.prototype.trim` removes: white space and line terminators. */
  predicate IsJsSpace(ch: char) {
    || ('\U{9}' <= ch <= '\U{D}') || ch == ' ' || ch == '\U{A0}' || ch == '\U{1680}'
    || ('\U{2000}' <= ch <= '\U{200A}') || ch == '\U{2028}' || ch == '\U{2029}'
    || ch == '\U{202F}' || ch == '\U{205F}' || ch == '\U{3000}' || ch == '\U{FEFF}'
  }

  function TrimStart(s: string): (r: string)
    ensures |r| <= |s| && r == s[|s| - |r|..]
    ensures forall i :: 0 <= i < |s| - |r| ==> IsJsSpace(s[i])
    ensures |r| > 0 ==> !IsJsSpace(r[0])
  {
    if |s| > 0 && IsJsSpace(s[0]) then TrimStart(s[1..]) else s
  }

  function TrimEnd(s: string): (r: string)
    ensures |r| <= |s| && r == s[..|r|]
    ensures forall i :: |r| <= i < |s| ==> IsJsSpace(s[i])
    ensures |r| > 0 ==> !IsJsSpace(r[|r| - 1])
  {
    if |s| > 0 && IsJsSpace(s[|s| - 1]) then TrimEnd(s[..|s| - 1]) else s
  }

  /** `s.trim()`. */
  function Trim(s: string): string {
    TrimEnd(TrimStart(s))
  }

  /** A trimmed text is empty exactly when the text is nothing but white space. */
  lemma TrimEmptyIff(s: string)
    ensures Trim(s) == "" <==> forall i :: 0 <= i < |s| ==> IsJsSpace(s[i])
  {
    var t := TrimStart(s);
    if |t| > 0 {
      assert t[0] == s[|s| - |t|];
    }
  }

  // ---------------------------------------------------------------------------
  // Decimal rendering
  // ---------------------------------------------------------------------------

  function DigitChar(d: nat): (c: char)
    requires d < 10
    ensures '0' <= c <= '9' && (c as int) - ('0' as int) == d
  {
    (('0' as int) + d) as char
  }

  predicate IsDigit(c: char) {
    '0' <= c <= '9'
  }

  /** The value of a string of decimal digits. */
  function DigitsValue(s: string): nat
    requires forall i :: 0 <= i < |s| ==> IsDigit(s[i])
  {
    if |s| == 0 then 0
    else
      assert IsDigit(s[|s| - 1]);
      DigitsValue(s[..|s| - 1]) * 10 + ((s[|s| - 1] as int) - ('0' as int))
  }

  /** `String(n)` for a natural number: its decimal digits without leading zeros. */
  function NatToString(n: nat): (r: string)
    ensures 0 < |r|
    ensures forall i :: 0 <= i < |r| ==> IsDigit(r[i])
    ensures DigitsValue(r) == n
    ensures |r| > 1 ==> r[0] != '0'
    decreases n
  {
    if n < 10 then [DigitChar(n)]
    else
      var r := NatToString(n / 10) + [DigitChar(n % 10)];
      assert r[..|r| - 1] == NatToString(n / 10);
      r
  }

  /** `String(i)` for an integer: a minus sign for negative values, then the digits. */
  function IntToString(i: int): (r: string)
    ensures 0 < |r|
    ensures i >= 0 ==> r == NatToString(i)
    ensures i < 0 ==> r == "-" + NatToString(-i)
  {
    if i >= 0 then NatToString(i) else "-" + NatToString(-i)
  }

  /** A rendered number contains no brace and no `$`. */
  lemma NatToStringPlain(n: nat)
    ensures BraceFree(NatToString(n)) && '$' !in NatToString(n) && '.' !in NatToString(n)
  {
    var r := NatToString(n);
    assert forall i :: 0 <= i < |r| ==> IsDigit(r[i]);
  }

  /** `x.toFixed(0)` for `x >= 0`: the nearest integer, the larger one on a tie. */
  function RoundHalfUp(x: real): (n: nat)
    requires 0.0 <= x
    ensures n as real - 0.5 <= x < n as real + 0.5
  {
    (x + 0.5).Floor
  }

  /** The nearest natural number to the square root of `w`, the larger on a tie, found by
      counting up from `m`. */
  function RoundSqrtFrom(w: real, m: nat): (r: nat)
    requires 0.0 <= w
    requires m == 0 || Square(m as real - 0.5) <= w
    ensures r == 0 || Square(r as real - 0.5) <= w
    ensures w < Square(r as real + 0.5)
    decreases w.Floor + 1 - m
  {
    if w < Square(m as real + 0.5) then m
    else
      HalfSquare(m);
      assert m <= w.Floor;
      assert (m + 1) as real - 0.5 == m as real + 0.5;
      RoundSqrtFrom(w, m + 1)
  }

  function Square(x: real): real {
    x * x
  }

  lemma HalfSquare(m: nat)
    ensures m as real <= Square(m as real + 0.5)
  {
    assert (m as real + 0.5) * (m as real + 0.5) == m as real * m as real + m as real + 0.25;
  }

  /** Two decimal digits, padded with a leading zero. */
  function TwoDigits(n: nat): (r: string)
    requires n < 100
    ensures |r| == 2 && IsDigit(r[0]) && IsDigit(r[1]) && DigitsValue(r) == n
  {
    var r := [DigitChar(n / 10), DigitChar(n % 10)];
    assert r[..1] == [DigitChar(n / 10)] && r[..1][..0] == [];
    assert DigitsValue(r[..1]) == n / 10;
    r
  }

  /** A number of hundredths written with two decimals: the integer part, a dot and two
      digits, which read back as the same number. */
  function Hundredths(m: nat): (r: string)
    ensures 4 <= |r| && r[|r| - 3] == '.'
    ensures forall i :: 0 <= i < |r| && i != |r| - 3 ==> IsDigit(r[i])
    ensures DigitsValue(r[..|r| - 3]) * 100 + DigitsValue(r[|r| - 2..]) == m
  {
    var whole, frac := NatToString(m / 100), TwoDigits(m % 100);
    var r := whole + "." + frac;
    assert r[..|r| - 3] == whole && r[|r| - 2..] == frac;
    r
  }

  /** `Math.sqrt(v).toFixed(2)` on exact reals: the hundredths nearest to the square root
      of `v`, the larger on a tie. */
  function SqrtToFixed2(v: real): string
    requires 0.0 <= v
  {
    Hundredths(RoundSqrtFrom(10000.0 * v, 0))
  }
}
