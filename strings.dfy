/** Go's `strings.Index` and `strings.Replace(s, old, new, 1)`, on strings as sequences of characters. */
module Strings {

  /** `sub` occurs in `s` starting at position `i`. */
  predicate OccursAt(s: string, sub: string, i: int) {
    0 <= i && i + |sub| <= |s| && s[i..i + |sub|] == sub
  }

  /** strings.Index: the position of the first occurrence of `sub` in `s`, or -1. */
  function Index(s: string, sub: string): (i: int)
    ensures i == -1 || 0 <= i <= |s| - |sub|
    ensures i >= 0 ==> OccursAt(s, sub, i) && forall j :: 0 <= j < i ==> !OccursAt(s, sub, j)
    ensures i == -1 ==> forall j :: !OccursAt(s, sub, j)
    decreases |s|
  {
    if |sub| > |s| then
      -1
    else if s[..|sub|] == sub then
      0
    else
      var k := Index(s[1..], sub);
      forall j | 1 <= j
        ensures OccursAt(s, sub, j) <==> OccursAt(s[1..], sub, j - 1)
      {
        if j + |sub| <= |s| {
          assert s[1..][j - 1..j - 1 + |sub|] == s[j..j + |sub|];
        }
      }
      if k < 0 then -1 else k + 1
  }

  /**
   * strings.Replace(s, pattern, repl, 1): `s` with the first occurrence of `pattern`
   * replaced by `repl`. Go returns `s` itself when the two are equal or when
   * `pattern` does not occur; an empty `pattern` occurs at position 0, so `repl`
   * is prepended.
   */
  function ReplaceOnce(s: string, pattern: string, repl: string): string
  {
    if pattern == repl then
      s
    else
      var i := Index(s, pattern);
      if i < 0 then s else s[..i] + repl + s[i + |pattern|..]
  }

  /** A suffix of `s` occurs in `s` where it ends. */
  lemma SuffixOccurs(s: string, t: string)
    requires |t| <= |s| && t == s[|s| - |t|..]
    ensures OccursAt(s, t, |s| - |t|)
  {
    assert s[|s| - |t|..|s|] == s[|s| - |t|..];
  }

  /** When `t` occurs in `s` at `k` and nowhere else, Index finds it at `k`. */
  lemma IndexOfSoleOccurrence(s: string, t: string, k: int)
    requires OccursAt(s, t, k)
    requires forall j :: OccursAt(s, t, j) ==> j == k
    ensures Index(s, t) == k
  {
  }

  /** When `t` occurs in `s` at `k` and at no earlier position, Index finds it at `k`. */
  lemma IndexOfFirstOccurrence(s: string, t: string, k: int)
    requires OccursAt(s, t, k)
    requires forall j :: 0 <= j < k ==> !OccursAt(s, t, j)
    ensures Index(s, t) == k
  {
  }

  /** Removing a non-empty `t` that occurs in `s` cuts out its first occurrence. */
  lemma RemoveFirstOccurrence(s: string, t: string)
    requires t != [] && Index(s, t) >= 0
    ensures var i := Index(s, t);
      i + |t| <= |s| && ReplaceOnce(s, t, "") == s[..i] + s[i + |t|..]
  {
    var i := Index(s, t);
    assert s[..i] + "" == s[..i];
  }

  /** Removing the first occurrence of `t`, when that is the suffix, leaves the prefix before it. */
  lemma RemoveTrailingOccurrence(s: string, t: string)
    requires t != [] && |t| <= |s| && Index(s, t) == |s| - |t|
    ensures ReplaceOnce(s, t, "") == s[..|s| - |t|]
  {
    var i := Index(s, t);
    assert ReplaceOnce(s, t, "") == s[..i] + "" + s[i + |t|..];
    assert s[i + |t|..] == [];
  }

  /**
   * What ReplaceOnce leaves: `s` unchanged when nothing is replaced, otherwise a
   * string whose length grows by the difference in length of the two strings,
   * with `repl` where `pattern` first occurred.
   */
  lemma ReplaceOnceShape(s: string, pattern: string, repl: string)
    ensures pattern == repl || Index(s, pattern) < 0 ==> ReplaceOnce(s, pattern, repl) == s
    ensures pattern != repl && Index(s, pattern) >= 0 ==>
      var i, r := Index(s, pattern), ReplaceOnce(s, pattern, repl);
      && |r| == |s| - |pattern| + |repl|
      && r[..i] == s[..i]
      && r[i..i + |repl|] == repl
      && r[i + |repl|..] == s[i + |pattern|..]
  {
    if pattern != repl {
      var i := Index(s, pattern);
      if i >= 0 {
        var r := s[..i] + repl + s[i + |pattern|..];
        assert ReplaceOnce(s, pattern, repl) == r;
        assert r[..i] == s[..i];
        assert r[i..i + |repl|] == repl;
        assert r[i + |repl|..] == s[i + |pattern|..];
      }
    }
  }

  /**
   * Removing a suffix that occurs nowhere else and putting it back gives the
   * original string.
   */
  lemma RemoveSoleSuffix(s: string, t: string)
    requires |t| <= |s| && t == s[|s| - |t|..]
    requires forall j :: OccursAt(s, t, j) ==> j == |s| - |t|
    ensures ReplaceOnce(s, t, "") + t == s
  {
    if t == [] {
      assert ReplaceOnce(s, t, "") == s;
    } else {
      SuffixOccurs(s, t);
      IndexOfSoleOccurrence(s, t, |s| - |t|);
      RemoveTrailingOccurrence(s, t);
      assert s[..|s| - |t|] + s[|s| - |t|..] == s;
    }
  }
}
