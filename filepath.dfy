/**
 * Go's `path/filepath.Base` and `path/filepath.Ext` on a Unix system, where the
 * only separator is '/' and there is no volume name.
 */
module FilePath {

  /** Every character of `p` is a separator (true of the empty string too). */
  predicate AllSlashes(p: string) {
    forall i :: 0 <= i < |p| ==> p[i] == '/'
  }

  /** `p` with its trailing separators removed. */
  function TrimTrailingSlashes(p: string): (r: string)
    ensures |r| <= |p| && r == p[..|r|]
    ensures r == [] || r[|r| - 1] != '/'
    ensures AllSlashes(p[|r|..])
  {
    if p != [] && p[|p| - 1] == '/' then
      var r := TrimTrailingSlashes(p[..|p| - 1]);
      assert p[|r|..] == p[..|p| - 1][|r|..] + ['/'];
      r
    else
      p
  }

  /** The characters after the last separator of `p` (all of `p` when it has none). */
  function LastElement(p: string): (r: string)
    ensures |r| <= |p| && r == p[|p| - |r|..]
    ensures '/' !in r
    ensures |r| < |p| ==> p[|p| - |r| - 1] == '/'
  {
    if p == [] || p[|p| - 1] == '/' then
      []
    else
      var init := p[..|p| - 1];
      var r := LastElement(init);
      assert init[|init| - |r|..] + [p[|p| - 1]] == p[|p| - |r| - 1..];
      r + [p[|p| - 1]]
  }

  /**
   * filepath.Base: the last element of `path` once trailing separators are
   * dropped; "." for the empty path and "/" for a path made only of separators.
   */
  function Base(path: string): (r: string)
    ensures r != []
    ensures path == [] ==> r == "."
    ensures path != [] && AllSlashes(path) ==> r == "/"
    ensures !AllSlashes(path) ==> '/' !in r
  {
    if path == [] then
      "."
    else
      var trimmed := TrimTrailingSlashes(path);
      if trimmed == [] then
        assert path == path[|trimmed|..];
        "/"
      else
        assert path[|trimmed| - 1] == trimmed[|trimmed| - 1];
        LastElement(trimmed)
  }

  /**
   * `r` stands in `path` at `k` as its last element: at the start or after a
   * separator, and followed only by separators.
   */
  predicate LastElementAt(path: string, r: string, k: int) {
    && 0 <= k && k + |r| <= |path| && path[k..k + |r|] == r
    && (k == 0 || path[k - 1] == '/') && AllSlashes(path[k + |r|..])
  }

  /** Base is the last element of the path once trailing separators are removed. */
  lemma BaseIsLastElement(path: string)
    requires !AllSlashes(path)
    ensures exists k :: LastElementAt(path, Base(path), k)
  {
    var trimmed := TrimTrailingSlashes(path);
    var r := LastElement(trimmed);
    assert path[|trimmed| - 1] == trimmed[|trimmed| - 1];
    var k := |trimmed| - |r|;
    assert path[k..k + |r|] == trimmed[k..];
    assert k > 0 ==> path[k - 1] == trimmed[k - 1];
    assert path[k + |r|..] == path[|trimmed|..];
    assert LastElementAt(path, Base(path), k);
  }

  /**
   * filepath.Ext: the suffix of `path` that starts at the last '.' of its last
   * element, or empty when that element has no '.'.
   */
  function Ext(path: string): string {
    if path == [] || path[|path| - 1] == '/' then
      []
    else if path[|path| - 1] == '.' then
      "."
    else
      var e := Ext(path[..|path| - 1]);
      if e == [] then [] else e + [path[|path| - 1]]
  }

  /** An extension is a suffix of the path: empty, or a '.' followed by no further '.' and no separator. */
  lemma {:induction false} ExtShape(path: string)
    ensures var r := Ext(path);
      && |r| <= |path| && r == path[|path| - |r|..]
      && (r != [] ==> r[0] == '.' && '.' !in r[1..] && '/' !in r)
  {
    if path != [] && path[|path| - 1] != '/' && path[|path| - 1] != '.' {
      ExtShape(path[..|path| - 1]);
      ExtStep(path, Ext(path[..|path| - 1]));
    }
  }

  /** One step of Ext's recursion: `path` ends in a character other than '/' and '.'. */
  lemma ExtStep(path: string, e: string)
    requires path != [] && path[|path| - 1] != '/' && path[|path| - 1] != '.'
    requires |e| < |path| && e == path[..|path| - 1][|path| - 1 - |e|..]
    requires e != [] ==> e[0] == '.' && '.' !in e[1..] && '/' !in e
    ensures e != [] ==>
      var r := e + [path[|path| - 1]];
      && r == path[|path| - |r|..]
      && r[0] == '.' && '.' !in r[1..] && '/' !in r
  {
    var last := path[|path| - 1];
    if e != [] {
      SuffixStep(path, e);
      NotInAppend(e[1..], last, '.');
      NotInAppend(e, last, '/');
      TailAppend(e, last);
    }
  }

  lemma NotInAppend(s: string, c: char, x: char)
    requires c != x
    ensures x !in s + [c] <==> x !in s
  {
    if x in s + [c] {
      var k :| 0 <= k < |s + [c]| && (s + [c])[k] == x;
      assert k < |s| && s[k] == x;
    }
  }

  lemma TailAppend(s: string, c: char)
    requires s != []
    ensures (s + [c])[1..] == s[1..] + [c]
  {
  }

  lemma SuffixStep(path: string, e: string)
    requires path != [] && |e| < |path| && e == path[..|path| - 1][|path| - 1 - |e|..]
    ensures e + [path[|path| - 1]] == path[|path| - |e| - 1..]
  {
    var init := path[..|path| - 1];
    assert init[|init| - |e|..] + [path[|path| - 1]] == path[|path| - |e| - 1..];
  }

  /** Ext is empty exactly when the last element of the path has no '.'. */
  lemma {:induction false} ExtEmptyIff(path: string)
    ensures Ext(path) == [] <==> '.' !in LastElement(path)
  {
    if path != [] && path[|path| - 1] != '/' {
      var init, last := path[..|path| - 1], path[|path| - 1];
      assert LastElement(path) == LastElement(init) + [last];
      if last == '.' {
        assert last in LastElement(path);
      } else {
        ExtEmptyIff(init);
        NotInAppend(LastElement(init), last, '.');
      }
    }
  }

  /** Ext only looks at the last element of a path. */
  lemma {:induction false} ExtOfLastElement(p: string)
    ensures Ext(LastElement(p)) == Ext(p)
  {
    if p != [] {
      var init, c := p[..|p| - 1], p[|p| - 1];
      assert p == init + [c];
      ExtOfLastElement(init);
      LastElementSnoc(init, c);
      if c != '/' {
        ExtSnoc(LastElement(init), c);
      }
      ExtSnoc(init, c);
    }
  }

  /** LastElement of a path with one more character. */
  lemma LastElementSnoc(s: string, c: char)
    ensures LastElement(s + [c]) == if c == '/' then [] else LastElement(s) + [c]
  {
    assert (s + [c])[..|s|] == s;
  }

  /** Ext of a path with one more character. */
  lemma ExtSnoc(s: string, c: char)
    ensures Ext(s + [c]) ==
      if c == '/' then []
      else if c == '.' then "."
      else if Ext(s) == [] then []
      else Ext(s) + [c]
  {
    assert (s + [c])[..|s|] == s;
  }

  /** For a path that does not end in a separator, Base is the last element. */
  lemma BaseOfUntrailed(path: string)
    requires path != [] && path[|path| - 1] != '/'
    ensures Base(path) == LastElement(path)
  {
    assert !AllSlashes(path);
  }

  /**
   * For a path that does not end in a separator, the extension of its base is
   * the extension of the whole path.
   */
  lemma ExtOfBase(path: string)
    requires path != [] && path[|path| - 1] != '/'
    ensures Ext(Base(path)) == Ext(path)
  {
    BaseOfUntrailed(path);
    ExtOfLastElement(path);
  }

  /** Base is idempotent: the base of a base is itself. */
  lemma BaseIdempotent(path: string)
    ensures Base(Base(path)) == Base(path)
  {
    var b := Base(path);
    if path == [] {
      assert TrimTrailingSlashes(".") == ".";
      assert LastElement(".") == LastElement("") + ['.'];
    } else if AllSlashes(path) {
      assert TrimTrailingSlashes("/") == TrimTrailingSlashes("");
    } else {
      assert b[|b| - 1] in b;
      assert TrimTrailingSlashes(b) == b;
      assert !AllSlashes(b) by {
        assert b[0] in b;
      }
    }
  }

  /** The last element of `dir/b`, for `b` without separators, is `b`. */
  lemma {:induction false} LastElementAfterSlash(dir: string, b: string)
    requires '/' !in b
    ensures LastElement(dir + "/" + b) == b
  {
    var p := dir + "/" + b;
    if b != [] {
      var b' := b[..|b| - 1];
      assert p[..|p| - 1] == dir + "/" + b';
      assert b[|b| - 1] in b;
      LastElementAfterSlash(dir, b');
      assert b' + [b[|b| - 1]] == b;
    }
  }

  /** The extension of `a.b`, for `b` without '.' or separators, is `.b`. */
  lemma {:induction false} ExtAfterDot(a: string, b: string)
    requires '.' !in b && '/' !in b
    ensures Ext(a + "." + b) == "." + b
  {
    if b == [] {
      ExtOfTrailingDot(a);
    } else {
      var b', last := b[..|b| - 1], b[|b| - 1];
      assert b == b' + [last];
      assert last in b;
      assert '.' !in b' && '/' !in b' by {
        assert forall c :: c in b' ==> c in b;
      }
      ExtAfterDot(a, b');
      ExtAfterDotStep(a, b', last);
    }
  }

  lemma ExtOfTrailingDot(a: string)
    ensures Ext(a + ".") == "."
  {
    var p := a + ".";
    assert p[|p| - 1] == '.';
  }

  lemma ExtAfterDotStep(a: string, b: string, last: char)
    requires Ext(a + "." + b) == "." + b && last != '.' && last != '/'
    ensures Ext(a + "." + (b + [last])) == "." + (b + [last])
  {
    var p := a + "." + b;
    AppendAssoc(p, a + ".", b, last);
    ExtSnoc(p, last);
    AppendAssoc("." + b, ".", b, last);
  }

  lemma AppendAssoc(p: string, x: string, y: string, c: char)
    requires p == x + y
    ensures x + (y + [c]) == p + [c]
  {
  }
}
