/** The pattern behind a subtree delete (internal/state/state.go).

A subtree is deleted with `path LIKE escapeLike(dir) + "/%" ESCAPE '\'`.  This
module gives LIKE its meaning and shows which paths that pattern selects. */
module SubtreePattern {
  import opened Paths

  /** ASCII case folding, which LIKE applies to both sides by default. */
  function Fold(c: char): char {
    if 'A' <= c <= 'Z' then (c as int + 32) as char else c
  }

  /** Equality of two strings up to ASCII case. */
  predicate FoldEq(a: string, b: string) {
    |a| == |b| && forall i | 0 <= i < |a| :: Fold(a[i]) == Fold(b[i])
  }

  /** `s LIKE pat ESCAPE '\'`: `%` matches any run, `_` any one character, a
  backslash makes the next character literal, and a trailing one matches nothing. */
  predicate Like(pat: string, s: string)
    decreases |pat| + |s|
  {
    if pat == "" then s == ""
    else if pat[0] == '%' then Like(pat[1..], s) || (s != "" && Like(pat, s[1..]))
    else if s == "" then false
    else if pat[0] == '_' then Like(pat[1..], s[1..])
    else if pat[0] == '\\' then |pat| > 1 && Fold(pat[1]) == Fold(s[0]) && Like(pat[2..], s[1..])
    else Fold(pat[0]) == Fold(s[0]) && Like(pat[1..], s[1..])
  }

  predicate Special(c: char) { c == '%' || c == '_' || c == '\\' }

  function Escape(s: string): string {
    if s == "" then ""
    else (if Special(s[0]) then ['\\', s[0]] else [s[0]]) + Escape(s[1..])
  }

  lemma {:induction false} EscapeAppend(s: string, c: char)
    ensures Escape(s + [c]) == Escape(s) + Escape([c])
  {
    if s == "" {
      assert s + [c] == [c];
    } else {
      assert (s + [c])[1..] == s[1..] + [c];
      EscapeAppend(s[1..], c);
    }
  }

  method EscapeLike(s: string) returns (out: string)
    ensures out == Escape(s)
  {
    out := "";
    for i := 0 to |s|
      invariant out == Escape(s[..i])
    {
      EscapeAppend(s[..i], s[i]);
      assert s[..i] + [s[i]] == s[..i + 1];
      assert [s[i]][1..] == "";
      if Special(s[i]) {
        out := out + ['\\'];
      }
      out := out + [s[i]];
    }
    assert s[..|s|] == s;
  }

  /** A lone `%` accepts everything. */
  lemma {:induction false} PercentMatchesAll(t: string)
    ensures Like("%", t)
  {
    if t != "" {
      PercentMatchesAll(t[1..]);
    } else {
      assert "%"[1..] == "";
    }
  }

  /** An escaped literal is matched exactly, up to case, before the rest of the pattern. */
  lemma {:induction false} EscapedPrefix(s: string, rest: string, t: string)
    ensures Like(Escape(s) + rest, t) <==>
            |t| >= |s| && FoldEq(t[..|s|], s) && Like(rest, t[|s|..])
  {
    if s == "" {
      assert Escape(s) + rest == rest;
      assert t[0..] == t;
    } else {
      var tail := Escape(s[1..]) + rest;
      var pat := Escape(s) + rest;
      if Special(s[0]) {
        assert pat == ['\\', s[0]] + tail;
        assert pat[2..] == tail;
      } else {
        assert pat == [s[0]] + tail;
        assert pat[1..] == tail;
      }
      if t != "" {
        EscapedPrefix(s[1..], rest, t[1..]);
        if |t| >= |s| {
          assert t[1..][|s| - 1..] == t[|s|..];
          HeadTail(t[..|s|], s);
          assert t[..|s|][1..] == t[1..][..|s| - 1];
        }
      }
    }
  }

  lemma HeadTail(a: string, b: string)
    requires |a| == |b| > 0
    ensures FoldEq(a, b) <==> Fold(a[0]) == Fold(b[0]) && FoldEq(a[1..], b[1..])
  {
    if Fold(a[0]) == Fold(b[0]) && FoldEq(a[1..], b[1..]) {
      forall i | 0 <= i < |a| ensures Fold(a[i]) == Fold(b[i]) {
        if i > 0 {
          assert a[i] == a[1..][i - 1] && b[i] == b[1..][i - 1];
        }
      }
    }
    if FoldEq(a, b) {
      assert forall i | 0 <= i < |a| - 1 :: a[1..][i] == a[i + 1] && b[1..][i] == b[i + 1];
    }
  }

  /** The row filter of DeleteSubtree. */
  predicate Selected(dir: Path, p: Path) {
    p == dir || Like(Escape(dir) + "/%", p)
  }

  /** Below `dir` up to ASCII case. */
  predicate FoldUnder(p: Path, dir: Path) {
    |p| > |dir| && FoldEq(p[..|dir|], dir) && p[|dir|] == '/'
  }

  /** No wildcard in a folder's name ever widens the pattern: the only paths it can
  reach outside the subtree are those that differ from it in letter case. */
  lemma SubtreePatternExact(dir: Path, p: Path)
    ensures Like(Escape(dir) + "/%", p) <==> FoldUnder(p, dir)
    ensures Under(p, dir) ==> Selected(dir, p)
  {
    EscapedPrefix(dir, "/%", p);
    if |p| > |dir| {
      var rest := p[|dir|..];
      assert "/%"[1..] == "%";
      PercentMatchesAll(rest[1..]);
      assert Like("/%", rest) <==> Fold('/') == Fold(rest[0]);
    } else if |p| == |dir| {
      assert p[|dir|..] == "";
    }
  }

  /** Up to letter case, too, a path is below a folder when its parent is there or below. */
  lemma FoldUnderSibling(p: Path, q: Path, dir: Path)
    requires ParentOf(p) == ParentOf(q) && dir != "" && FoldUnder(p, dir)
    ensures FoldUnder(q, dir) && (Under(q, dir) ==> Under(p, dir))
  {
    var k := LastIndex(p, '/');
    assert k >= |dir|;
    assert p[..k] == q[..k];
    assert p[..|dir|] == p[..k][..|dir|] == q[..|dir|];
    assert k > |dir| ==> q[|dir|] == q[..k][|dir|] == p[|dir|];
  }

  /** No path of `paths` lies below one of `dirs` only up to letter case. */
  predicate CaseClear(dirs: set<Path>, paths: set<Path>) {
    forall p, d {:trigger FoldUnder(p, d)} | p in paths && d in dirs && FoldUnder(p, d) :: Under(p, d)
  }

  lemma CaseClearLess(dirs: set<Path>, paths: set<Path>, dirs': set<Path>, paths': set<Path>)
    requires CaseClear(dirs, paths) && dirs' <= dirs && paths' <= paths
    ensures CaseClear(dirs', paths')
  {
  }

  /** DeleteSubtree reaches exactly the folder and what it holds. */
  predicate Exactly(dir: Path, p: Path) {
    Selected(dir, p) <==> p == dir || Under(p, dir)
  }

  /** Case variants are the only way to reach outside: it is exact for every one of these
  folders if and only if there are none. */
  lemma SubtreeExactIffNoCaseVariants(dirs: set<Path>, paths: set<Path>)
    ensures CaseClear(dirs, paths) <==> forall dir, p | dir in dirs && p in paths :: Exactly(dir, p)
  {
    forall dir, p | dir in dirs && p in paths
      ensures Exactly(dir, p) <==> (FoldUnder(p, dir) ==> Under(p, dir))
    {
      SubtreePatternExact(dir, p);
    }
  }

  lemma SubtreeExactWithoutCaseVariants(dirs: set<Path>, paths: set<Path>, dir: Path)
    requires CaseClear(dirs, paths) && dir in dirs
    ensures forall p | p in paths :: Selected(dir, p) <==> p == dir || Under(p, dir)
  {
    SubtreeExactIffNoCaseVariants(dirs, paths);
    assert forall p | p in paths :: Exactly(dir, p);
  }

  /** With a case variant it does not: deleting `a` also drops the row of `A/x`. */
  lemma CaseVariantIsSelected()
    ensures Selected("a", "A/x") && !Under("A/x", "a")
  {
    SubtreePatternExact("a", "A/x");
    assert "A/x"[..1] == "A";
  }

  /** Whatever the case, the selection is closed downwards. */
  lemma SelectionClosed(dir: Path, p: Path)
    requires Selected(dir, ParentOf(p)) && ParentOf(p) != ""
    ensures Selected(dir, p)
  {
    var q := ParentOf(p);
    ParentAbove(p);
    SubtreePatternExact(dir, p);
    if q != dir {
      SubtreePatternExact(dir, q);
      assert p[..|dir|] == q[..|dir|];
      assert p[|dir|] == q[|dir|];
    }
  }
}
