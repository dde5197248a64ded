/** Slash-separated paths relative to the sync root.

The root itself is "", so the parent of a top-level entry is "". */
module Paths {
  type Path = string

  /** Position of the last `c` in `s`, or -1. */
  function LastIndex(s: string, c: char): (k: int)
    ensures -1 <= k < |s|
    ensures k >= 0 ==> s[k] == c
    ensures forall i | k < i < |s| :: s[i] != c
  {
    if s == [] then -1
    else if s[|s| - 1] == c then |s| - 1
    else LastIndex(s[..|s| - 1], c)
  }

  function ParentOf(p: Path): (d: Path)
    ensures p != "" ==> |d| < |p|
  {
    var k := LastIndex(p, '/');
    if k < 0 then "" else p[..k]
  }

  function BaseName(p: Path): (name: string)
    ensures '/' !in name
  {
    p[LastIndex(p, '/') + 1..]
  }

  function Join(dir: Path, name: string): Path {
    if dir == "" then name else dir + "/" + name
  }

  lemma JoinSplit(p: Path)
    requires p != "" && p[0] != '/'
    ensures Join(ParentOf(p), BaseName(p)) == p
  {
  }

  /** `p` lies strictly below `dir`: it starts with `dir` followed by a slash. */
  predicate Under(p: Path, dir: Path) {
    |dir| < |p| && p[..|dir|] == dir && p[|dir|] == '/'
  }

  /** Number of separators in `p`. */
  function Depth(p: Path): nat {
    if p == "" then 0
    else Depth(p[..|p| - 1]) + if p[|p| - 1] == '/' then 1 else 0
  }

  /** `p` and every folder above it, the root excluded. */
  function Chain(p: Path): (c: set<Path>)
    ensures p != "" ==> p in c
    ensures "" !in c
    ensures forall q | q in c :: q == p || Under(p, q)
    decreases |p|
  {
    if p == "" then {}
    else
      ParentAbove(p);
      assert forall q | q in Chain(ParentOf(p)) :: Under(p, q) by {
        forall q | q in Chain(ParentOf(p)) ensures Under(p, q) {
          UnderTransitive(p, ParentOf(p), q);
        }
      }
      {p} + Chain(ParentOf(p))
  }

  lemma ParentAbove(p: Path)
    ensures ParentOf(p) != "" ==> Under(p, ParentOf(p))
  {
  }

  lemma UnderTransitive(p: Path, q: Path, r: Path)
    requires q == r || Under(q, r)
    requires p == q || Under(p, q)
    ensures p == r || Under(p, r)
    ensures q != r || p != q ==> Under(p, r)
  {
    if Under(q, r) && Under(p, q) {
      assert p[..|r|] == p[..|q|][..|r|];
      assert p[|r|] == p[..|q|][|r|];
    }
  }

  /** Climbing one step from below `dir` either reaches `dir` or stays below it. */
  lemma UnderViaParent(p: Path, dir: Path)
    ensures Under(p, dir) ==> ParentOf(p) == dir || Under(ParentOf(p), dir)
    ensures dir != "" && (ParentOf(p) == dir || Under(ParentOf(p), dir)) ==> Under(p, dir)
  {
    if Under(p, dir) {
      var k := LastIndex(p, '/');
      assert k >= |dir|;
      if k > |dir| {
        assert p[..k][..|dir|] == p[..|dir|];
        assert p[..k][|dir|] == p[|dir|];
      }
    }
    if dir != "" && (ParentOf(p) == dir || Under(ParentOf(p), dir)) {
      ParentAbove(p);
      UnderTransitive(p, ParentOf(p), dir);
    }
  }

  lemma {:induction false} DepthSplit(a: string, b: string)
    ensures Depth(a + b) == Depth(a) + Depth(b)
  {
    if b == "" {
      assert a + b == a;
    } else {
      assert (a + b)[..|a + b| - 1] == a + b[..|b| - 1];
      DepthSplit(a, b[..|b| - 1]);
    }
  }

  lemma {:induction false} DepthZero(s: string)
    requires '/' !in s
    ensures Depth(s) == 0
  {
    if s != "" {
      assert forall c | c in s[..|s| - 1] :: c in s;
      assert s[|s| - 1] in s;
      DepthZero(s[..|s| - 1]);
    }
  }

  /** Sorting by depth puts a folder before everything it holds. */
  lemma DepthOfParent(p: Path)
    ensures ParentOf(p) != "" ==> Depth(ParentOf(p)) < Depth(p)
  {
    var k := LastIndex(p, '/');
    if k >= 0 {
      DepthSplit(p[..k], p[k..]);
      assert p == p[..k] + p[k..];
      DepthSplit(p[k..k + 1], p[k + 1..]);
      assert p[k..] == p[k..k + 1] + p[k + 1..];
      assert p[k..k + 1][..0] == "";
      DepthZero(p[k + 1..]);
    }
  }

  lemma {:induction false} LongestExists(s: set<Path>) returns (p: Path)
    requires s != {}
    ensures p in s && forall q | q in s :: |q| <= |p|
    decreases |s|
  {
    var x :| x in s;
    if s == {x} {
      p := x;
    } else {
      var y := LongestExists(s - {x});
      p := if |x| <= |y| then y else x;
      assert forall q | q in s :: q == x || q in s - {x};
    }
  }

  lemma {:induction false} ShallowestExists(s: set<Path>) returns (p: Path)
    requires s != {}
    ensures p in s && forall q | q in s :: Depth(p) <= Depth(q)
    decreases |s|
  {
    var x :| x in s;
    if s == {x} {
      p := x;
    } else {
      var y := ShallowestExists(s - {x});
      p := if Depth(x) <= Depth(y) then x else y;
      assert forall q | q in s :: q == x || q in s - {x};
    }
  }

  /** Some path has no parent left among those still to come. */
  lemma ParentFirstExists(s: set<Path>) returns (p: Path)
    requires s != {}
    ensures p in s && (p == "" || ParentOf(p) !in s)
  {
    p := ShortestExists(s);
  }

  lemma {:induction false} ShortestExists(s: set<Path>) returns (p: Path)
    requires s != {}
    ensures p in s && forall q | q in s :: |p| <= |q|
    decreases |s|
  {
    var x :| x in s;
    if s == {x} {
      p := x;
    } else {
      var y := ShortestExists(s - {x});
      p := if |x| <= |y| then x else y;
      assert forall q | q in s :: q == x || q in s - {x};
    }
  }
}
