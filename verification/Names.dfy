/** Which names pDrive accepts, scans, and gives to conflict copies
(internal/mirror/reconcile.go, mirror.go, scan.go). */
module Names {
  import opened Paths

  const STUB_SUFFIX := ".pdrive-stub"
  const TEMP_SUFFIX := ".pdrive-part"
  const SCRATCH_DIR := ".pdrive-tmp"

  const IGNORED_NAMES: seq<string> := [SCRATCH_DIR, ".DS_Store", "Thumbs.db"]
  const IGNORED_SUFFIXES: seq<string> :=
    [STUB_SUFFIX, TEMP_SUFFIX, ".part", ".crdownload", ".swp", ".swx", "~"]
  const IGNORED_PREFIXES: seq<string> := [".goutputstream-", "~$", ".~lock."]

  predicate HasSuffix(s: string, t: string) {
    |t| <= |s| && s[|s| - |t|..] == t
  }

  predicate Ignored(name: string) {
    || name in IGNORED_NAMES
    || (exists s :: s in IGNORED_SUFFIXES && HasSuffix(name, s))
    || (exists p :: p in IGNORED_PREFIXES && p <= name)
  }

  /** One component of a path that cannot escape the root or collide with bookkeeping files. */
  predicate ValidPart(part: string) {
    && part != "" && part != "." && part != ".." && '\0' !in part
    && !HasSuffix(part, STUB_SUFFIX) && !HasSuffix(part, TEMP_SUFFIX)
  }

  /** Every slash-separated component is acceptable; in particular none is empty. */
  predicate ValidPath(p: Path)
    decreases |p|
  {
    && p != ""
    && ValidPart(BaseName(p))
    && (LastIndex(p, '/') < 0 || ValidPath(p[..LastIndex(p, '/')]))
  }

  lemma {:induction false} ValidStart(p: Path)
    requires ValidPath(p)
    ensures p != "" && p[0] != '/'
    decreases |p|
  {
    var k := LastIndex(p, '/');
    if k >= 0 {
      ValidStart(p[..k]);
    }
  }

  lemma ValidIsNamed(p: Path)
    requires ValidPath(p)
    ensures p != ""
  {
  }

  function TrimLeft(s: string): string {
    if s != "" && s[0] == '/' then TrimLeft(s[1..]) else s
  }

  function TrimRight(s: string): string {
    if s != "" && s[|s| - 1] == '/' then TrimRight(s[..|s| - 1]) else s
  }

  function Trim(s: string): string { TrimRight(TrimLeft(s)) }

  /** Under a selective-sync exclusion. */
  predicate Excluded(p: Path, exclude: seq<string>) {
    exists ex :: ex in exclude && Trim(ex) != "" && (p == Trim(ex) || Under(p, Trim(ex)))
  }

  /** Reached and reported by a scan, which does not descend into what it skips. */
  predicate Visible(p: Path, exclude: seq<string>)
    decreases |p|
  {
    && !Ignored(BaseName(p)) && ValidPath(p) && !Excluded(p, exclude)
    && (ParentOf(p) == "" || Visible(ParentOf(p), exclude))
  }

  lemma {:induction false} VisibleAbove(p: Path, d: Path, exclude: seq<string>)
    requires Visible(p, exclude) && Under(p, d) && d != ""
    ensures Visible(d, exclude)
    decreases |p|
  {
    UnderViaParent(p, d);
    if ParentOf(p) != d { VisibleAbove(ParentOf(p), d, exclude); }
  }

  // ----- conflict copies

  function Stem(name: string): string {
    var k := LastIndex(name, '.');
    if k > 0 then name[..k] else name
  }

  function Ext(name: string): string {
    var k := LastIndex(name, '.');
    if k > 0 then name[k..] else ""
  }

  function HostName(host: string): string {
    if host == "" then "unknown-host" else host
  }

  function Marker(stamp: string, host: string): string {
    " (conflict " + stamp + " " + HostName(host) + ")"
  }

  /** The name of a copy: the marker goes between the stem and the extension. */
  function MarkedBase(name: string, marker: string): string {
    Stem(name) + marker + Ext(name)
  }

  function MarkedName(p: Path, marker: string): Path {
    p[..LastIndex(p, '/') + 1] + MarkedBase(BaseName(p), marker)
  }

  /** The name a preserved local copy gets; `stamp` is the time as formatted by the source. */
  function ConflictName(p: Path, stamp: string, host: string): Path {
    MarkedName(p, Marker(stamp, host))
  }

  predicate PlainText(s: string) {
    forall i | 0 <= i < |s| :: s[i] != '/' && s[i] != '(' && s[i] != '\0'
  }

  /** A stamp formatted as `2006-01-02 15-04-05`, on a host with an ordinary name. */
  predicate PlainClock(stamp: string, host: string) {
    |stamp| == 19 && PlainText(stamp) && PlainText(host)
  }

  predicate IsMarker(m: string) {
    && |m| > 2 && m[0] == ' ' && m[1] == '(' && m[|m| - 1] == ')'
    && forall i | 0 <= i < |m| :: (m[i] == '(' ==> i == 1) && m[i] != '/' && m[i] != '\0'
  }

  lemma MarkerShape(stamp: string, host: string)
    requires PlainClock(stamp, host)
    ensures var m := Marker(stamp, host);
      IsMarker(m) && |m| == 32 + |HostName(host)| && m[11..30] == stamp
  {
    var lead, tail := " (conflict ", " " + HostName(host) + ")";
    assert Marker(stamp, host) == lead + stamp + tail;
    assert PlainText(HostName(host));
  }

  lemma SplitName(name: string)
    ensures Stem(name) + Ext(name) == name
    ensures Ext(name) != "" ==> Stem(name) != "" && Ext(name)[0] == '.'
    ensures forall i | 0 < i < |Ext(name)| :: Ext(name)[i] != '.'
    ensures Ext(name) == "" ==> forall i | 0 < i < |Stem(name)| :: Stem(name)[i] != '.'
  {
  }

  /** Of two ways to read one marked name, neither stem can be the longer. */
  lemma StemsAlign(r: string, a: string, m: string, e: string, b: string, n: string, f: string)
    requires r == a + m + e == b + n + f && IsMarker(m) && IsMarker(n) && |m| == |n|
    requires e != "" ==> e[0] == '.'
    requires forall i | 0 < i < |e| :: e[i] != '.'
    requires f != "" ==> f[0] == '.'
    requires f == "" ==> forall i | 0 < i < |b| :: b[i] != '.'
    ensures |b| <= |a|
  {
    assert forall i | |a| <= i < |a| + |m| :: r[i] == m[i - |a|];
    assert forall i | |a| + |m| <= i < |r| :: r[i] == e[i - |a| - |m|];
    assert forall i | 0 <= i < |b| :: r[i] == b[i];
    assert r[|b|] == n[0] && r[|b| + 1] == n[1];
    assert e != "" ==> r[|a| + |m|] == e[0];
    assert f != "" ==> r[|b| + |n|] == f[0];
  }

  lemma MarkedBaseInjective(x: string, y: string, m: string, n: string)
    requires IsMarker(m) && IsMarker(n) && |m| == |n|
    requires MarkedBase(x, m) == MarkedBase(y, n)
    ensures x == y && m == n
  {
    var r, k := MarkedBase(x, m), |Stem(x)|;
    SplitName(x);
    SplitName(y);
    StemsAlign(r, Stem(x), m, Ext(x), Stem(y), n, Ext(y));
    StemsAlign(r, Stem(y), n, Ext(y), Stem(x), m, Ext(x));
    assert Stem(x) == r[..k] == Stem(y);
    assert m == r[k..k + |m|] == n;
    assert Ext(x) == r[k + |m|..] == Ext(y);
  }

  lemma NeitherHas(a: string, b: string, c: char)
    ensures c !in a + b <==> c !in a && c !in b
  {
  }

  lemma MarkedBaseHasNoSlash(name: string, m: string)
    requires '/' !in name && IsMarker(m)
    ensures '/' !in MarkedBase(name, m)
  {
    assert '/' !in Stem(name) && '/' !in Ext(name);
    assert '/' !in m;
    NeitherHas(Stem(name), m, '/');
    NeitherHas(Stem(name) + m, Ext(name), '/');
  }

  lemma LastIndexOf(dir: string, name: string)
    requires '/' !in name && (dir == "" || dir[|dir| - 1] == '/')
    ensures LastIndex(dir + name, '/') == |dir| - 1
  {
    var k := LastIndex(dir + name, '/');
    assert forall i | |dir| <= i < |dir + name| :: (dir + name)[i] == name[i - |dir|];
    assert dir != "" ==> (dir + name)[|dir| - 1] == '/';
  }

  lemma MarkedBaseLength(name: string, m: string)
    requires IsMarker(m)
    ensures |MarkedBase(name, m)| == |name| + |m| && |m| > 2
  {
    SplitName(name);
  }

  /** A marked copy lies in the same folder, under a name of its own. */
  lemma MarkedNameSibling(p: Path, m: string)
    requires IsMarker(m)
    ensures var q := MarkedName(p, m);
      && LastIndex(q, '/') == LastIndex(p, '/')
      && q[..LastIndex(p, '/') + 1] == p[..LastIndex(p, '/') + 1]
      && ParentOf(q) == ParentOf(p)
      && BaseName(q) == MarkedBase(BaseName(p), m)
      && |q| > |p|
  {
    hide MarkedBase, IsMarker;
    var k, name := LastIndex(p, '/'), BaseName(p);
    var dir, q := p[..k + 1], MarkedName(p, m);
    MarkedBaseHasNoSlash(name, m);
    MarkedBaseLength(name, m);
    LastIndexOf(dir, MarkedBase(name, m));
    assert q == dir + MarkedBase(name, m) && q[..k + 1] == dir && q[k + 1..] == MarkedBase(name, m);
    if k >= 0 {
      assert q[..k] == dir[..k] == p[..k];
    }
  }

  lemma SameHalves(p: string, q: string, k: nat)
    requires k <= |p| && k <= |q| && p[..k] == q[..k] && p[k..] == q[k..]
    ensures p == q
  {
    assert p == p[..k] + p[k..] && q == q[..k] + q[k..];
  }

  lemma MarkedNameInjective(p: Path, q: Path, m: string, n: string)
    requires IsMarker(m) && IsMarker(n) && |m| == |n|
    requires MarkedName(p, m) == MarkedName(q, n)
    ensures p == q && m == n
  {
    hide MarkedName, MarkedBase, IsMarker;
    MarkedNameSibling(p, m);
    MarkedNameSibling(q, n);
    MarkedBaseInjective(BaseName(p), BaseName(q), m, n);
    SameHalves(p, q, LastIndex(p, '/') + 1);
  }

  /** A suffix that starts with its only dot, found at the end of a copy's name, was
  already at the end of the original name. */
  lemma SuffixInherited(name: string, m: string, suffix: string)
    requires IsMarker(m)
    requires |suffix| > 1 && suffix[0] == '.' && suffix[|suffix| - 1] != ')'
    requires forall i | 0 < i < |suffix| :: suffix[i] != '.'
    requires HasSuffix(MarkedBase(name, m), suffix)
    ensures HasSuffix(name, suffix)
  {
    var r, e := MarkedBase(name, m), Ext(name);
    SplitName(name);
    var i, j := |r| - |e|, |r| - |suffix|;
    assert r[|r| - 1] == suffix[|suffix| - 1];
    assert (Stem(name) + m)[|Stem(name)| + |m| - 1] == m[|m| - 1];
    assert r[j] == suffix[0];
    assert r[i] == e[0];
    assert r[i..] == e;
    assert name[|name| - |suffix|..] == e;
  }

  lemma PrefixInherited(name: string, m: string, prefix: string)
    requires IsMarker(m) && ' ' !in prefix
    requires prefix <= MarkedBase(name, m)
    ensures prefix <= name
  {
    var r, k := MarkedBase(name, m), |Stem(name)|;
    SplitName(name);
    assert r[k] == m[0] == ' ';
    assert forall i | 0 <= i < |prefix| :: r[i] == prefix[i];
    assert prefix == r[..|prefix|] == Stem(name)[..|prefix|];
    assert Stem(name) <= name;
  }

  lemma TildeInherited(name: string, m: string)
    requires IsMarker(m) && HasSuffix(MarkedBase(name, m), "~")
    ensures HasSuffix(name, "~")
  {
    var r := MarkedBase(name, m);
    SplitName(name);
    assert r[|r| - 1] == r[|r| - 1..][0] == '~';
    assert (Stem(name) + m)[|Stem(name)| + |m| - 1] == m[|m| - 1];
    assert name[|name| - 1] == '~';
    assert name[|name| - 1..] == "~";
  }

  lemma PlainNamesHaveNoBracket(s: string)
    requires s in IGNORED_NAMES
    ensures '(' !in s
  {
  }

  lemma IgnoredSuffixShape(s: string)
    requires s in IGNORED_SUFFIXES
    ensures s == "~" || (|s| > 1 && s[0] == '.' && s[|s| - 1] != ')' && forall i | 0 < i < |s| :: s[i] != '.')
  {
  }

  lemma IgnoredPrefixShape(s: string)
    requires s in IGNORED_PREFIXES
    ensures ' ' !in s
  {
  }

  lemma MarkedBaseNotIgnored(name: string, m: string)
    requires IsMarker(m) && !Ignored(name)
    ensures !Ignored(MarkedBase(name, m))
  {
    var r := MarkedBase(name, m);
    assert r[|Stem(name)| + 1] == '(';
    if r in IGNORED_NAMES {
      PlainNamesHaveNoBracket(r);
      assert false;
    }
    forall s | s in IGNORED_SUFFIXES ensures !HasSuffix(r, s) {
      if HasSuffix(r, s) {
        IgnoredSuffixShape(s);
        if s == "~" { TildeInherited(name, m); } else { SuffixInherited(name, m, s); }
      }
    }
    forall p | p in IGNORED_PREFIXES ensures !(p <= r) {
      if p <= r {
        IgnoredPrefixShape(p);
        PrefixInherited(name, m, p);
      }
    }
  }

  lemma MarkedBaseHasNoNul(name: string, m: string)
    requires IsMarker(m) && '\0' !in name
    ensures '\0' !in MarkedBase(name, m)
  {
    hide Stem, Ext;
    SplitName(name);
    assert '\0' !in m;
    NeitherHas(Stem(name), Ext(name), '\0');
    NeitherHas(Stem(name), m, '\0');
    NeitherHas(Stem(name) + m, Ext(name), '\0');
  }

  lemma NoNewSuffix(name: string, m: string, suffix: string)
    requires IsMarker(m) && !HasSuffix(name, suffix)
    requires |suffix| > 1 && suffix[0] == '.' && suffix[|suffix| - 1] != ')'
    requires forall i | 0 < i < |suffix| :: suffix[i] != '.'
    ensures !HasSuffix(MarkedBase(name, m), suffix)
  {
    if HasSuffix(MarkedBase(name, m), suffix) { SuffixInherited(name, m, suffix); }
  }

  lemma MarkedBaseValid(name: string, m: string)
    requires IsMarker(m) && ValidPart(name)
    ensures ValidPart(MarkedBase(name, m))
  {
    hide MarkedBase, HasSuffix;
    MarkedBaseLength(name, m);
    NoNewSuffix(name, m, STUB_SUFFIX);
    NoNewSuffix(name, m, TEMP_SUFFIX);
    MarkedBaseHasNoNul(name, m);
  }

  /** The copy lies in the same folder as the file it was taken from, never over it. */
  lemma ConflictNameSibling(p: Path, stamp: string, host: string)
    requires PlainClock(stamp, host)
    ensures var q := ConflictName(p, stamp, host);
      ParentOf(q) == ParentOf(p) && q != p && q != ""
  {
    MarkerShape(stamp, host);
    MarkedNameSibling(p, Marker(stamp, host));
  }

  /** Two conflict copies never share a name, whichever paths and times they come from. */
  lemma ConflictNameInjective(p: Path, q: Path, s: string, t: string, host: string)
    requires PlainClock(s, host) && PlainClock(t, host)
    requires ConflictName(p, s, host) == ConflictName(q, t, host)
    ensures p == q && s == t
  {
    MarkerShape(s, host);
    MarkerShape(t, host);
    MarkedNameInjective(p, q, Marker(s, host), Marker(t, host));
  }

  /** A copy of a valid path is valid, so neither side will ever refuse it. */
  lemma ConflictNameValid(p: Path, stamp: string, host: string)
    requires PlainClock(stamp, host) && ValidPath(p)
    ensures ValidPath(ConflictName(p, stamp, host))
  {
    MarkerShape(stamp, host);
    MarkedNameSibling(p, Marker(stamp, host));
    MarkedBaseValid(BaseName(p), Marker(stamp, host));
    var k, q := LastIndex(p, '/'), ConflictName(p, stamp, host);
    if k >= 0 {
      assert q[..k] == q[..k + 1][..k] == p[..k + 1][..k] == p[..k];
    }
  }

  /** A sibling is excluded with the original, or by its own name. */
  lemma SiblingExcluded(p: Path, q: Path, exclude: seq<string>)
    requires ParentOf(q) == ParentOf(p) && !Excluded(p, exclude) && q != ""
    ensures Excluded(q, exclude) <==> exists ex :: ex in exclude && Trim(ex) == q
  {
    hide Trim;
    forall ex | ex in exclude && Trim(ex) != "" ensures !Under(q, Trim(ex)) {
      UnderViaParent(q, Trim(ex));
      UnderViaParent(p, Trim(ex));
    }
  }

  /** The next scan picks the copy up, unless the configuration excludes that very name. */
  lemma ConflictCopyVisible(p: Path, stamp: string, host: string, exclude: seq<string>)
    requires PlainClock(stamp, host) && Visible(p, exclude)
    ensures var q := ConflictName(p, stamp, host);
      Visible(q, exclude) <==> !exists ex :: ex in exclude && Trim(ex) == q
  {
    hide ConflictName, MarkedName, Marker, MarkedBase, Ignored, Excluded, Trim, ValidPath, PlainClock;
    var q, m := ConflictName(p, stamp, host), Marker(stamp, host);
    MarkerShape(stamp, host);
    ConflictNameIsMarked(p, stamp, host);
    MarkedNameSibling(p, m);
    ConflictNameValid(p, stamp, host);
    MarkedBaseNotIgnored(BaseName(p), m);
    SiblingExcluded(p, q, exclude);
  }

  lemma ConflictNameIsMarked(p: Path, stamp: string, host: string)
    ensures ConflictName(p, stamp, host) == MarkedName(p, Marker(stamp, host))
  {
  }
}
