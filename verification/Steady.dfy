/** The push, the download of a single file and other devices keep what placeholders and files
in step with the baseline need of the account (internal/mirror/push.go, mirror.go). */
module Steadiness {
  import opened Types
  import opened Paths
  import opened Names
  import opened SubtreePattern
  import opened World
  import opened PushSteps
  import opened PushRun
  import opened Remotes
  import opened Claims

  // ----- the requests of a push

  /** The link of a parent's row names the account's folder at the parent's path. */
  lemma SteadyParent(w: World, used: set<Link>, exclude: seq<string>, p: Path, parent: Link, dir: Path)
    requires SteadyAccount(w, used, exclude) && ParentRow(w.base, p, parent) && FolderAt(w.remote, parent, dir)
    requires Visible(p, exclude)
    ensures Join(dir, BaseName(p)) == p && ParentLink(w.remote, p, parent)
  {
    hide KindAt, CaseClear;
    ValidStart(p);
    JoinSplit(p);
    if dir != "" { NodeIsNamed(w.remote, dir); }
    if ParentOf(p) != "" { assert StableLink(w, ParentOf(p), dir); }
  }

  /** A node was added at the place of a local entry, or given new content, and perhaps
  recorded. */
  predicate Added(w: World, w': World, used: set<Link>, p: Path, r: Remote, row: Row, recorded: bool) {
    && p in w.disk && (r.isDir <==> w.disk[p].Dir?)
    && ParentLink(w.remote, p, r.parent) && (r.isDir || r.digest == Sum(r.content))
    && (if p in w.remote then r.link == w.remote[p].link && r.isDir == w.remote[p].isDir
        else FreshLink(w.remote, r.link) && r.link !in used)
    && row.link == r.link && row.isDir == r.isDir
    && w' == w.(remote := w.remote[p := r], base := if recorded then w.base[p := row] else w.base)
  }

  lemma SteadyAdded(w: World, w': World, used: set<Link>, exclude: seq<string>, p: Path, r: Remote, row: Row,
                    recorded: bool)
    requires SteadyAccount(w, used, exclude) && Visible(p, exclude) && Added(w, w', used, p, r, row, recorded)
    ensures SteadyAccount(w', used + {r.link}, exclude)
  {
    hide Visible, CaseClear, KindAt, StableLink, AllPaths;
    ValidVisible(p, exclude);
    if p in w.remote { NodeIsNamed(w.remote, p); }
    AddTree(w.remote, p, r);
    forall q ensures KindAt(w', exclude, q) {
      assert KindAt(w, exclude, q);
      KindAdded(w, w', used, exclude, p, r, row, recorded, q);
    }
    forall x, y ensures StableLink(w', x, y) {
      assert StableLink(w, x, y) && StableLink(w, x, p);
      LinkAdded(w, w', used, p, r, row, recorded, x, y);
    }
    SamePaths(w, w', used, p, r, row, recorded);
  }

  lemma KindAdded(w: World, w': World, used: set<Link>, exclude: seq<string>, p: Path, r: Remote, row: Row,
                  recorded: bool, q: Path)
    requires Added(w, w', used, p, r, row, recorded) && Visible(p, exclude) && KindAt(w, exclude, q)
    ensures KindAt(w', exclude, q)
  {
    hide Visible, ParentLink, FreshLink;
  }

  lemma LinkAdded(w: World, w': World, used: set<Link>, p: Path, r: Remote, row: Row, recorded: bool, x: Path, y: Path)
    requires Added(w, w', used, p, r, row, recorded) && AccountTree(w.remote) && LinksUsed(w, used)
    requires StableLink(w, x, y) && StableLink(w, x, p)
    ensures StableLink(w', x, y)
  {
    hide ParentLink;
  }

  lemma SamePaths(w: World, w': World, used: set<Link>, p: Path, r: Remote, row: Row, recorded: bool)
    requires Added(w, w', used, p, r, row, recorded)
    ensures AllPaths(w') == AllPaths(w)
  {
    hide ParentLink, FreshLink;
  }

  lemma ValidVisible(p: Path, exclude: seq<string>)
    requires Visible(p, exclude)
    ensures p != ""
  {
  }

  lemma SteadyMkdir(w: World, w': World, used: set<Link>, exclude: seq<string>, p: Path, link: Link, parent: Link,
                    dir: Path, recorded: bool)
    requires SteadyAccount(w, used, exclude) && IsDir(w.disk, p) && Visible(p, exclude) && ParentRow(w.base, p, parent)
    requires MkdirOutcome(w, w', p, link, parent, dir, recorded) && MayGive(w.remote, used, p, dir, link)
    ensures SteadyAccount(w', used + {link}, exclude)
  {
    hide Visible, SteadyAccount;
    SteadyParent(w, used, exclude, p, parent, dir);
    if p in w.remote {
      assert w.remote[p := w.remote[p]] == w.remote;
      assert w.remote[p].parent == parent by { SteadyTree(w, used, exclude); AccountParent(w.remote, p, parent); }
      SteadyAdded(w, w', used, exclude, p, w.remote[p], DirRow(link, parent), recorded);
    } else {
      SteadyAdded(w, w', used, exclude, p, RemoteDir(link, parent), DirRow(link, parent), recorded);
    }
  }

  lemma SteadyTree(w: World, used: set<Link>, exclude: seq<string>)
    requires SteadyAccount(w, used, exclude)
    ensures AccountTree(w.remote)
  {
  }

  lemma SteadyUpload(w: World, w': World, used: set<Link>, exclude: seq<string>, p: Path, link: Link, parent: Link,
                     dir: Path, recorded: bool)
    requires SteadyAccount(w, used, exclude) && IsFile(w.disk, p) && Visible(p, exclude) && ParentRow(w.base, p, parent)
    requires UploadOutcome(w, w', p, link, parent, dir, recorded) && MayGive(w.remote, used, p, dir, link)
    ensures SteadyAccount(w', used + {link}, exclude)
  {
    hide Visible, SteadyAccount;
    SteadyParent(w, used, exclude, p, parent, dir);
    var f := w.disk[p];
    SteadyAdded(w, w', used, exclude, p, RemoteFile(link, parent, f.content, f.mtime), UploadRow(link, parent, f),
                recorded);
  }

  /** Nodes and rows only went. */
  lemma SteadyLess(w: World, w': World, used: set<Link>, exclude: seq<string>)
    requires SteadyAccount(w, used, exclude) && AccountTree(w'.remote) && w'.disk == w.disk
    requires forall q | q in w'.remote :: q in w.remote && w'.remote[q] == w.remote[q]
    requires forall q | q in w'.base :: q in w.base && w'.base[q] == w.base[q]
    ensures SteadyAccount(w', used, exclude)
  {
    hide Visible, CaseClear;
    forall q ensures KindAt(w', exclude, q) {
      assert KindAt(w, exclude, q);
    }
    forall x, y ensures StableLink(w', x, y) {
      assert StableLink(w, x, y);
    }
    CaseClearLess(AllPaths(w), AllPaths(w), AllPaths(w'), AllPaths(w'));
  }

  lemma SteadyTrash(w: World, w': World, used: set<Link>, exclude: seq<string>, row: Row, p: Path, at: Path,
                    forgotten: bool)
    requires SteadyAccount(w, used, exclude) && TrashOutcome(w, w', row, p, at, forgotten)
    ensures SteadyAccount(w', used, exclude)
  {
    hide KindAt, StableLink, CaseClear;
    WithoutTree(w.remote, at);
    SteadyLess(w, w', used, exclude);
  }

  // ----- one file is fetched

  /** A placeholder's file was put in its stead, or nothing but folders came of it. */
  predicate Placed(w: World, w': World, p: Path, f: Entry, parents: bool, placed: bool) {
    && p in w.base && !w.base[p].isDir && !w.base[p].materialized && w'.remote == w.remote
    && (placed ==> parents && f.File?)
    && (var disk1 := if parents then WithDirs(w.disk, ParentOf(p)) else w.disk;
        w'.disk == if placed then disk1[p := f] else disk1)
    && if placed then p in w'.base && w'.base == w.base[p := w'.base[p]] && !w'.base[p].isDir
                      && w'.base[p].link == w.base[p].link
       else w'.base == w.base
  }

  lemma SteadyPlaced(w: World, w': World, used: set<Link>, exclude: seq<string>, p: Path, f: Entry, parents: bool,
                     placed: bool)
    requires Mirrored(w) && SteadyAccount(w, used, exclude) && Placed(w, w', p, f, parents, placed)
    ensures SteadyAccount(w', used, exclude)
  {
    hide Visible, CaseClear, KindAt, StableLink;
    forall q ensures KindAt(w', exclude, q) {
      assert KindAt(w, exclude, q);
      PlacedElsewhere(w, w', p, f, parents, placed, q);
      KindPlaced(w, w', exclude, p, f, q);
    }
    forall x, y ensures StableLink(w', x, y) {
      assert StableLink(w, x, y);
      LinkPlaced(w, w', p, f, parents, placed, x, y);
    }
    forall q ensures q in AllPaths(w') ==> q in AllPaths(w) {
      PlacedElsewhere(w, w', p, f, parents, placed, q);
    }
    CaseClearLess(AllPaths(w), AllPaths(w), AllPaths(w'), AllPaths(w'));
  }

  /** The folders above a placeholder are there already. */
  lemma PlacedElsewhere(w: World, w': World, p: Path, f: Entry, parents: bool, placed: bool, q: Path)
    requires Mirrored(w) && Placed(w, w', p, f, parents, placed)
    ensures q in w'.disk ==> (q in w.disk && w'.disk[q] == w.disk[q]) || (q == p && w'.disk[q] == f && f.File?)
  {
    assert MirroredAt(w.disk, w.stubs, w.base, p);
    if q in Chain(ParentOf(p)) && q !in w.disk { PlaceholderAbove(w, p, q); }
  }

  lemma KindPlaced(w: World, w': World, exclude: seq<string>, p: Path, f: Entry, q: Path)
    requires KindAt(w, exclude, q) && p in w.base && !w.base[p].isDir && w'.remote == w.remote
    requires q in w'.disk ==> (q in w.disk && w'.disk[q] == w.disk[q]) || (q == p && w'.disk[q] == f && f.File?)
    requires w'.base == w.base || (p in w'.base && w'.base == w.base[p := w'.base[p]] && !w'.base[p].isDir)
    ensures KindAt(w', exclude, q)
  {
    hide Visible;
  }

  lemma LinkPlaced(w: World, w': World, p: Path, f: Entry, parents: bool, placed: bool, x: Path, y: Path)
    requires Placed(w, w', p, f, parents, placed) && StableLink(w, x, y)
    ensures StableLink(w', x, y)
  {
    hide WithDirs;
  }

  // ----- other devices

  /** A node as another device may leave it: the one that was there, perhaps edited, or a new
  one under a link that was never used; under a name that a scan sees, with its digest, and
  of the kind that the path has here. */
  predicate PeacefulAt(w: World, used: set<Link>, exclude: seq<string>, nodes: Account, p: Path)
    requires p in nodes
  {
    && (if p in w.remote && nodes[p].link == w.remote[p].link then nodes[p].isDir == w.remote[p].isDir
        else nodes[p].link !in used)
    && Visible(p, exclude) && (!nodes[p].isDir ==> nodes[p].digest == Sum(nodes[p].content))
    && (p in w.base ==> nodes[p].isDir == w.base[p].isDir)
    && (p in w.disk ==> (nodes[p].isDir <==> w.disk[p].Dir?))
  }

  /** Other devices have created, edited and deleted. No name is a case variant of another. */
  predicate Peaceful(w: World, used: set<Link>, exclude: seq<string>, nodes: Account) {
    && AccountTree(nodes) && (forall p | p in nodes :: PeacefulAt(w, used, exclude, nodes, p))
    && CaseClear(AllPaths(w) + nodes.Keys, AllPaths(w) + nodes.Keys)
  }

  function LinksOf(nodes: Account): set<Link> { set p | p in nodes :: nodes[p].link }

  lemma SteadyThroughOthers(w: World, used: set<Link>, exclude: seq<string>, nodes: Account)
    requires SteadyAccount(w, used, exclude) && Peaceful(w, used, exclude, nodes)
    ensures SteadyAccount(w.(remote := nodes), used + LinksOf(nodes), exclude)
  {
    hide Visible, CaseClear;
    var w' := w.(remote := nodes);
    forall q ensures KindAt(w', exclude, q) {
      assert KindAt(w, exclude, q);
      assert q in nodes ==> PeacefulAt(w, used, exclude, nodes, q);
    }
    forall x, y ensures StableLink(w', x, y) {
      assert StableLink(w, x, y);
      assert y in nodes ==> PeacefulAt(w, used, exclude, nodes, y);
    }
    forall p | p in nodes ensures nodes[p].link != ROOT_LINK { NodeIsNamed(nodes, p); }
    CaseClearLess(AllPaths(w) + nodes.Keys, AllPaths(w) + nodes.Keys, AllPaths(w'), AllPaths(w'));
  }
}
