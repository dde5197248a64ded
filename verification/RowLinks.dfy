/** The baseline stays a tree while the push changes it (internal/mirror/push.go), whichever
of its requests and statements fail. */
module RowLinks {
  import opened Types
  import opened Paths
  import opened Names
  import opened SubtreePattern
  import opened World
  import opened MoveDetection
  import opened PushSteps
  import opened PushRun
  import opened Remotes

  /** Every row's parent row is present, a folder, and carries the id that the row stores. */
  predicate RowTree(base: Base) {
    forall p {:trigger ParentOf(p)} | p in base :: p != "" && ParentRow(base, p, base[p].parent)
  }

  /** One row and the account: the row's link, where it exists, is that of the same kind of
  node, of a folder only at the row's own path; and folders that a scan sees exist in the account. */
  predicate LinkedAt(w: World, used: set<Link>, exclude: seq<string>, p: Path)
    requires p in w.base
  {
    && w.base[p].link in used
    && (Live(w.disk, exclude, p) ==> (w.base[p].isDir <==> w.disk[p].Dir?))
    && (Live(w.disk, exclude, p) && w.base[p].isDir ==>
          p in w.remote && w.remote[p].isDir && w.remote[p].link == w.base[p].link)
    && (forall q | q in w.remote && w.remote[q].link == w.base[p].link ::
          w.remote[q].isDir == w.base[p].isDir && (w.base[p].isDir ==> q == p))
  }

  ghost predicate Linked(w: World, used: set<Link>, exclude: seq<string>) {
    && Tree(w.disk) && AccountTree(w.remote) && RowTree(w.base)
    && (forall p | p in w.base :: LinkedAt(w, used, exclude, p))
    && (forall q | q in w.remote :: w.remote[q].link in used)
  }

  /** The parent row of a local entry names the account's folder at that place. */
  lemma ParentIsLinked(w: World, used: set<Link>, exclude: seq<string>, p: Path, parent: Link)
    requires Linked(w, used, exclude) && Live(w.disk, exclude, p) && ParentRow(w.base, p, parent)
    ensures ParentLink(w.remote, p, parent)
  {
    if ParentOf(p) != "" { assert LinkedAt(w, used, exclude, ParentOf(p)); }
  }

  /** Only folders have rows below them. */
  lemma FileRowIsLeaf(base: Base, p: Path, q: Path)
    requires RowTree(base) && p in base && !base[p].isDir && q in base
    ensures ParentOf(q) != p || ParentOf(q) == ""
  {
  }

  /** A row is added or replaced. */
  lemma PutTree(base: Base, p: Path, row: Row)
    requires RowTree(base) && p != "" && ParentRow(base, p, row.parent)
    requires p in base && base[p].isDir ==> row.isDir && row.link == base[p].link
    ensures RowTree(base[p := row])
  {
    var base' := base[p := row];
    forall q | q in base' ensures q != "" && ParentRow(base', q, base'[q].parent) {
      if q != p && ParentOf(q) == p && ParentOf(q) != "" && p in base && !base[p].isDir {
        FileRowIsLeaf(base, p, q);
      }
    }
  }

  /** The rows of a removed file, or of a removed folder and all that the pattern selects. */
  lemma ForgetTree(base: Base, p: Path, isDir: bool)
    requires RowTree(base) && (p in base ==> isDir == base[p].isDir) && p != ""
    ensures RowTree(Forget(base, p, isDir))
  {
    var base' := Forget(base, p, isDir);
    forall q | q in base' ensures q != "" && ParentRow(base', q, base'[q].parent) {
      if ParentOf(q) != "" {
        if isDir {
          if Selected(p, ParentOf(q)) { SelectionClosed(p, q); }
        } else if p in base {
          FileRowIsLeaf(base, p, q);
        }
      }
    }
  }

  /** A node was added or given new content; a row elsewhere is linked as before. */
  lemma AddedElsewhere(w: World, used: set<Link>, exclude: seq<string>, p: Path, r: Remote, w': World, q: Path)
    requires Linked(w, used, exclude) && w'.disk == w.disk && w'.remote == w.remote[p := r]
    requires if p in w.remote then r.link == w.remote[p].link && r.isDir == w.remote[p].isDir else r.link !in used
    requires q in w.base && q in w'.base && w'.base[q] == w.base[q]
    ensures LinkedAt(w', used + {r.link}, exclude, q)
  {
    hide Visible, ParentRow;
    assert LinkedAt(w, used, exclude, q);
  }

  /** A row that was just written names the node that was just written. */
  lemma LinkedHere(w': World, used: set<Link>, exclude: seq<string>, p: Path)
    requires AccountTree(w'.remote) && p in w'.base && p in w'.remote && w'.base[p].link in used
    requires w'.base[p].link == w'.remote[p].link && w'.base[p].isDir == w'.remote[p].isDir
    requires p in w'.disk && (w'.base[p].isDir <==> w'.disk[p].Dir?)
    ensures LinkedAt(w', used, exclude, p)
  {
  }

  /** A folder was asked for, and perhaps recorded. */
  lemma MkdirLinked(w: World, used: set<Link>, exclude: seq<string>, p: Path, link: Link, parent: Link, recorded: bool)
    requires Linked(w, used, exclude) && IsDir(w.disk, p) && Visible(p, exclude) && ParentRow(w.base, p, parent)
    requires if p in w.remote then w.remote[p].isDir && link == w.remote[p].link
             else FreshLink(w.remote, link) && link !in used
    ensures var w' := w.(remote := if p in w.remote then w.remote else w.remote[p := RemoteDir(link, parent)],
                         base := if recorded then w.base[p := DirRow(link, parent)] else w.base);
      Linked(w', used + {link}, exclude)
  {
    hide Visible;
    var remote' := if p in w.remote then w.remote else w.remote[p := RemoteDir(link, parent)];
    var w' := w.(remote := remote', base := if recorded then w.base[p := DirRow(link, parent)] else w.base);
    ParentIsLinked(w, used, exclude, p, parent);
    EntryIsNamed(w.disk, p);
    if p !in w.remote { AddTree(w.remote, p, RemoteDir(link, parent)); }
    if p in w.base { assert LinkedAt(w, used, exclude, p); }
    PutTree(w.base, p, DirRow(link, parent));
    forall q | q in w'.base ensures LinkedAt(w', used + {link}, exclude, q) {
      if recorded && q == p {
        LinkedHere(w', used + {link}, exclude, p);
      } else {
        AddedElsewhere(w, used, exclude, p, remote'[p], w', q);
      }
    }
  }

  /** A file was uploaded, and perhaps recorded. */
  lemma UploadLinked(w: World, used: set<Link>, exclude: seq<string>, p: Path, link: Link, parent: Link, r: Remote,
          row: Row, recorded: bool)
    requires Linked(w, used, exclude) && IsFile(w.disk, p) && Visible(p, exclude) && ParentRow(w.base, p, parent)
    requires if p in w.remote then !w.remote[p].isDir && link == w.remote[p].link
             else FreshLink(w.remote, link) && link !in used
    requires r.link == row.link == link && r.parent == row.parent == parent && !r.isDir && !row.isDir
    ensures Linked(w.(remote := w.remote[p := r], base := if recorded then w.base[p := row] else w.base),
                   used + {link}, exclude)
  {
    hide Visible;
    var w' := w.(remote := w.remote[p := r], base := if recorded then w.base[p := row] else w.base);
    ParentIsLinked(w, used, exclude, p, parent);
    EntryIsNamed(w.disk, p);
    if p in w.remote { NodeIsNamed(w.remote, p); }
    AddTree(w.remote, p, r);
    if p in w.base { assert LinkedAt(w, used, exclude, p); }
    PutTree(w.base, p, row);
    forall q | q in w'.base ensures LinkedAt(w', used + {link}, exclude, q) {
      if recorded && q == p {
        LinkedHere(w', used + {link}, exclude, p);
      } else {
        AddedElsewhere(w, used, exclude, p, r, w', q);
      }
    }
  }

  /** A vanished file was moved, and perhaps forgotten and recorded anew. */
  lemma MoveLinked(w: World, used: set<Link>, exclude: seq<string>, from: Path, at: Path, to: Path, parent: Link,
          row: Row,
                   forgotten: bool, recorded: bool)
    requires Linked(w, used, exclude) && from in w.base && !w.base[from].isDir && from != to
    requires at in w.remote && w.remote[at].link == w.base[from].link && !w.remote[at].isDir
    requires IsFile(w.disk, to) && Visible(to, exclude) && to !in w.remote && ParentRow(w.base, to, parent)
    requires row.link == w.base[from].link && row.parent == parent && !row.isDir && (recorded ==> forgotten)
    ensures var rows := if forgotten then Forget(w.base, from, false) else w.base;
      Linked(w.(remote := (w.remote - {at})[to := w.remote[at].(parent := parent)],
                base := if recorded then rows[to := row] else rows), used, exclude)
  {
    hide Visible;
    var remote' := (w.remote - {at})[to := w.remote[at].(parent := parent)];
    var rows := if forgotten then Forget(w.base, from, false) else w.base;
    var w' := w.(remote := remote', base := if recorded then rows[to := row] else rows);
    ParentIsLinked(w, used, exclude, to, parent);
    EntryIsNamed(w.disk, to);
    ParentAbove(from);
    MoveTree(w.remote, at, to, parent);
    ForgetTree(w.base, from, false);
    if to in w.base { assert LinkedAt(w, used, exclude, to); }
    if recorded { PutTree(rows, to, row); }
    assert LinkedAt(w, used, exclude, from);
    forall q | q in w'.base ensures LinkedAt(w', used, exclude, q) {
      if q != to || !recorded { MovedElsewhere(w, used, exclude, from, at, to, parent, w', q); }
    }
  }

  lemma MovedElsewhere(w: World, used: set<Link>, exclude: seq<string>, from: Path, at: Path, to: Path, parent: Link,
          w': World, q: Path)
    requires Linked(w, used, exclude) && at in w.remote && !w.remote[at].isDir && to !in w.remote && w'.disk == w.disk
    requires w'.remote == (w.remote - {at})[to := w.remote[at].(parent := parent)]
    requires q in w.base && q in w'.base && w'.base[q] == w.base[q]
    ensures LinkedAt(w', used, exclude, q)
  {
    assert LinkedAt(w, used, exclude, q);
  }

  lemma FileNodeIsLeaf(remote: Account, p: Path, q: Path)
    requires AccountTree(remote) && p in remote && !remote[p].isDir && q in remote && p != ""
    ensures !Under(q, p)
  {
    if Under(q, p) { AboveIsRemoteDir(remote, q, p); }
  }

  /** A vanished row was trashed in the account, and perhaps forgotten. */
  lemma TrashLinked(w: World, used: set<Link>, exclude: seq<string>, p: Path, at: Path, forgotten: bool)
    requires Linked(w, used, exclude) && p in w.base && !Live(w.disk, exclude, p)
    requires at in w.remote && w.remote[at].link == w.base[p].link
    ensures Linked(w.(remote := Without(w.remote, at),
                      base := if forgotten then Forget(w.base, p, w.base[p].isDir) else w.base), used, exclude)
  {
    var w' := w.(remote := Without(w.remote, at),
                 base := if forgotten then Forget(w.base, p, w.base[p].isDir) else w.base);
    ParentAbove(p);
    NodeIsNamed(w.remote, at);
    WithoutTree(w.remote, at);
    ForgetTree(w.base, p, w.base[p].isDir);
    assert LinkedAt(w, used, exclude, p);
    forall q | q in w'.base ensures LinkedAt(w', used, exclude, q) {
      assert LinkedAt(w, used, exclude, q);
      if Live(w.disk, exclude, q) && w.base[q].isDir {
        if w.base[p].isDir {
          if Under(q, p) { AboveIsDir(w.disk, q, p); VisibleAbove(q, p, exclude); }
        } else {
          FileNodeIsLeaf(w.remote, at, q);
        }
      }
    }
  }

  // ----- nodes that were moved

  /** Trashing a vanished row takes a node at a live path along if and only if the row carries
  that node's link: never because the node once lay in the row's folder. */
  lemma MovedNodeStays(w: World, used: set<Link>, exclude: seq<string>, p: Path, at: Path, to: Path)
    requires Linked(w, used, exclude) && p in w.base && !Live(w.disk, exclude, p)
    requires at in w.remote && w.remote[at].link == w.base[p].link
    requires to in w.remote && Live(w.disk, exclude, to)
    ensures to in Without(w.remote, at) <==> w.remote[to].link != w.base[p].link
  {
    hide Visible;
    assert LinkedAt(w, used, exclude, p);
    ParentAbove(p);
    NodeIsNamed(w.remote, at);
    if Under(to, at) {
      AboveIsRemoteDir(w.remote, to, at);
      AboveIsDir(w.disk, to, p);
      VisibleAbove(to, p, exclude);
    }
  }

  lemma RelocatedThroughTrash(w: World, w': World, used: set<Link>, exclude: seq<string>, plan: Plan,
                              granted: set<Path>, p: Path, at: Path, forgotten: bool)
    requires Linked(w, used, exclude) && Relocated(w.remote, plan, granted)
    requires p in plan.due && p in plan.base && p in w.base && w.base[p] == plan.base[p] && !Live(w.disk, exclude, p)
    requires TrashOutcome(w, w', plan.base[p], p, at, forgotten)
    requires granted <= plan.moves.Keys && plan.due !! plan.moves.Keys
    requires forall from | from in granted :: Live(w.disk, exclude, plan.moves[from])
    ensures Relocated(w'.remote, plan, granted)
  {
    hide Linked, Live;
    forall from | from in granted ensures RelocatedAt(w'.remote, plan, from) {
      assert RelocatedAt(w.remote, plan, from);
      if plan.OwnLink(from) { MovedNodeStays(w, used, exclude, p, at, plan.moves[from]); }
    }
  }

  lemma RelocatedByMove(w: World, w': World, used: set<Link>, exclude: seq<string>, plan: Plan, granted: set<Path>,
                        from: Path, at: Path, n: LocalNode, parent: Link, dir: Path, forgotten: bool, recorded: bool)
    requires Linked(w, used, exclude) && Relocated(w.remote, plan, granted) && granted <= plan.moves.Keys
    requires from in plan.moves && from in plan.base && from !in granted
    requires Live(w.disk, exclude, plan.moves[from]) && ParentRow(w.base, plan.moves[from], parent)
    requires MoveOutcome(w, w', plan.base[from], from, at, plan.moves[from], n, parent, dir, forgotten, recorded)
    ensures Relocated(w'.remote, plan, granted + {from})
  {
    hide Linked, FolderAt, ParentRow;
    var to := plan.moves[from];
    PlaceIsTarget(w, used, exclude, to, parent, dir);
    forall g | g in granted + {from} ensures RelocatedAt(w'.remote, plan, g) {
      if g != from { assert RelocatedAt(w.remote, plan, g); }
    }
  }

  /** Under its parent's link a local entry is asked for at its own path. */
  lemma PlaceIsTarget(w: World, used: set<Link>, exclude: seq<string>, p: Path, parent: Link, dir: Path)
    requires Linked(w, used, exclude) && Live(w.disk, exclude, p) && ParentRow(w.base, p, parent)
    requires FolderAt(w.remote, parent, dir)
    ensures Join(dir, BaseName(p)) == p
  {
    ParentIsLinked(w, used, exclude, p, parent);
    LinkIsPath(w.remote, p, parent, dir);
  }

  // ----- the same, for one request and its record

  lemma MkdirKept(w: World, w': World, used: set<Link>, exclude: seq<string>, p: Path, link: Link, parent: Link,
          dir: Path, recorded: bool)
    requires Linked(w, used, exclude) && IsDir(w.disk, p) && Visible(p, exclude) && ParentRow(w.base, p, parent)
    requires MkdirOutcome(w, w', p, link, parent, dir, recorded) && MayGive(w.remote, used, p, dir, link)
    ensures Linked(w', used + {link}, exclude)
  {
    ParentIsLinked(w, used, exclude, p, parent);
    LinkIsPath(w.remote, p, parent, dir);
    MkdirLinked(w, used, exclude, p, link, parent, recorded);
  }

  lemma UploadKept(w: World, w': World, used: set<Link>, exclude: seq<string>, p: Path, link: Link, parent: Link,
          dir: Path, recorded: bool)
    requires Linked(w, used, exclude) && IsFile(w.disk, p) && Visible(p, exclude) && ParentRow(w.base, p, parent)
    requires UploadOutcome(w, w', p, link, parent, dir, recorded) && MayGive(w.remote, used, p, dir, link)
    ensures Linked(w', used + {link}, exclude)
  {
    ParentIsLinked(w, used, exclude, p, parent);
    LinkIsPath(w.remote, p, parent, dir);
    var f := w.disk[p];
    UploadLinked(w, used, exclude, p, link, parent, RemoteFile(link, parent, f.content, f.mtime), UploadRow(link,
        parent, f), recorded);
  }

  lemma MoveKept(w: World, w': World, used: set<Link>, exclude: seq<string>, from: Path, at: Path, to: Path,
          n: LocalNode, parent: Link,
                 dir: Path, forgotten: bool, recorded: bool)
    requires Linked(w, used, exclude) && from in w.base && !w.base[from].isDir && from != to
    requires IsFile(w.disk, to) && Visible(to, exclude) && ParentRow(w.base, to, parent) && (recorded ==> forgotten)
    requires MoveOutcome(w, w', w.base[from], from, at, to, n, parent, dir, forgotten, recorded)
    ensures Linked(w', used, exclude)
  {
    ParentIsLinked(w, used, exclude, to, parent);
    LinkIsPath(w.remote, to, parent, dir);
    MoveLinked(w, used, exclude, from, at, to, parent, MovedRow(w.base[from], parent, n), forgotten, recorded);
  }
}
