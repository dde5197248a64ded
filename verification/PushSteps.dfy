/** The steps of the push stage on the baseline and the account
(internal/mirror/push.go), and the agreement they lead to. */
module PushSteps {
  import opened Types
  import opened Paths
  import opened Names
  import opened SubtreePattern
  import opened World

  // ----- effects

  function RemoteFile(link: Link, parent: Link, content: Content, mtime: Time): Remote {
    Remote(link, parent, false, content, |content|, mtime, Sum(content))
  }

  function RemoteDir(link: Link, parent: Link): Remote {
    Remote(link, parent, true, [], 0, 0, Unknown)
  }

  function Without(remote: Account, p: Path): Account {
    map q | q in remote && !AtOrUnder(q, p) :: remote[q]
  }

  function TrashEffect(w: World, p: Path): World
    requires p in w.base
  {
    w.(remote := Without(w.remote, p), base := Forget(w.base, p, w.base[p].isDir))
  }

  function MkdirEffect(w: World, p: Path, link: Link, parent: Link): World {
    w.(remote := w.remote[p := RemoteDir(link, parent)], base := w.base[p := DirRow(link, parent)])
  }

  function UploadRow(link: Link, parent: Link, f: Entry): Row
    requires f.File?
  {
    Row(link, parent, false, Sum(f.content), |f.content|, f.mtime, f.inode, true)
  }

  function UploadEffect(w: World, p: Path, link: Link, parent: Link): World
    requires IsFile(w.disk, p)
  {
    var f := w.disk[p];
    w.(remote := w.remote[p := RemoteFile(link, parent, f.content, f.mtime)],
       base := w.base[p := UploadRow(link, parent, f)])
  }

  function MoveEffect(w: World, from: Path, to: Path, parent: Link, row: Row): World
    requires from in w.remote
  {
    w.(remote := (w.remote - {from})[to := w.remote[from].(parent := parent)],
       base := (w.base - {from})[to := row])
  }

  // ----- agreement

  /** Row and remote node describe the same thing. */
  predicate SameNode(row: Row, r: Remote) {
    row.link == r.link && row.parent == r.parent && row.isDir == r.isDir
  }

  /** One path on which folder, baseline and account agree. */
  predicate InSync(w: World, p: Path) {
    && p in w.disk && p in w.base && p in w.remote && SameNode(w.base[p], w.remote[p])
    && w.base[p].materialized
    && if w.remote[p].isDir then w.disk[p].Dir? && w.base[p] == DirRow(w.remote[p].link, w.remote[p].parent)
       else && w.disk[p].File? && w.disk[p].content == w.remote[p].content
            && w.base[p].hash == w.remote[p].digest == Sum(w.disk[p].content)
            && w.remote[p].size == |w.remote[p].content|
  }

  predicate AgreedAt(w: World, exclude: seq<string>, p: Path) {
    && (p in w.base <==> p in w.remote)
    && (p in w.base <==> p in w.disk && Visible(p, exclude))
    && (p in w.base ==> InSync(w, p))
  }

  /** What the user sees, what pDrive remembers and what the account holds are one tree. */
  ghost predicate Agreed(w: World, exclude: seq<string>) {
    && Tree(w.disk) && AccountTree(w.remote) && w.stubs == {}
    && forall p :: AgreedAt(w, exclude, p)
  }

  // ----- what the push keeps

  predicate PushAt(w: World, exclude: seq<string>, p: Path) {
    && (p in w.base <==> p in w.remote)
    && (p in w.base ==>
          var row, r := w.base[p], w.remote[p];
          && SameNode(row, r) && Visible(p, exclude) && row.materialized
          && (p in w.disk ==> (r.isDir <==> w.disk[p].Dir?))
          && if r.isDir then row == DirRow(r.link, r.parent)
             else && r.digest == Sum(r.content) && r.size == |r.content|
                  && (row.hash == Sum(r.content) || FileAt(w.disk, p) == Some(r.content)))
  }

  ghost predicate PushInv(w: World, exclude: seq<string>) {
    && Tree(w.disk) && AccountTree(w.remote) && w.stubs == {}
    && forall p :: PushAt(w, exclude, p)
  }

  /** The link under which a path's parent is known. */
  predicate ParentLink(remote: Account, p: Path, parent: Link) {
    if ParentOf(p) == "" then parent == ROOT_LINK
    else ParentOf(p) in remote && remote[ParentOf(p)].isDir && parent == remote[ParentOf(p)].link
  }

  predicate FreshLink(remote: Account, link: Link) {
    link != ROOT_LINK && forall q | q in remote :: remote[q].link != link
  }

  lemma WithoutTree(remote: Account, p: Path)
    requires AccountTree(remote)
    ensures AccountTree(Without(remote, p))
  {
    var after := Without(remote, p);
    forall q | q in after
      ensures q != "" && after[q].link != ROOT_LINK
      ensures if ParentOf(q) == "" then after[q].parent == ROOT_LINK
              else ParentOf(q) in after && after[ParentOf(q)].isDir && after[q].parent == after[ParentOf(q)].link
    {
      if ParentOf(q) != "" {
        ParentAbove(q);
        if ParentOf(q) == p { } else if Under(ParentOf(q), p) { UnderTransitive(q, ParentOf(q), p); }
      }
    }
  }

  lemma AddTree(remote: Account, p: Path, r: Remote)
    requires AccountTree(remote) && p != "" && r.link != ROOT_LINK && ParentLink(remote, p, r.parent)
    requires if p in remote then r.link == remote[p].link && r.isDir == remote[p].isDir
             else FreshLink(remote, r.link)
    ensures AccountTree(remote[p := r])
  {
    var after := remote[p := r];
    forall q | q in after
      ensures q != "" && after[q].link != ROOT_LINK
      ensures if ParentOf(q) == "" then after[q].parent == ROOT_LINK
              else ParentOf(q) in after && after[ParentOf(q)].isDir && after[q].parent == after[ParentOf(q)].link
    {
      assert q in remote ==> ParentOf(q) == "" || ParentOf(q) in remote;
    }
  }

  /** A file moves: nothing lies below it, so the rest of the tree stands. */
  lemma MoveTree(remote: Account, from: Path, to: Path, parent: Link)
    requires AccountTree(remote) && from in remote && !remote[from].isDir
    requires to != "" && to !in remote && ParentLink(remote, to, parent)
    ensures AccountTree((remote - {from})[to := remote[from].(parent := parent)])
  {
    var after := (remote - {from})[to := remote[from].(parent := parent)];
    forall q | q in after
      ensures q != "" && after[q].link != ROOT_LINK
      ensures if ParentOf(q) == "" then after[q].parent == ROOT_LINK
              else ParentOf(q) in after && after[ParentOf(q)].isDir && after[q].parent == after[ParentOf(q)].link
    {
      assert q in remote ==> ParentOf(q) == "" || (ParentOf(q) in remote && remote[ParentOf(q)].isDir);
      assert ParentOf(to) == "" || (ParentOf(to) in remote && remote[ParentOf(to)].isDir);
      ParentAbove(from);
    }
  }

  // ----- each step keeps it

  /** Trashing a row whose local entry is gone. */
  lemma TrashKeeps(w: World, exclude: seq<string>, p: Path)
    requires PushInv(w, exclude) && p in w.base && p !in w.disk
    requires CaseClear({p}, w.base.Keys)
    ensures PushInv(TrashEffect(w, p), exclude)
    ensures forall q :: q in TrashEffect(w, p).base <==> q in w.base && !AtOrUnder(q, p)
  {
    var w' := TrashEffect(w, p);
    WithoutTree(w.remote, p);
    assert PushAt(w, exclude, p);
    forall q ensures PushAt(w', exclude, q)
      ensures q in w'.base <==> q in w.base && !AtOrUnder(q, p)
    {
      assert PushAt(w, exclude, q);
      if q in w.base && w.base[p].isDir {
        SubtreeExactWithoutCaseVariants({p}, w.base.Keys, p);
      } else if q in w.base && Under(q, p) {
        BelowIsDir(w, exclude, p, q);
      }
    }
  }

  lemma BelowIsDir(w: World, exclude: seq<string>, p: Path, q: Path)
    requires PushInv(w, exclude) && p in w.base && q in w.base && Under(q, p)
    ensures w.base[p].isDir
  {
    assert PushAt(w, exclude, p);
    assert PushAt(w, exclude, q);
    NodeIsNamed(w.remote, p);
    AboveIsRemoteDir(w.remote, q, p);
  }

  lemma MkdirKeeps(w: World, exclude: seq<string>, p: Path, link: Link, parent: Link)
    requires PushInv(w, exclude) && p !in w.base && IsDir(w.disk, p) && Visible(p, exclude)
    requires ParentLink(w.remote, p, parent) && FreshLink(w.remote, link)
    ensures var w' := MkdirEffect(w, p, link, parent);
      PushInv(w', exclude) && InSync(w', p)
  {
    var w' := MkdirEffect(w, p, link, parent);
    assert PushAt(w, exclude, p);
    AddTree(w.remote, p, RemoteDir(link, parent));
    forall q ensures PushAt(w', exclude, q) {
      assert PushAt(w, exclude, q);
    }
  }

  lemma UploadKeeps(w: World, exclude: seq<string>, p: Path, link: Link, parent: Link)
    requires PushInv(w, exclude) && IsFile(w.disk, p) && Visible(p, exclude)
    requires ParentLink(w.remote, p, parent)
    requires if p in w.remote then link == w.remote[p].link else FreshLink(w.remote, link)
    ensures var w' := UploadEffect(w, p, link, parent);
      PushInv(w', exclude) && InSync(w', p)
  {
    var w' := UploadEffect(w, p, link, parent);
    assert PushAt(w, exclude, p);
    if p in w.remote { NodeIsNamed(w.remote, p); }
    AddTree(w.remote, p, RemoteFile(link, parent, w.disk[p].content, w.disk[p].mtime));
    forall q ensures PushAt(w', exclude, q) {
      assert PushAt(w, exclude, q);
    }
  }

  /** Moving a vanished file to where its content now is. */
  lemma MoveKeeps(w: World, exclude: seq<string>, from: Path, to: Path, parent: Link, row: Row)
    requires PushInv(w, exclude)
    requires from in w.base && from in w.remote && !w.base[from].isDir && from !in w.disk
    requires to !in w.base && Visible(to, exclude) && ParentLink(w.remote, to, parent)
    requires IsFile(w.disk, to) && w.base[from].hash == Sum(w.disk[to].content)
    requires row.link == w.base[from].link && row.parent == parent && !row.isDir && row.materialized
    requires row.hash == Sum(w.disk[to].content)
    ensures var w' := MoveEffect(w, from, to, parent, row);
      PushInv(w', exclude) && InSync(w', to)
  {
    var w' := MoveEffect(w, from, to, parent, row);
    assert PushAt(w, exclude, from);
    assert PushAt(w, exclude, to);
    MoveTree(w.remote, from, to, parent);
    forall q ensures PushAt(w', exclude, q) {
      assert PushAt(w, exclude, q);
    }
  }

  /** A tracked entry that needs no upload is in sync already. */
  lemma UnchangedInSync(w: World, exclude: seq<string>, p: Path)
    requires PushInv(w, exclude) && p in w.base && p in w.disk
    requires w.disk[p].File? ==> w.base[p].hash == Sum(w.disk[p].content)
    ensures InSync(w, p)
  {
    assert PushAt(w, exclude, p);
  }

  /** When every visible entry is in sync and every row is on disk, the trees agree. */
  lemma PushDone(w: World, exclude: seq<string>)
    requires PushInv(w, exclude)
    requires forall p | p in w.disk && Visible(p, exclude) :: InSync(w, p)
    requires forall p | p in w.base :: p in w.disk
    ensures Agreed(w, exclude)
  {
    forall p ensures AgreedAt(w, exclude, p) {
      assert PushAt(w, exclude, p);
    }
  }
}
