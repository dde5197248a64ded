/** Refreshing one folder on demand (internal/mirror/mirror.go): what it leaves in the folder. */
module FolderRefresh {
  import opened Types
  import opened Paths
  import opened Names
  import opened SubtreePattern
  import opened World
  import opened Survival
  import opened PullExact
  import opened EventReplay
  import opened Remotes
  import opened Runs
  import opened Claims

  /** `dir` is the root or a tracked folder that is still there, and links are stable. */
  ghost predicate FolderTracked(w: World, link: Link, dir: Path) {
    && BaseTree(w.base) && (forall p, q :: StableLink(w, p, q))
    && if dir == "" then link == ROOT_LINK
       else dir in w.base && w.base[dir].isDir && w.base[dir].link == link && dir in w.remote
  }

  ghost predicate FolderCalm(w: World, before: Scan, keep: Namer, cap: nat, exclude: seq<string>, link: Link,
          dir: Path) {
    Ordinary(w, before, keep, cap, exclude) && FolderTracked(w, link, dir)
  }

  /** One entry of the folder: what the account has is here, an edited version beside it, and
  what the account no longer has is in the trash. */
  ghost predicate RefreshedAt(w0: World, before: Scan, keep: Namer, link: Link, w: World, p: Path) {
    && (p in w0.remote ==>
          && p in w.base && RowAfter(w0, p, w.base[p])
          && (if Fetches(w0, p) then FileAt(w.disk, p) == Some(w0.remote[p].content)
              else EntryAt(w.disk, p) == EntryAt(w0.disk, p))
          && (Clashes(w0, before, p) ==> EntryAt(w.disk, keep(p)) == EntryAt(w0.disk, p)))
    && (p in w0.base && p !in w0.remote && w0.base[p].parent == link ==>
          p !in w.base && !IsFile(w.disk, p) && (IsFile(w0.disk, p) ==> (p, w0.disk[p].content) in w.trash))
  }

  ghost predicate Refreshed(w0: World, before: Scan, keep: Namer, link: Link, dir: Path, w: World) {
    forall p | ParentOf(p) == dir :: RefreshedAt(w0, before, keep, link, w, p)
  }

  /** The link leads to the folder itself, and to nothing else. */
  lemma PrefixIsDir(w: World, before: Scan, keep: Namer, cap: nat, exclude: seq<string>, link: Link, dir: Path,
          prefix: Path)
    requires FolderCalm(w, before, keep, cap, exclude, link, dir) && FolderKnown(w.base, link, prefix)
    ensures prefix == dir && FolderAt(w.remote, link, dir)
  {
    if dir != "" { assert OrdinaryAt(w, before, keep, cap, exclude, dir); }
  }

  lemma FolderChildren(w: World, before: Scan, keep: Namer, cap: nat, exclude: seq<string>, link: Link, dir: Path)
    requires FolderCalm(w, before, keep, cap, exclude, link, dir) && FolderAt(w.remote, link, dir)
    ensures forall q | q in Children(w.remote, link) :: NodeOf(w.remote, q) == ChildNode(dir, q, w.remote[q])
    ensures forall q | q in w.remote :: q in Children(w.remote, link) <==> ParentOf(q) == dir
  {
    forall q | q in w.remote
      ensures q in Children(w.remote, link)
              ==> NodeOf(w.remote, q) == ChildNode(dir, q, w.remote[q]) && ParentOf(q) == dir
      ensures ParentOf(q) == dir ==> q in Children(w.remote, link)
    {
      assert OrdinaryAt(w, before, keep, cap, exclude, q);
      if w.remote[q].parent == link { ChildIn(w.remote, link, dir, q); }
    }
  }

  lemma ScanIsStill(w: World, before: Scan, keep: Namer, cap: nat, exclude: seq<string>)
    requires Ordinary(w, before, keep, cap, exclude)
    ensures Still(before, w.disk) == before
  {
    forall p | p in before ensures p in w.disk {
      assert OrdinaryAt(w, before, keep, cap, exclude, p);
    }
  }

  /** After the children were applied, the rows without a node can be dropped. */
  lemma AppliedIsDroppable(w0: World, before: Scan, keep: Namer, cap: nat, exclude: seq<string>, link: Link,
          dir: Path, mid: World)
    requires FolderCalm(w0, before, keep, cap, exclude, link, dir) && FolderAt(w0.remote, link, dir)
    requires WalkInv(w0, before, keep, Children(w0.remote, link), mid)
    ensures Droppable(mid, Unlisted(mid.base, link, Children(w0.remote, link)))
  {
    hide Visible, PathInv;
    var done := Children(w0.remote, link);
    FolderChildren(w0, before, keep, cap, exclude, link, dir);
    AppliedRows(w0, before, keep, cap, exclude, done, mid);
    CaseClearLess(w0.base.Keys + w0.remote.Keys, w0.base.Keys + w0.remote.Keys + w0.disk.Keys, mid.base.Keys,
        mid.base.Keys);
    AppliedTree(w0, link, dir, done, mid);
    StaleAreGone(w0, link, done, mid);
  }

  lemma AppliedRows(w0: World, before: Scan, keep: Namer, cap: nat, exclude: seq<string>, done: set<Path>, mid: World)
    requires Ordinary(w0, before, keep, cap, exclude) && WalkInv(w0, before, keep, done, mid)
    ensures mid.base.Keys == w0.base.Keys + done && "" !in mid.base
    ensures forall p | p in mid.base :: RowNow(w0, done, mid, p)
  {
    hide Visible, PathFile, PathCopy, PathKind, PathMade, WantStub, PathRow, RowNow;
    forall p ensures p in mid.base <==> p in w0.base || p in done
      ensures p in mid.base ==> RowNow(w0, done, mid, p) && p != ""
    {
      assert PathInv(w0, before, keep, done, mid, p);
      AppliedRow(w0, before, keep, cap, exclude, done, mid, p);
    }
  }

  lemma StaleAreGone(w0: World, link: Link, done: set<Path>, mid: World)
    requires mid.remote == w0.remote && done == Children(w0.remote, link)
    requires forall p | p in mid.base :: RowNow(w0, done, mid, p)
    ensures Unlisted(mid.base, link, done) <= mid.base.Keys - mid.remote.Keys
  {
    forall p | p in Unlisted(mid.base, link, done) ensures p !in mid.remote {
      assert RowNow(w0, done, mid, p);
    }
  }

  lemma AppliedRow(w0: World, before: Scan, keep: Namer, cap: nat, exclude: seq<string>, done: set<Path>, mid: World,
          p: Path)
    requires Ordinary(w0, before, keep, cap, exclude) && PathRow(w0, done, mid, p) && (p in done ==> p in w0.remote)
    ensures p in mid.base <==> p in w0.base || p in done
    ensures p in mid.base ==> RowNow(w0, done, mid, p) && p != ""
  {
    hide Visible;
    assert OrdinaryAt(w0, before, keep, cap, exclude, p);
    if p in done { NodeIsNamed(w0.remote, p); }
  }

  /** A row is as it was, or as the applied node has it, and then of the same kind as before. */
  predicate RowNow(w0: World, done: set<Path>, mid: World, p: Path)
    requires p in mid.base
  {
    if p in done then
      && p in w0.remote && mid.base[p].link == w0.remote[p].link && mid.base[p].parent == w0.remote[p].parent
      && mid.base[p].isDir == w0.remote[p].isDir && (p in w0.base ==> w0.base[p].isDir == w0.remote[p].isDir)
      && (mid.base[p].isDir ==> mid.base[p] == DirRow(mid.base[p].link, mid.base[p].parent))
    else p in w0.base && mid.base[p] == w0.base[p] && (p in w0.remote ==> w0.base[p].parent == w0.remote[p].parent)
  }

  lemma AppliedTree(w0: World, link: Link, dir: Path, done: set<Path>, mid: World)
    requires AccountTree(w0.remote) && BaseTree(w0.base) && (forall p, q :: StableLink(w0, p, q))
    requires forall p | p in done :: p in w0.remote && ParentOf(p) == dir
    requires dir != "" ==> dir in w0.base && w0.base[dir].isDir
    requires mid.base.Keys == w0.base.Keys + done
    requires forall p | p in mid.base :: RowNow(w0, done, mid, p)
    ensures BaseTree(mid.base)
  {
    forall p | p in mid.base && ParentOf(p) != ""
      ensures ParentOf(p) in mid.base && mid.base[ParentOf(p)].isDir
    {
      assert RowNow(w0, done, mid, p);
      assert ParentOf(p) in w0.base;
      assert RowNow(w0, done, mid, ParentOf(p));
    }
    forall p, q | p in mid.base && q in mid.base && mid.base[p].link == mid.base[q].link ensures p == q {
      assert RowNow(w0, done, mid, p) && RowNow(w0, done, mid, q);
      assert StableLink(w0, p, q) && StableLink(w0, q, p);
    }
    forall p | p in mid.base ensures mid.base[p].link != ROOT_LINK {
      assert RowNow(w0, done, mid, p);
      if p in done { NodeIsNamed(w0.remote, p); }
    }
  }

  /** Neither a remote path nor its copy lies at or below a row that has no node. */
  lemma RemoteIsNotDropped(w0: World, keep: Namer, stale: set<Path>, p: Path)
    requires AccountTree(w0.remote) && Naming(keep) && p in w0.remote
    requires forall d | d in stale :: d !in w0.remote && d != "" && NoCopy(keep, d)
    ensures !Dropped(stale, p) && !Dropped(stale, keep(p))
  {
    forall d | d in stale ensures !AtOrUnder(p, d) && !AtOrUnder(keep(p), d) {
      if Under(p, d) { AboveIsRemoteDir(w0.remote, p, d); }
      if Under(keep(p), d) {
        UnderViaParent(keep(p), d);
        UnderViaParent(p, d);
        AboveIsRemoteDir(w0.remote, p, d);
      }
    }
  }

  /** Applying the children and sweeping what is stale brings the folder up to date. */
  lemma RefreshEnds(w0: World, before: Scan, keep: Namer, cap: nat, exclude: seq<string>, link: Link, dir: Path,
                    mid: World, w: World)
    requires FolderCalm(w0, before, keep, cap, exclude, link, dir) && FolderAt(w0.remote, link, dir)
    requires RelistState(w0, mid, before, keep, cap, exclude, Children(w0.remote, link), true)
    requires Swept(mid, w, Unlisted(mid.base, link, Children(w0.remote, link)))
    ensures Refreshed(w0, before, keep, link, dir, w)
  {
    var done := Children(w0.remote, link);
    var stale := Unlisted(mid.base, link, done);
    ScanIsStill(w0, before, keep, cap, exclude);
    FolderChildren(w0, before, keep, cap, exclude, link, dir);
    AppliedIsDroppable(w0, before, keep, cap, exclude, link, dir, mid);
    forall d | d in RowsBelow(mid.base, stale) ensures d !in w0.remote && d != "" && NoCopy(keep, d) {
      assert PathInv(w0, before, keep, done, mid, d);
      assert OrdinaryAt(w0, before, keep, cap, exclude, d);
    }
    forall p | ParentOf(p) == dir ensures RefreshedAt(w0, before, keep, link, w, p) {
      assert OrdinaryAt(w0, before, keep, cap, exclude, p);
      assert PathInv(w0, before, keep, done, mid, p);
      RefreshEndsAt(w0, before, keep, link, done, mid, stale, w, p);
    }
  }

  lemma RefreshEndsAt(w0: World, before: Scan, keep: Namer, link: Link, done: set<Path>, mid: World, stale: set<Path>,
                      w: World, p: Path)
    requires AccountTree(w0.remote) && Naming(keep) && (p in w0.remote ==> p in done)
    requires p in w0.base || p in w0.remote ==> NoCopy(keep, p)
    requires PathInv(w0, before, keep, done, mid, p) && ReapInv(mid, RowsBelow(mid.base, stale), w)
    requires stale == Unlisted(mid.base, link, done) && (p in done ==> p in w0.remote)
    requires forall d | d in RowsBelow(mid.base, stale) :: d !in w0.remote && d != "" && NoCopy(keep, d)
    ensures RefreshedAt(w0, before, keep, link, w, p)
  {
    var dropped := RowsBelow(mid.base, stale);
    assert ReapAt(mid, dropped, w, p) && ReapAt(mid, dropped, w, keep(p));
    if p in w0.remote {
      RemoteIsNotDropped(w0, keep, dropped, p);
      assert !IsCopy(w0, before, keep, done, p);
    } else if p in w0.base && w0.base[p].parent == link {
      assert !IsCopy(w0, before, keep, done, p);
      assert p in stale && AtOrUnder(p, p) && Dropped(stale, p);
      assert p in dropped && Dropped(dropped, p);
    }
  }

  lemma RefreshStarts(w: World, before: Scan, keep: Namer, cap: nat, exclude: seq<string>, clean: bool)
    ensures RelistState(w, w, before, keep, cap, exclude, {}, clean)
  {
    ExactStart(w, Still(before, w.disk), keep, cap, exclude);
  }

  lemma RefreshIsNew(w: World, before: Scan, keep: Namer, cap: nat, exclude: seq<string>, link: Link, dir: Path,
          prefix: Path)
    requires FolderCalm(w, before, keep, cap, exclude, link, dir) && FolderKnown(w.base, link, prefix)
    ensures FolderAt(w.remote, link, dir)
    ensures forall q | q in Children(w.remote, link) :: NodeOf(w.remote, q) == ChildNode(prefix, q, w.remote[q])
  {
    PrefixIsDir(w, before, keep, cap, exclude, link, dir, prefix);
    FolderChildren(w, before, keep, cap, exclude, link, dir);
  }

  lemma TrackedIsKnown(w: World, link: Link, dir: Path)
    requires FolderTracked(w, link, dir)
    ensures link == ROOT_LINK || exists p :: p in w.base && w.base[p].link == link
  {
  }
}
