/** The three trees of the mirror and the effect of the pull stage's steps on them
(internal/mirror/mirror.go, conflict.go, local.go). */
module World {
  import opened Types
  import opened Paths
  import opened Names
  import opened SubtreePattern

  datatype Entry = Dir | File(content: Content, mtime: Time, inode: nat)

  /** One row of the baseline: the last state both sides agreed on. */
  datatype Row = Row(link: Link, parent: Link, isDir: bool, hash: Hash, size: nat,
                     mtime: Time, inode: nat, materialized: bool)

  /** One node of the account. `size`, `modified` and `digest` are what it reports. */
  datatype Remote = Remote(link: Link, parent: Link, isDir: bool, content: Content,
                           size: nat, modified: Time, digest: Hash)

  /** A remote node as a listing reports it. */
  datatype Node = Node(path: Path, link: Link, parent: Link, isDir: bool, size: nat,
                       modified: Time, digest: Hash)

  /** One entry of a local scan. */
  datatype LocalNode = LocalNode(isDir: bool, size: nat, mtime: Time, inode: nat, hash: Hash)

  type Disk = map<Path, Entry>
  type Base = map<Path, Row>
  type Account = map<Path, Remote>
  type Scan = map<Path, LocalNode>
  type Trash = set<(Path, Content)>

  /** The conflicts recorded: a path and the copy that was kept of it. */
  type Conflicts = multiset<(Path, Path)>

  /** Placeholders are kept apart from `disk`: `p in stubs` stands for the file at `p`
  followed by the stub suffix, a name no tracked path can have. */
  datatype World = World(disk: Disk, stubs: set<Path>, base: Base, remote: Account, trash: Trash,
                         conflicts: Conflicts)

  /** The link id of the account's root folder. */
  const ROOT_LINK: Link := "root"

  // ----- trees

  predicate AtOrUnder(p: Path, d: Path) { p == d || Under(p, d) }

  predicate IsFile(disk: Disk, p: Path) { p in disk && disk[p].File? }

  predicate IsDir(disk: Disk, p: Path) { p in disk && disk[p].Dir? }

  function FileAt(disk: Disk, p: Path): Option<Content> {
    if IsFile(disk, p) then Some(disk[p].content) else None
  }

  function EntryAt(disk: Disk, p: Path): Option<Entry> {
    if IsFile(disk, p) then Some(disk[p]) else None
  }

  /** Every entry lies in the root or in a folder that is itself present. */
  predicate Tree(disk: Disk) {
    forall p {:trigger ParentOf(p)} | p in disk :: p != "" && (ParentOf(p) == "" || IsDir(disk, ParentOf(p)))
  }

  /** The account is a tree whose links name its folders. */
  predicate AccountTree(remote: Account) {
    && (forall p {:trigger ParentOf(p)} | p in remote ::
          && p != "" && remote[p].link != ROOT_LINK
          && if ParentOf(p) == "" then remote[p].parent == ROOT_LINK
             else ParentOf(p) in remote && remote[ParentOf(p)].isDir
                  && remote[p].parent == remote[ParentOf(p)].link)
    && (forall p, q | p in remote && q in remote && remote[p].link == remote[q].link :: p == q)
  }

  lemma NodeIsNamed(remote: Account, p: Path)
    requires AccountTree(remote) && p in remote
    ensures p != "" && remote[p].link != ROOT_LINK
  {
    ParentAbove(p);
  }

  lemma EntryIsNamed(disk: Disk, p: Path)
    requires Tree(disk) && p in disk
    ensures p != ""
  {
    ParentAbove(p);
  }

  lemma {:induction false} AboveIsDir(disk: Disk, p: Path, d: Path)
    requires Tree(disk) && p in disk && Under(p, d) && d != ""
    ensures IsDir(disk, d)
    decreases |p|
  {
    UnderViaParent(p, d);
    if ParentOf(p) != d {
      AboveIsDir(disk, ParentOf(p), d);
    }
  }

  lemma {:induction false} AboveIsRemoteDir(remote: Account, p: Path, d: Path)
    requires AccountTree(remote) && p in remote && Under(p, d) && d != ""
    ensures d in remote && remote[d].isDir
    decreases |p|
  {
    UnderViaParent(p, d);
    if ParentOf(p) != d {
      AboveIsRemoteDir(remote, ParentOf(p), d);
    }
  }

  /** On disk, where a scan looks. */
  predicate Live(disk: Disk, exclude: seq<string>, p: Path) {
    p in disk && Visible(p, exclude)
  }

  /** `p` lies below a folder that cannot be listed; the root is such a folder as any other. */
  predicate Hidden(unreadable: set<Path>, p: Path) {
    exists d :: d in unreadable && (d == "" || Under(p, d))
  }

  /** What a scan reports: a folder that cannot be listed is reported itself, what it holds is
  not; and an entry that could not be examined is left out. */
  ghost predicate ReportedBy(disk: Disk, exclude: seq<string>, unreadable: set<Path>, unexamined: set<Path>,
                             paths: set<Path>) {
    forall p :: p in paths <==> Live(disk, exclude, p) && !Hidden(unreadable, p) && p !in unexamined
  }

  /** What a scan sees of an entry without reading it. */
  function Describe(e: Entry): LocalNode {
    match e
    case Dir => LocalNode(true, 0, 0, 0, Unknown)
    case File(content, mtime, inode) => LocalNode(false, |content|, mtime, inode, Unknown)
  }

  // ----- folders

  /** What creating `d` and the missing folders above it leaves. */
  function WithDirs(disk: Disk, d: Path): (disk': Disk)
    ensures forall q | q in disk :: q in disk' && disk'[q] == disk[q]
    ensures forall q | q in disk' && q !in disk :: q in Chain(d) && disk'[q] == Dir
    ensures forall q | q in Chain(d) :: q in disk'
  {
    disk + map q | q in Chain(d) && q !in disk :: Dir
  }

  /** A file stands where one of those folders would have to be. */
  predicate Blocked(disk: Disk, d: Path) {
    exists q :: q in Chain(d) && IsFile(disk, q)
  }

  lemma WithDirsTree(disk: Disk, d: Path)
    requires Tree(disk) && !Blocked(disk, d)
    ensures Tree(WithDirs(disk, d))
    ensures d != "" ==> IsDir(WithDirs(disk, d), d)
  {
    var disk' := WithDirs(disk, d);
    forall p | p in disk' ensures p != "" && (ParentOf(p) == "" || IsDir(disk', ParentOf(p))) {
      if p in disk {
      } else {
        ChainClosed(d, p);
      }
    }
  }

  lemma WithDirsTreeIfFree(disk: Disk, d: Path)
    requires Tree(disk)
    ensures !Blocked(disk, d) ==> Tree(WithDirs(disk, d))
  {
    if !Blocked(disk, d) { WithDirsTree(disk, d); }
  }

  lemma {:induction false} ChainClosed(d: Path, p: Path)
    requires p in Chain(d)
    ensures ParentOf(p) == "" || ParentOf(p) in Chain(d)
    decreases |d|
  {
    if p == d {
      if ParentOf(d) != "" {
        assert ParentOf(d) in Chain(ParentOf(d));
      }
    } else {
      ChainClosed(ParentOf(d), p);
    }
  }

  /** Nothing changes when the folder is already there. */
  lemma WithDirsPresent(disk: Disk, d: Path)
    requires Tree(disk) && (d == "" || IsDir(disk, d))
    ensures WithDirs(disk, d) == disk && !Blocked(disk, d)
  {
    forall q | q in Chain(d) ensures IsDir(disk, q) {
      if q != d {
        AboveIsDir(disk, d, q);
      }
    }
  }

  // ----- applying one remote node

  function DirRow(link: Link, parent: Link): Row {
    Row(link, parent, true, Unknown, 0, 0, 0, true)
  }

  /** How applying one remote node can end. Flags say which of the later steps were
  reached: `recorded`, that the baseline row was written; `kept`, that the local file was
  first moved aside; `parents`, that the folders above were created before giving up. */
  datatype Outcome =
    | MadeDir(recorded: bool)
    | Skipped
    | Stubbed(recorded: bool)
    | Failed(parents: bool)
    | NotCommitted(got: Content, kept: bool)
    | Landed(got: Content, kept: bool, recorded: bool, mtime: Time, inode: nat)

  /** The size cap: 0 means that everything is downloaded. */
  predicate WantStub(n: Node, cap: nat) { cap > 0 && n.size > cap }

  /** The remote side has not moved since the last agreement. */
  predicate SameAsBase(base: Base, n: Node) {
    n.path in base && base[n.path].hash.Sum? && base[n.path].hash == n.digest
  }

  predicate UpToDate(row: Row, n: Node, f: Entry)
    requires f.File?
  {
    && (n.size > 0 ==> |f.content| == n.size)
    && (n.modified != 0 ==> f.mtime / 1_000_000_000 == n.modified / 1_000_000_000)
    && if n.digest.Sum? then Sum(f.content) == n.digest
       else row.hash.Sum? && |f.content| == row.size
  }

  predicate AlreadyThere(w: World, n: Node) {
    && n.path in w.base && w.base[n.path].materialized && IsFile(w.disk, n.path)
    && UpToDate(w.base[n.path], n, w.disk[n.path])
  }

  /** The local file differs from the baseline and from what is arriving, so it has to be
  moved aside before it is replaced. */
  predicate MustKeep(w: World, before: Scan, p: Path, got: Content) {
    && p in before && !before[p].isDir && IsFile(w.disk, p)
    && var h := if before[p].hash.Unknown? then Sum(w.disk[p].content) else before[p].hash;
       h != Sum(got) && !(p in w.base && w.base[p].hash == h)
  }

  predicate Allowed(w: World, before: Scan, cap: nat, n: Node, o: Outcome) {
    match o
    case MadeDir(_) => n.isDir && !Blocked(w.disk, n.path)
    case Failed(parents) => parents ==> !n.isDir && !Blocked(w.disk, ParentOf(n.path))
    case Skipped =>
      !n.isDir && if WantStub(n, cap) then IsFile(w.disk, n.path)
                  else SameAsBase(w.base, n) || AlreadyThere(w, n)
    case Stubbed(_) =>
      !n.isDir && WantStub(n, cap) && !IsFile(w.disk, n.path) && !Blocked(w.disk, ParentOf(n.path))
    case NotCommitted(got, kept) =>
      Arrives(w, cap, n) && (kept <==> MustKeep(w, before, n.path, got))
    case Landed(got, kept, _, _, _) =>
      Arrives(w, cap, n) && (kept <==> MustKeep(w, before, n.path, got)) && !IsDir(w.disk, n.path)
  }

  /** The node is a file that has to be downloaded. */
  predicate Arrives(w: World, cap: nat, n: Node) {
    !n.isDir && !WantStub(n, cap) && !SameAsBase(w.base, n) && !AlreadyThere(w, n)
    && !Blocked(w.disk, ParentOf(n.path))
  }

  /** Move the file at `p`, if told to, to the name of its conflict copy. */
  function Aside(disk: Disk, p: Path, copy: Path, kept: bool): Disk {
    if kept && p in disk then (disk - {p})[copy := disk[p]] else disk
  }

  function Recorded(conflicts: Conflicts, p: Path, copy: Path, kept: bool): Conflicts {
    if kept then conflicts + multiset{(p, copy)} else conflicts
  }

  function FileRow(n: Node, got: Content, mtime: Time, inode: nat): Row {
    Row(n.link, n.parent, false, Sum(got), |got|, mtime, inode, true)
  }

  function StubRow(n: Node): Row {
    Row(n.link, n.parent, false, Unknown, n.size, n.modified, 0, false)
  }

  function Effect(w: World, n: Node, copy: Path, o: Outcome): World {
    match o
    case Skipped => w
    case MadeDir(recorded) =>
      w.(disk := WithDirs(w.disk, n.path),
         base := if recorded then w.base[n.path := DirRow(n.link, n.parent)] else w.base)
    case Failed(parents) =>
      if parents then w.(disk := WithDirs(w.disk, ParentOf(n.path))) else w
    case Stubbed(recorded) =>
      w.(disk := WithDirs(w.disk, ParentOf(n.path)), stubs := w.stubs + {n.path},
         base := if recorded then w.base[n.path := StubRow(n)] else w.base)
    case NotCommitted(got, kept) =>
      w.(disk := Aside(WithDirs(w.disk, ParentOf(n.path)), n.path, copy, kept),
         stubs := w.stubs - {n.path}, conflicts := Recorded(w.conflicts, n.path, copy, kept))
    case Landed(got, kept, recorded, mtime, inode) =>
      w.(disk := Aside(WithDirs(w.disk, ParentOf(n.path)), n.path, copy, kept)
                   [n.path := File(got, mtime, inode)],
         stubs := w.stubs - {n.path}, conflicts := Recorded(w.conflicts, n.path, copy, kept),
         base := if recorded then w.base[n.path := FileRow(n, got, mtime, inode)] else w.base)
  }

  // The outcomes of a download that was staged, one by one.

  lemma NotSecured(w: World, before: Scan, cap: nat, n: Node, copy: Path)
    requires Arrives(w, cap, n)
    ensures Allowed(w, before, cap, n, Failed(true))
    ensures Effect(w, n, copy, Failed(true))
            == w.(disk := Aside(WithDirs(w.disk, ParentOf(n.path)), n.path, copy, false),
                  conflicts := Recorded(w.conflicts, n.path, copy, false))
  {
  }

  lemma NotInPlace(w: World, before: Scan, cap: nat, n: Node, copy: Path, got: Content, kept: bool)
    requires Arrives(w, cap, n) && (kept <==> MustKeep(w, before, n.path, got))
    ensures Allowed(w, before, cap, n, NotCommitted(got, kept))
    ensures Effect(w, n, copy, NotCommitted(got, kept))
            == w.(disk := Aside(WithDirs(w.disk, ParentOf(n.path)), n.path, copy, kept),
                  stubs := w.stubs - {n.path}, conflicts := Recorded(w.conflicts, n.path, copy, kept))
  {
  }

  lemma InPlace(w: World, before: Scan, cap: nat, n: Node, copy: Path, got: Content, kept: bool, recorded: bool,
                mtime: Time, inode: nat)
    requires Arrives(w, cap, n) && (kept <==> MustKeep(w, before, n.path, got))
    requires !IsDir(Aside(WithDirs(w.disk, ParentOf(n.path)), n.path, copy, kept), n.path)
    ensures Allowed(w, before, cap, n, Landed(got, kept, recorded, mtime, inode))
    ensures Effect(w, n, copy, Landed(got, kept, recorded, mtime, inode))
            == w.(disk := Aside(WithDirs(w.disk, ParentOf(n.path)), n.path, copy, kept)
                            [n.path := File(got, mtime, inode)],
                  stubs := w.stubs - {n.path}, conflicts := Recorded(w.conflicts, n.path, copy, kept),
                  base := if recorded then w.base[n.path := FileRow(n, got, mtime, inode)] else w.base)
  {
  }

  lemma NothingToDo(w: World, before: Scan, cap: nat, n: Node, copy: Path)
    requires !n.isDir && !WantStub(n, cap) && (SameAsBase(w.base, n) || AlreadyThere(w, n))
    ensures Allowed(w, before, cap, n, Skipped) && Effect(w, n, copy, Skipped) == w
  {
  }

  /** Applying a node keeps the folder a tree. */
  lemma EffectTree(w: World, before: Scan, cap: nat, n: Node, copy: Path, o: Outcome)
    requires Tree(w.disk) && Allowed(w, before, cap, n, o) && n.path != ""
    requires ParentOf(copy) == ParentOf(n.path) && copy != ""
    requires (o.NotCommitted? || o.Landed?) && o.kept ==> !IsDir(w.disk, copy)
    ensures Tree(Effect(w, n, copy, o).disk)
  {
    if o.MadeDir? {
      WithDirsTree(w.disk, n.path);
    } else if !(o.Skipped? || (o.Failed? && !o.parents)) {
      WithDirsTree(w.disk, ParentOf(n.path));
      var d := WithDirs(w.disk, ParentOf(n.path));
      if o.NotCommitted? || o.Landed? {
        AsideTree(d, n.path, copy, o.kept);
        if o.Landed? {
          LandTree(Aside(d, n.path, copy, o.kept), n.path, File(o.got, o.mtime, o.inode));
        }
      }
    }
  }

  lemma AsideTree(disk: Disk, p: Path, copy: Path, kept: bool)
    requires Tree(disk) && copy != "" && ParentOf(copy) == ParentOf(p)
    requires kept ==> !IsDir(disk, p) && !IsDir(disk, copy)
    ensures Tree(Aside(disk, p, copy, kept))
  {
    var after := Aside(disk, p, copy, kept);
    forall q | q in after ensures q != "" && (ParentOf(q) == "" || IsDir(after, ParentOf(q))) {
      assert ParentOf(q) == "" || IsDir(disk, ParentOf(q));
      if q == copy && kept && p in disk {
        assert ParentOf(p) == "" || IsDir(disk, ParentOf(p));
      }
    }
  }

  lemma LandTree(disk: Disk, p: Path, f: Entry)
    requires Tree(disk) && f.File? && p != "" && !IsDir(disk, p)
    requires ParentOf(p) == "" || IsDir(disk, ParentOf(p))
    ensures Tree(disk[p := f])
  {
    var after := disk[p := f];
    forall q | q in after ensures q != "" && (ParentOf(q) == "" || IsDir(after, ParentOf(q))) {
      ParentAbove(q);
    }
  }

  // ----- removing one tracked node locally

  /** The files at or below `p`, each with the place it had. */
  function FilesAt(disk: Disk, p: Path): Trash {
    set q | q in disk && AtOrUnder(q, p) && disk[q].File? :: (q, disk[q].content)
  }

  /** Everything at or below `p` has moved to the local trash. */
  function AfterTrash(w: World, p: Path): World {
    w.(disk := (map q | q in w.disk && !AtOrUnder(q, p) :: w.disk[q]),
       stubs := (set q | q in w.stubs && !AtOrUnder(q, p)),
       trash := w.trash + FilesAt(w.disk, p))
  }

  /** The rows left by DeleteSubtree for a folder, by DeleteNode for a file. */
  function Forget(base: Base, p: Path, isDir: bool): Base {
    if isDir then map q | q in base && !Selected(p, q) :: base[q] else base - {p}
  }

  /** `q` falls to a subtree delete, or is deleted itself. */
  predicate LostTo(gone: set<Path>, q: Path) {
    exists p :: p in gone && Selected(p, q)
  }

  /** Rows only disappear, and only with a row that was due. */
  predicate RowsLost(before: Base, after: Base, gone: set<Path>) {
    && (forall q | q in after :: q in before && after[q] == before[q])
    && (forall q | q in before && q !in after :: LostTo(gone, q))
  }

  lemma NoRowsLost(base: Base, gone: set<Path>)
    ensures RowsLost(base, base, gone)
  {
  }

  lemma RowsLostStep(before: Base, base: Base, gone: set<Path>, p: Path, isDir: bool)
    requires RowsLost(before, base, gone) && p in gone
    ensures RowsLost(before, Forget(base, p, isDir), gone)
  {
  }

  /** Where a row is due with the folder above it, every row that is lost was due. */
  lemma LostWasDue(before: Base, after: Base, gone: set<Path>)
    requires RowsLost(before, after, gone) && CaseClear(gone, before.Keys)
    requires forall p, q {:trigger Under(q, p)} | p in gone && q in before && Under(q, p) :: q in gone
    ensures before.Keys - after.Keys <= gone
  {
    forall q | q in before && q !in after ensures q in gone {
      var p :| p in gone && Selected(p, q);
      SubtreePatternExact(p, q);
    }
  }

  predicate EmptyDir(disk: Disk, stubs: set<Path>, d: Path) {
    && IsDir(disk, d)
    && (forall q | q in disk :: !Under(q, d))
    && (forall q | q in stubs :: !Under(q, d))
  }

  /** `after` is `before` less some folders above `p` that held nothing any more. */
  predicate Pruned(before: Disk, after: Disk, stubs: set<Path>, p: Path) {
    && (forall q | q in after :: q in before && after[q] == before[q])
    && (forall q | q in before && q !in after ::
          before[q].Dir? && Under(p, q)
          && (forall r | r in after :: !Under(r, q)) && (forall r | r in stubs :: !Under(r, q)))
  }

  /** A tracked node was removed locally after it disappeared remotely. */
  predicate Removed(w: World, w': World, p: Path, isDir: bool) {
    var t := AfterTrash(w, p);
    && w' == t.(disk := w'.disk, base := Forget(w.base, p, isDir))
    && Pruned(t.disk, w'.disk, t.stubs, p)
  }

  /** Moving to the trash, or forgetting the row, failed on the way: what left the folder
  is in the trash, and the row is still there. */
  predicate RemovalFailed(w: World, w': World, p: Path) {
    && w' == w.(disk := w'.disk, stubs := w'.stubs, trash := w'.trash)
    && (forall q | q in w'.disk :: q in w.disk && w'.disk[q] == w.disk[q])
    && (forall q | q in w.disk && q !in w'.disk ::
          AtOrUnder(q, p) && (w.disk[q].File? ==> (q, w.disk[q].content) in w'.trash))
    && w'.stubs <= w.stubs && (forall q | q in w.stubs - w'.stubs :: AtOrUnder(q, p))
    && w.trash <= w'.trash <= w.trash + FilesAt(w.disk, p)
    && (Tree(w.disk) ==> Tree(w'.disk))
  }

  lemma PrunedTree(before: Disk, after: Disk, stubs: set<Path>, p: Path)
    requires Tree(before) && Pruned(before, after, stubs, p)
    ensures Tree(after)
  {
    forall q | q in after ensures q != "" && (ParentOf(q) == "" || IsDir(after, ParentOf(q))) {
      ParentAbove(q);
      assert q in before;
    }
  }

  lemma TrashTree(w: World, p: Path)
    requires Tree(w.disk)
    ensures Tree(AfterTrash(w, p).disk)
  {
    var after := AfterTrash(w, p).disk;
    forall q | q in after ensures q != "" && (ParentOf(q) == "" || IsDir(after, ParentOf(q))) {
      if ParentOf(q) != "" {
        UnderViaParent(q, p);
        if ParentOf(q) == p { ParentAbove(q); }
        if Under(ParentOf(q), p) { ParentAbove(q); UnderTransitive(q, ParentOf(q), p); }
      }
    }
  }

  lemma RemovedTree(w: World, w': World, p: Path, isDir: bool)
    requires Tree(w.disk) && Removed(w, w', p, isDir)
    ensures Tree(w'.disk)
  {
    TrashTree(w, p);
    PrunedTree(AfterTrash(w, p).disk, w'.disk, AfterTrash(w, p).stubs, p);
  }
}
