/** One run of the push stage (internal/mirror/push.go): what is still to be done, and why
the trees agree when nothing is. */
module PushRun {
  import opened Types
  import opened Paths
  import opened Names
  import opened SubtreePattern
  import opened World
  import opened Survival
  import opened MoveDetection
  import opened PushSteps
  import opened Remotes

  // ----- what the push starts from

  /** The tracked paths that have no local counterpart. The placeholder of a file that is
  not downloaded counts as one. */
  function Vanished(base: Base, local: Scan, stubs: set<Path>): set<Path> {
    set p | p in base && p !in local && (base[p].materialized || p !in stubs)
  }

  /** An entry of the scan after the pull; its hash, once filled in, was read from the file. */
  predicate Read(disk: Disk, p: Path, n: LocalNode) {
    && p in disk && n == Describe(disk[p]).(hash := n.hash)
    && (n.hash.Unknown? || (disk[p].File? && n.hash == Sum(disk[p].content)))
  }

  predicate Rescanned(disk: Disk, local: Scan, exclude: seq<string>) {
    forall p | p in local :: Visible(p, exclude) && Read(disk, p, local[p])
  }

  /** When a downloaded entry that is on disk looks deleted: exactly when the scanner skips its
  name, a folder above it cannot be listed, or it could not be examined itself. */
  lemma LooksDeleted(w: World, local: Scan, exclude: seq<string>, unreadable: set<Path>, unexamined: set<Path>, p: Path)
    requires ReportedBy(w.disk, exclude, unreadable, unexamined, local.Keys)
    requires p in w.base && w.base[p].materialized && p in w.disk
    ensures p in Vanished(w.base, local, w.stubs)
            <==> !Visible(p, exclude) || Hidden(unreadable, p) || p in unexamined
  {
    hide Visible, Hidden;
  }

  /** The scan left nothing out. */
  ghost predicate Complete(disk: Disk, local: Scan, exclude: seq<string>) {
    forall p | Live(disk, exclude, p) :: p in local
  }

  predicate SameLocal(w: World, w': World) {
    w'.disk == w.disk && w'.stubs == w.stubs && w'.trash == w.trash && w'.conflicts == w.conflicts
  }

  // ----- an exact run

  /** One path of a run in which nothing has failed so far: `pending` are the vanished rows,
  `todo` the local entries, that have not had their turn. */
  predicate PushStateAt(w1: World, w: World, exclude: seq<string>, pending: set<Path>, todo: set<Path>, p: Path) {
    && (p in w.base && p !in w.disk ==> p in pending)
    && (p in pending ==> p in w.base && p in w1.base && p !in w.disk && w.base[p] == w1.base[p])
    && (p in w1.base && p in w.disk ==> p in w.base && (p in todo ==> w.base[p] == w1.base[p]))
    && (p in w.base && p !in w1.base && p in todo ==> IsDir(w.disk, p))
    && (p in w.disk && Visible(p, exclude) && p !in todo ==> InSync(w, p))
  }

  ghost predicate PushState(w1: World, w: World, exclude: seq<string>, pending: set<Path>, todo: set<Path>) {
    && PushInv(w, exclude) && SameLocal(w1, w)
    && forall p :: PushStateAt(w1, w, exclude, pending, todo, p)
  }

  lemma PushStart(w1: World, exclude: seq<string>, local: Scan)
    requires PushInv(w1, exclude)
    requires Rescanned(w1.disk, local, exclude) && Complete(w1.disk, local, exclude)
    ensures PushState(w1, w1, exclude, Vanished(w1.base, local, w1.stubs), local.Keys)
  {
    forall p ensures PushStateAt(w1, w1, exclude, Vanished(w1.base, local, w1.stubs), local.Keys, p) {
      assert PushAt(w1, exclude, p);
    }
  }

  lemma PushEnd(w1: World, w: World, exclude: seq<string>)
    requires PushState(w1, w, exclude, {}, {})
    ensures Agreed(w, exclude)
  {
    forall p ensures p in w.disk && Visible(p, exclude) ==> InSync(w, p)
      ensures p in w.base ==> p in w.disk
    {
      assert PushStateAt(w1, w, exclude, {}, {}, p);
    }
    PushDone(w, exclude);
  }

  /** Something else changed; a path that was in sync still is. */
  lemma StillInSync(w: World, w': World, p: Path)
    requires InSync(w, p) && w'.disk == w.disk
    requires p in w'.base && w'.base[p] == w.base[p] && p in w'.remote && w'.remote[p] == w.remote[p]
    ensures InSync(w', p)
  {
  }

  /** A local entry that is in sync is done with. */
  lemma DoneWith(w1: World, w: World, exclude: seq<string>, pending: set<Path>, todo: set<Path>, p: Path)
    requires PushState(w1, w, exclude, pending, todo) && InSync(w, p)
    ensures PushState(w1, w, exclude, pending, todo - {p})
  {
    forall q ensures PushStateAt(w1, w, exclude, pending, todo - {p}, q) {
      assert PushStateAt(w1, w, exclude, pending, todo, q);
    }
  }

  /** A folder was created in the account and recorded. */
  lemma MkdirStep(w1: World, w: World, exclude: seq<string>, pending: set<Path>, todo: set<Path>,
                  p: Path, link: Link, parent: Link)
    requires PushState(w1, w, exclude, pending, todo)
    requires p !in w.base && IsDir(w.disk, p) && Visible(p, exclude)
    requires ParentLink(w.remote, p, parent) && FreshLink(w.remote, link)
    ensures PushState(w1, MkdirEffect(w, p, link, parent), exclude, pending, todo)
    ensures InSync(MkdirEffect(w, p, link, parent), p)
  {
    var w' := MkdirEffect(w, p, link, parent);
    MkdirKeeps(w, exclude, p, link, parent);
    assert PushAt(w, exclude, p);
    forall q ensures PushStateAt(w1, w', exclude, pending, todo, q) {
      assert PushStateAt(w1, w, exclude, pending, todo, q);
      if q != p && InSync(w, q) { StillInSync(w, w', q); }
    }
  }

  /** A folder that the account already had was asked for again: nothing changes. */
  lemma MkdirAgain(w1: World, w: World, exclude: seq<string>, pending: set<Path>, todo: set<Path>,
                   p: Path, parent: Link)
    requires PushState(w1, w, exclude, pending, todo)
    requires p in w.remote && w.remote[p].isDir && IsDir(w.disk, p) && ParentLink(w.remote, p, parent)
    ensures w.(base := w.base[p := DirRow(w.remote[p].link, parent)]) == w
    ensures InSync(w, p)
  {
    assert PushAt(w, exclude, p);
    AccountParent(w.remote, p, parent);
    UnchangedInSync(w, exclude, p);
  }

  lemma AccountParent(remote: Account, p: Path, parent: Link)
    requires AccountTree(remote) && p in remote && ParentLink(remote, p, parent)
    ensures remote[p].parent == parent
  {
  }

  /** A file was uploaded and recorded. */
  lemma UploadStep(w1: World, w: World, exclude: seq<string>, pending: set<Path>, todo: set<Path>,
                   p: Path, link: Link, parent: Link)
    requires PushState(w1, w, exclude, pending, todo)
    requires IsFile(w.disk, p) && Visible(p, exclude) && ParentLink(w.remote, p, parent)
    requires if p in w.remote then link == w.remote[p].link else FreshLink(w.remote, link)
    ensures PushState(w1, UploadEffect(w, p, link, parent), exclude, pending, todo - {p})
  {
    var w' := UploadEffect(w, p, link, parent);
    UploadKeeps(w, exclude, p, link, parent);
    forall q ensures PushStateAt(w1, w', exclude, pending, todo - {p}, q) {
      assert PushStateAt(w1, w, exclude, pending, todo, q);
      assert PushStateAt(w1, w, exclude, pending, todo, p);
      if q != p && InSync(w, q) { StillInSync(w, w', q); }
    }
  }

  /** A vanished file was moved to where its content now is, and recorded there. */
  lemma MoveStep(w1: World, w: World, exclude: seq<string>, pending: set<Path>, todo: set<Path>,
                 from: Path, to: Path, parent: Link, row: Row)
    requires PushState(w1, w, exclude, pending, todo)
    requires from in pending && from in w.base && from in w.remote && !w.base[from].isDir
    requires to in todo && to !in w1.base && IsFile(w.disk, to) && Visible(to, exclude)
    requires ParentLink(w.remote, to, parent) && w.base[from].hash == Sum(w.disk[to].content)
    requires row.link == w.base[from].link && row.parent == parent && !row.isDir && row.materialized
    requires row.hash == Sum(w.disk[to].content)
    ensures PushState(w1, MoveEffect(w, from, to, parent, row), exclude, pending - {from}, todo - {to})
  {
    var w' := MoveEffect(w, from, to, parent, row);
    assert PushStateAt(w1, w, exclude, pending, todo, to);
    assert PushStateAt(w1, w, exclude, pending, todo, from);
    MoveKeeps(w, exclude, from, to, parent, row);
    forall q ensures PushStateAt(w1, w', exclude, pending - {from}, todo - {to}, q) {
      assert PushStateAt(w1, w, exclude, pending, todo, q);
      if q != to && q != from && InSync(w, q) { StillInSync(w, w', q); }
    }
  }

  /** A vanished row was trashed in the account and forgotten. Longer paths went first, so
  no other row was left below it. */
  lemma TrashStep(w1: World, w: World, exclude: seq<string>, pending: set<Path>, todo: set<Path>, p: Path)
    requires PushState(w1, w, exclude, pending, todo)
    requires p in pending && p in w.base && CaseClear({p}, w.base.Keys)
    requires forall q | q in pending :: |q| <= |p|
    ensures PushState(w1, TrashEffect(w, p), exclude, pending - {p}, todo)
  {
    var w' := TrashEffect(w, p);
    assert PushStateAt(w1, w, exclude, pending, todo, p);
    assert PushAt(w, exclude, p);
    ValidIsNamed(p);
    TrashKeeps(w, exclude, p);
    forall q ensures PushStateAt(w1, w', exclude, pending - {p}, todo, q) {
      assert PushStateAt(w1, w, exclude, pending, todo, q);
      if q in w.disk && Under(q, p) { AboveIsDir(w.disk, q, p); }
      if q != p && InSync(w, q) { StillInSync(w, w', q); }
    }
  }

  /** Every row is that of a tracked path or of a local one. */
  lemma RowsAreKnown(w1: World, w: World, exclude: seq<string>, pending: set<Path>, todo: set<Path>)
    requires PushState(w1, w, exclude, pending, todo)
    ensures w.base.Keys <= w1.base.Keys + w1.disk.Keys
  {
    forall p | p in w.base ensures p in w1.base.Keys + w1.disk.Keys {
      assert PushStateAt(w1, w, exclude, pending, todo, p);
    }
  }

  // ----- parents

  /** The link under which the baseline knows a path's parent. */
  predicate ParentRow(base: Base, p: Path, parent: Link) {
    if ParentOf(p) == "" then parent == ROOT_LINK
    else ParentOf(p) in base && base[ParentOf(p)].isDir && base[ParentOf(p)].link == parent
  }

  lemma RowIsLink(w: World, exclude: seq<string>, p: Path, parent: Link)
    requires PushInv(w, exclude) && ParentRow(w.base, p, parent)
    ensures ParentLink(w.remote, p, parent)
  {
    assert PushAt(w, exclude, ParentOf(p));
  }

  /** The account resolves a parent's link to the parent's path. */
  lemma LinkIsPath(remote: Account, p: Path, parent: Link, dir: Path)
    requires AccountTree(remote) && ParentLink(remote, p, parent) && FolderAt(remote, parent, dir)
    requires ValidPath(p)
    ensures Join(dir, BaseName(p)) == p
  {
    ValidStart(p);
    JoinSplit(p);
    if dir != "" { NodeIsNamed(remote, dir); }
    if ParentOf(p) != "" { NodeIsNamed(remote, ParentOf(p)); }
  }

  // ----- requests

  /** Who is dealt with how: the rows due for the account's trash, the moves, the files that
  may be uploaded and the folders that may be created. */
  datatype Plan = Plan(base: Base, due: set<Path>, moves: map<Path, Path>, files: set<Path>, dirs: set<Path>)
  {
    /** The plan has a place for this request. */
    predicate Foresees(c: Call) {
      match c
      case CallTrash(p, link) => p in due && p in base && base[p].link == link
      case CallMove(p, link, _, name) =>
        p in moves && p in base && base[p].link == link && name == BaseName(moves[p])
      case CallUpload(p, _, name) => p in files && name == BaseName(p)
      case CallMkdir(p, _, name) => p in dirs && name == BaseName(p)
    }

    /** Requests were added, each was foreseen, and folders apart no path was asked for twice,
    and none but those of `spent`. */
    predicate Issued(before: seq<Call>, after: seq<Call>, spent: set<Path>) {
      && before <= after
      && (forall i | |before| <= i < |after| ::
            Foresees(after[i]) && (after[i].CallMkdir? || after[i].path in spent))
      && (forall i, j | |before| <= i < j < |after| && !after[i].CallMkdir? && !after[j].CallMkdir? ::
            after[i].path != after[j].path)
    }

    /** No other row that vanished carries the same link. */
    predicate OwnLink(from: Path)
      requires from in base
    {
      forall p | p in due + moves.Keys && p in base && p != from :: base[p].link != base[from].link
    }
  }

  /** What a push starts from, what it means to do, and what it may count on. */
  datatype Job = Job(w1: World, plan: Plan, linked: bool, steady: bool)

  // ----- candidates

  /** The new local files. */
  function Candidates(base: Base, local: Scan): set<Path> {
    set p | p in local && p !in base && !local[p].isDir
  }

  /** The same scan with more hashes filled in. */
  predicate MoreHashes(local: Scan, local': Scan) {
    local'.Keys == local.Keys
    && forall p | p in local :: local'[p] == local[p] || (local[p].hash.Unknown?
        && local'[p] == local[p].(hash := local'[p].hash))
  }

  /** A hash was read. */
  lemma HashFilled(base: Base, disk: Disk, local0: Scan, local: Scan, exclude: seq<string>, c: Path, n: LocalNode)
    requires Rescanned(disk, local, exclude) && MoreHashes(local0, local)
    requires c in local && local[c].hash.Unknown? && n == local[c].(hash := n.hash) && Read(disk, c, n)
    ensures Rescanned(disk, local[c := n], exclude) && MoreHashes(local0, local[c := n])
    ensures Candidates(base, local[c := n]) == Candidates(base, local)
  {
    hide Visible;
    assert local[c := n].Keys == local.Keys;
  }

  lemma MoreHashesReflexive(a: Scan)
    ensures MoreHashes(a, a)
  {
  }

  lemma MoreHashesTransitive(a: Scan, b: Scan, c: Scan)
    requires MoreHashes(a, b) && MoreHashes(b, c)
    ensures MoreHashes(a, c)
  {
  }

  // ----- what makes the push exact

  /** An inode that was reused for other content would be taken for a move. */
  ghost predicate HonestInodes(w: World) {
    forall p, c | p in w.base && p !in w.disk && !w.base[p].isDir && w.base[p].inode != 0
                  && IsFile(w.disk, c) && c !in w.base && w.disk[c].inode == w.base[p].inode ::
      w.base[p].hash == Sum(w.disk[c].content)
  }

  ghost predicate Pushable(w: World, exclude: seq<string>) {
    && PushInv(w, exclude) && HonestInodes(w)
    && CaseClear(w.base.Keys, w.base.Keys + w.disk.Keys)
  }

  /** There is nothing to push: every row has its local entry, and every local entry its row
  with the content the file has. */
  predicate NothingToPush(w: World, local: Scan) {
    Vanished(w.base, local, w.stubs) == {} && forall p | p in local :: InStep(w, p, local[p].isDir)
  }

  predicate InStep(w: World, p: Path, isDir: bool) {
    && p in w.base
    && (isDir || !w.base[p].materialized || (IsFile(w.disk, p) && w.base[p].hash == Sum(w.disk[p].content)))
  }

  // ----- which entries are sent

  /** A request that sends this entry up. */
  predicate Sends(c: Call, p: Path, isDir: bool) {
    c.path == p && if isDir then c.CallMkdir? else c.CallUpload?
  }

  predicate Requested(p: Path, isDir: bool, before: seq<Call>, after: seq<Call>) {
    exists i :: |before| <= i < |after| && Sends(after[i], p, isDir)
  }

  /** The last of some requests sends this entry up. */
  predicate JustSent(p: Path, isDir: bool, before: seq<Call>, after: seq<Call>) {
    before < after && Sends(after[|after| - 1], p, isDir)
  }

  /** The entry is as its row says, or was asked for. */
  predicate Served(w1: World, p: Path, isDir: bool, before: seq<Call>, after: seq<Call>) {
    InStep(w1, p, isDir) || Requested(p, isDir, before, after)
  }

  /** That goes for every entry apart from `rest`. */
  predicate ServedBut(rest: set<Path>, w1: World, local: Scan, before: seq<Call>, after: seq<Call>) {
    forall p | p in local && p !in rest :: Served(w1, p, local[p].isDir, before, after)
  }

  lemma OneMoreServed(rest: set<Path>, w1: World, local: Scan, a: seq<Call>, b: seq<Call>, c: seq<Call>, p: Path)
    requires ServedBut(rest, w1, local, a, b) && a <= b <= c && p in local
    requires Served(w1, p, local[p].isDir, b, c)
    ensures ServedBut(rest - {p}, w1, local, a, c)
  {
    hide Sends, InStep;
    forall q | q in local && q !in rest - {p} ensures Served(w1, q, local[q].isDir, a, c) {
      if q != p && !InStep(w1, q, local[q].isDir) {
        var i :| |a| <= i < |b| && Sends(b[i], q, local[q].isDir);
        assert Sends(c[i], q, local[q].isDir);
      }
    }
  }

  /** What was settled among the later requests was settled among all. */
  lemma ServedFrom(rest: set<Path>, w1: World, local: Scan, a: seq<Call>, b: seq<Call>, c: seq<Call>)
    requires |a| <= |b| && ServedBut(rest, w1, local, b, c)
    ensures ServedBut(rest, w1, local, a, c)
  {
    hide Sends, InStep;
  }

  lemma ServedHashed(rest: set<Path>, w1: World, local: Scan, hashed: Scan, a: seq<Call>, b: seq<Call>)
    requires MoreHashes(local, hashed) && ServedBut(rest, w1, hashed, a, b)
    ensures ServedBut(rest, w1, local, a, b)
  {
    hide Served;
  }

  // ----- one request and its record, as the account and the baseline see them

  /** A link handed out for a name is that of the node that has the name, or a new one. */
  predicate MayGive(remote: Account, used: set<Link>, p: Path, dir: Path, link: Link) {
    Join(dir, BaseName(p)) in remote || link !in used
  }

  /** What a granted Mkdir under `dir` and its record leave. */
  predicate MkdirOutcome(w: World, w': World, p: Path, link: Link, parent: Link, dir: Path, recorded: bool) {
    var at := Join(dir, BaseName(p));
    && FolderAt(w.remote, parent, dir)
    && (if at in w.remote then w.remote[at].isDir && link == w.remote[at].link else FreshLink(w.remote, link))
    && w' == w.(remote := if at in w.remote then w.remote else w.remote[at := RemoteDir(link, parent)],
                base := if recorded then w.base[p := DirRow(link, parent)] else w.base)
  }

  lemma MkdirDone(w1: World, w: World, w': World, exclude: seq<string>, pending: set<Path>, todo: set<Path>,
                  p: Path, link: Link, parent: Link, dir: Path)
    requires PushState(w1, w, exclude, pending, todo) && ParentRow(w.base, p, parent)
    requires IsDir(w.disk, p) && Visible(p, exclude) && MkdirOutcome(w, w', p, link, parent, dir, true)
    ensures PushState(w1, w', exclude, pending, todo) && InSync(w', p)
  {
    RowIsLink(w, exclude, p, parent);
    LinkIsPath(w.remote, p, parent, dir);
    if p in w.remote {
      MkdirAgain(w1, w, exclude, pending, todo, p, parent);
    } else {
      assert PushAt(w, exclude, p);
      MkdirStep(w1, w, exclude, pending, todo, p, link, parent);
    }
  }

  predicate UploadOutcome(w: World, w': World, p: Path, link: Link, parent: Link, dir: Path, recorded: bool)
    requires IsFile(w.disk, p)
  {
    var at, f := Join(dir, BaseName(p)), w.disk[p];
    && FolderAt(w.remote, parent, dir)
    && (if at in w.remote then !w.remote[at].isDir && link == w.remote[at].link else FreshLink(w.remote, link))
    && w' == w.(remote := w.remote[at := RemoteFile(link, parent, f.content, f.mtime)],
                base := if recorded then w.base[p := UploadRow(link, parent, f)] else w.base)
  }

  lemma UploadDone(w1: World, w: World, w': World, exclude: seq<string>, pending: set<Path>, todo: set<Path>,
                   p: Path, link: Link, parent: Link, dir: Path)
    requires PushState(w1, w, exclude, pending, todo) && ParentRow(w.base, p, parent)
    requires IsFile(w.disk, p) && Visible(p, exclude) && UploadOutcome(w, w', p, link, parent, dir, true)
    ensures PushState(w1, w', exclude, pending, todo - {p})
  {
    RowIsLink(w, exclude, p, parent);
    LinkIsPath(w.remote, p, parent, dir);
    UploadStep(w1, w, exclude, pending, todo, p, link, parent);
  }

  /** The row of a moved file: what the scan knows of it, and the old hash where it has none. */
  function MovedRow(row: Row, parent: Link, n: LocalNode): Row {
    row.(parent := parent, inode := n.inode, mtime := n.mtime, size := n.size,
         hash := if n.hash.Sum? then n.hash else row.hash)
  }

  predicate MoveOutcome(w: World, w': World, row: Row, from: Path, at: Path, to: Path, n: LocalNode, parent: Link,
                        dir: Path, forgotten: bool, recorded: bool) {
    var place := Join(dir, BaseName(to));
    var rows := if forgotten then Forget(w.base, from, false) else w.base;
    && FolderAt(w.remote, parent, dir) && place !in w.remote
    && at in w.remote && w.remote[at].link == row.link && !w.remote[at].isDir
    && w' == w.(remote := (w.remote - {at})[place := w.remote[at].(parent := parent)],
                base := if recorded then rows[to := MovedRow(row, parent, n)] else rows)
  }

  lemma MoveDone(w1: World, w: World, w': World, exclude: seq<string>, pending: set<Path>, todo: set<Path>,
                 from: Path, at: Path, to: Path, n: LocalNode, parent: Link, dir: Path)
    requires PushState(w1, w, exclude, pending, todo) && HonestInodes(w1)
    requires from in pending && from in w1.base && !w1.base[from].isDir
    requires to in todo && to !in w1.base && IsFile(w.disk, to) && Visible(to, exclude)
    requires Read(w.disk, to, n) && Matches(w1.base, w.disk, {}, from, to) && ParentRow(w.base, to, parent)
    requires MoveOutcome(w, w', w1.base[from], from, at, to, n, parent, dir, true, true)
    ensures PushState(w1, w', exclude, pending - {from}, todo - {to})
  {
    RowIsLink(w, exclude, to, parent);
    LinkIsPath(w.remote, to, parent, dir);
    assert PushStateAt(w1, w, exclude, pending, todo, from);
    assert PushAt(w, exclude, from);
    assert w1.base[from].hash == Sum(w.disk[to].content);
    MoveStep(w1, w, exclude, pending, todo, from, to, parent, MovedRow(w1.base[from], parent, n));
  }

  predicate TrashOutcome(w: World, w': World, row: Row, p: Path, at: Path, forgotten: bool) {
    && at in w.remote && w.remote[at].link == row.link
    && w' == w.(remote := Without(w.remote, at),
                base := if forgotten then Forget(w.base, p, row.isDir) else w.base)
  }

  lemma TrashDone(w1: World, w: World, w': World, exclude: seq<string>, pending: set<Path>, todo: set<Path>,
                  p: Path, at: Path)
    requires PushState(w1, w, exclude, pending, todo) && CaseClear(w1.base.Keys, w1.base.Keys + w1.disk.Keys)
    requires p in pending && p in w1.base && TrashOutcome(w, w', w1.base[p], p, at, true)
    requires forall q | q in pending :: |q| <= |p|
    ensures PushState(w1, w', exclude, pending - {p}, todo)
  {
    assert PushStateAt(w1, w, exclude, pending, todo, p);
    assert PushAt(w, exclude, p);
    RowsAreKnown(w1, w, exclude, pending, todo);
    TrashStep(w1, w, exclude, pending, todo, p);
  }

  /** A tracked local entry that is as its row says needs no request. */
  lemma NoRequest(w1: World, w: World, exclude: seq<string>, pending: set<Path>, todo: set<Path>, p: Path)
    requires PushState(w1, w, exclude, pending, todo) && p in todo && p in w1.base && p in w.disk
    requires IsFile(w.disk, p) ==> !w1.base[p].materialized || w1.base[p].hash == Sum(w.disk[p].content)
    ensures PushState(w1, w, exclude, pending, todo - {p})
  {
    assert PushStateAt(w1, w, exclude, pending, todo, p);
    assert PushAt(w, exclude, p);
    UnchangedInSync(w, exclude, p);
    DoneWith(w1, w, exclude, pending, todo, p);
  }

  /** No row is lost, and rows without a visible local entry are left as they are. */
  predicate RowsKept(before: Base, after: Base, disk: Disk, exclude: seq<string>) {
    before.Keys <= after.Keys && forall q | q in before && !Live(disk, exclude, q) :: after[q] == before[q]
  }

  lemma RowsKeptTrans(a: Base, b: Base, c: Base, disk: Disk, exclude: seq<string>)
    requires RowsKept(a, b, disk, exclude) && RowsKept(b, c, disk, exclude)
    ensures RowsKept(a, c, disk, exclude)
  {
  }

  lemma RowsKeptLess(a: Base, b: Base, disk: Disk, exclude: seq<string>, p: Path)
    requires RowsKept(a, b, disk, exclude)
    ensures RowsKept(a - {p}, b - {p}, disk, exclude) && RowsKept(a - {p}, b, disk, exclude)
  {
  }

  lemma RowsKeptAt(a: Base, b: Base, disk: Disk, exclude: seq<string>, p: Path)
    requires RowsKept(a, b, disk, exclude) && p in a
    ensures p in b && (!Live(disk, exclude, p) ==> b[p] == a[p])
  {
  }

  // ----- how far a push has come

  /** Every node is still there, under its link and of its kind. */
  predicate LinksKept(before: Account, after: Account) {
    forall q | q in before :: q in after && after[q].link == before[q].link && after[q].isDir == before[q].isDir
  }

  /** What requests and their records change. */
  datatype Snap = Snap(rows: Base, calls: seq<Call>, nodes: Account)

  lemma MkdirGrows(w: World, w': World, p: Path, link: Link, parent: Link, dir: Path, recorded: bool)
    requires MkdirOutcome(w, w', p, link, parent, dir, recorded)
    ensures LinksKept(w.remote, w'.remote)
  {
  }

  lemma UploadGrows(w: World, w': World, p: Path, link: Link, parent: Link, dir: Path, recorded: bool)
    requires IsFile(w.disk, p) && UploadOutcome(w, w', p, link, parent, dir, recorded)
    ensures LinksKept(w.remote, w'.remote)
  {
  }

  /** Folders were created and files sent: no row and no node is lost, and every request was
  foreseen. */
  ghost predicate Onward(plan: Plan, disk: Disk, exclude: seq<string>, a: Snap, b: Snap, spent: set<Path>) {
    RowsKept(a.rows, b.rows, disk, exclude) && plan.Issued(a.calls, b.calls, spent) && LinksKept(a.nodes, b.nodes)
  }

  lemma OnwardNow(plan: Plan, disk: Disk, exclude: seq<string>, a: Snap)
    ensures Onward(plan, disk, exclude, a, a, {})
  {
  }

  lemma OnwardThen(plan: Plan, disk: Disk, exclude: seq<string>, a: Snap, b: Snap, c: Snap, s: set<Path>, t: set<Path>)
    requires Onward(plan, disk, exclude, a, b, s) && Onward(plan, disk, exclude, b, c, t) && s !! t
    ensures Onward(plan, disk, exclude, a, c, s + t)
  {
    hide Live;
    IssuedThen(plan, a.calls, b.calls, c.calls, s, t);
  }

  /** Folders were created first. */
  lemma OnwardAfterFolders(plan: Plan, disk: Disk, exclude: seq<string>, a: Snap, b: Snap, c: Snap, t: set<Path>)
    requires Onward(plan, disk, exclude, a, b, {}) && Onward(plan, disk, exclude, b, c, t)
    ensures Onward(plan, disk, exclude, a, c, t)
  {
    hide Onward;
    OnwardThen(plan, disk, exclude, a, b, c, {}, t);
    assert {} + t == t;
  }

  lemma OnwardMore(plan: Plan, disk: Disk, exclude: seq<string>, a: Snap, b: Snap, s: set<Path>, t: set<Path>)
    requires Onward(plan, disk, exclude, a, b, s) && s <= t
    ensures Onward(plan, disk, exclude, a, b, t)
  {
  }

  /** A plan that counts every visible folder among those that may be created. */
  ghost predicate CoversFolders(plan: Plan, disk: Disk, exclude: seq<string>) {
    forall q | IsDir(disk, q) && Visible(q, exclude) :: q in plan.dirs
  }

  /** One request for a folder. */
  lemma OnwardMkdir(plan: Plan, disk: Disk, exclude: seq<string>, a: Snap, b: Snap, p: Path, parent: Link)
    requires CoversFolders(plan, disk, exclude) && IsDir(disk, p) && Visible(p, exclude)
    requires RowsKept(a.rows, b.rows, disk, exclude) && LinksKept(a.nodes, b.nodes)
    requires b.calls == a.calls + [CallMkdir(p, parent, BaseName(p))]
    ensures Onward(plan, disk, exclude, a, b, {})
  {
    hide Visible, Live, BaseName;
  }

  /** One request for a file, or none. */
  lemma OnwardUpload(plan: Plan, disk: Disk, exclude: seq<string>, a: Snap, b: Snap, p: Path, parent: Link)
    requires p in plan.files && RowsKept(a.rows, b.rows, disk, exclude) && LinksKept(a.nodes, b.nodes)
    requires b.calls == a.calls || b.calls == a.calls + [CallUpload(p, parent, BaseName(p))]
    ensures Onward(plan, disk, exclude, a, b, {p})
  {
    hide Live, BaseName;
  }

  lemma IssuedThen(plan: Plan, a: seq<Call>, b: seq<Call>, c: seq<Call>, s: set<Path>, t: set<Path>)
    requires plan.Issued(a, b, s) && plan.Issued(b, c, t) && s !! t
    ensures plan.Issued(a, c, s + t)
  {
    hide Plan.Foresees;
    assert forall i | |a| <= i < |b| :: c[i] == b[i];
  }

  /** One request for a move. */
  lemma IssuedMove(plan: Plan, calls: seq<Call>, from: Path, link: Link, parent: Link)
    requires from in plan.moves && from in plan.base && plan.base[from].link == link
    ensures plan.Issued(calls, calls + [CallMove(from, link, parent, BaseName(plan.moves[from]))], {from})
  {
    hide BaseName;
  }

  // ----- the entries one by one

  /** Every entry is as its row says. */
  predicate AllInStep(w1: World, local: Scan) {
    forall p | p in local :: InStep(w1, p, local[p].isDir)
  }

  /** The uploads so far: from `a` and `w0` to `b` and `w`, with `todo` still to come. */
  ghost predicate Sending(plan: Plan, exclude: seq<string>, w1: World, local: Scan, a: Snap, b: Snap, w0: World,
                          w: World, todo: set<Path>) {
    && Onward(plan, w1.disk, exclude, a, b, local.Keys - todo)
    && (FilesInStep(w1, local) ==> OnlyFolderRows(a.rows, b.rows, w1.disk))
    && (AllInStep(w1, local) ==> w == w0 && b.calls == a.calls)
  }

  lemma SendingStarts(plan: Plan, exclude: seq<string>, w1: World, local: Scan, a: Snap, w0: World)
    ensures Sending(plan, exclude, w1, local, a, a, w0, w0, local.Keys)
  {
    hide Onward;
    OnwardNow(plan, w1.disk, exclude, a);
    assert local.Keys - local.Keys == {};
  }

  lemma SendingSkips(plan: Plan, exclude: seq<string>, w1: World, local: Scan, a: Snap, b: Snap, w0: World, w: World,
                     todo: set<Path>, p: Path)
    requires Sending(plan, exclude, w1, local, a, b, w0, w, todo)
    ensures Sending(plan, exclude, w1, local, a, b, w0, w, todo - {p})
  {
    hide Onward;
    OnwardMore(plan, w1.disk, exclude, a, b, local.Keys - todo, local.Keys - (todo - {p}));
  }

  lemma SendingStep(plan: Plan, exclude: seq<string>, w1: World, local: Scan, a: Snap, b: Snap, c: Snap, w0: World,
                    w: World, w': World, todo: set<Path>, p: Path)
    requires Sending(plan, exclude, w1, local, a, b, w0, w, todo) && p in todo && todo <= local.Keys
    requires Onward(plan, w1.disk, exclude, b, c, {p}) && w'.base == c.rows && w.base == b.rows
    requires InStep(w1, p, local[p].isDir) ==> w' == w && c.calls == b.calls
    requires local[p].isDir ==> OnlyFolderRows(b.rows, c.rows, w1.disk)
    ensures Sending(plan, exclude, w1, local, a, c, w0, w', todo - {p})
  {
    hide Onward, OnlyFolderRows, InStep;
    OnwardThen(plan, w1.disk, exclude, a, b, c, local.Keys - todo, {p});
    assert local.Keys - todo + {p} == local.Keys - (todo - {p});
    if FilesInStep(w1, local) {
      OnlyFolderRowsNow(b.rows, c.rows, w1.disk);
      OnlyFolderRowsTrans(a.rows, b.rows, c.rows, w1.disk);
    }
  }

  lemma SentMore(plan: Plan, exclude: seq<string>, w1: World, local: Scan, a: Snap, b: Snap, c: Snap, w0: World,
                 w: World, todo: set<Path>, p: Path)
    requires Sending(plan, exclude, w1, local, a, b, w0, w, todo) && Onward(plan, w1.disk, exclude, b, c, {p})
    ensures a.calls <= b.calls <= c.calls
  {
  }

  lemma NothingServed(w1: World, local: Scan, targets: set<Path>, calls: seq<Call>)
    ensures ServedBut(local.Keys + targets, w1, local, calls, calls)
  {
  }

  lemma SendingEnds(plan: Plan, exclude: seq<string>, w1: World, local: Scan, a: Snap, b: Snap, w0: World, w: World,
                    todo: set<Path>)
    requires Sending(plan, exclude, w1, local, a, b, w0, w, todo)
    ensures Onward(plan, w1.disk, exclude, a, b, local.Keys)
    ensures FilesInStep(w1, local) ==> OnlyFolderRows(a.rows, b.rows, w1.disk)
    ensures AllInStep(w1, local) ==> w == w0 && b.calls == a.calls
  {
    hide Onward;
    OnwardMore(plan, w1.disk, exclude, a, b, local.Keys - todo, local.Keys);
  }

  // ----- deletions, asked for one by one

  /** The requests for the rows that did not move, in their order. */
  function TrashCalls(base: Base, gone: seq<Path>, moves: map<Path, Path>): seq<Call> {
    if gone == [] then []
    else
      var p := gone[|gone| - 1];
      TrashCalls(base, gone[..|gone| - 1], moves)
      + if p in moves || p !in base then [] else [CallTrash(p, base[p].link)]
  }

  /** One request for a removal. */
  lemma IssuedTrash(plan: Plan, calls: seq<Call>, p: Path)
    requires p in plan.due && p in plan.base
    ensures plan.Issued(calls, calls + [CallTrash(p, plan.base[p].link)], {p})
  {
  }

  lemma OneMoreCall(base: Base, init: seq<Path>, p: Path, moves: map<Path, Path>)
    ensures TrashCalls(base, init + [p], moves) == TrashCalls(base, init, moves)
              + if p in moves || p !in base then [] else [CallTrash(p, base[p].link)]
    ensures Members(init + [p]) - moves.Keys == (Members(init) - moves.Keys) + if p in moves then {} else {p}
  {
    assert (init + [p])[..|init|] == init;
    MembersMore(init, p);
  }

  /** Each such row is asked for exactly once, and nothing else is. */
  lemma {:induction false} TrashCallsIssued(plan: Plan, calls: seq<Call>, gone: seq<Path>)
    requires NoRepeats(gone) && forall p | p in gone && p !in plan.moves :: p in plan.due && p in plan.base
    ensures plan.Issued(calls, calls + TrashCalls(plan.base, gone, plan.moves), Members(gone) - plan.moves.Keys)
    ensures forall p | p in gone && p !in plan.moves ::
              CallTrash(p, plan.base[p].link) in TrashCalls(plan.base, gone, plan.moves)
    decreases |gone|
  {
    hide Plan.Issued;
    if gone == [] {
      NothingIssued(plan, calls, map[], map[], []);
      assert calls + [] == calls && Members(gone) - plan.moves.Keys == {};
    } else {
      var init, p := gone[..|gone| - 1], gone[|gone| - 1];
      assert gone == init + [p];
      TrashCallsIssued(plan, calls, init);
      OneMoreCall(plan.base, init, p, plan.moves);
      OneMoreIssued(plan, calls, TrashCalls(plan.base, init, plan.moves), Members(init) - plan.moves.Keys, p);
    }
  }

  lemma OneMoreIssued(plan: Plan, calls: seq<Call>, done: seq<Call>, spent: set<Path>, p: Path)
    requires plan.Issued(calls, calls + done, spent) && p !in spent
    requires p !in plan.moves ==> p in plan.due && p in plan.base
    ensures if p in plan.moves then calls + (done + []) == calls + done && spent + {} == spent
            else plan.Issued(calls, calls + (done + [CallTrash(p, plan.base[p].link)]), spent + {p})
  {
    hide Plan.Issued;
    if p !in plan.moves {
      var c := CallTrash(p, plan.base[p].link);
      assert calls + (done + [c]) == calls + done + [c];
      IssuedTrash(plan, calls + done, p);
      IssuedThen(plan, calls, calls + done, calls + done + [c], spent, {p});
    }
  }

  /** Every due row was asked for. */
  predicate AllAsked(base: Base, due: set<Path>, before: seq<Call>, after: seq<Call>) {
    |before| <= |after| && forall p | p in due :: p in base && CallTrash(p, base[p].link) in after[|before|..]
  }

  lemma AllAskedFor(plan: Plan, a: seq<Call>, b: seq<Call>, gone: seq<Path>)
    requires plan.Issued(a, b, plan.moves.Keys) && NoRepeats(gone)
    requires plan.due == Members(gone) - plan.moves.Keys && plan.due <= plan.base.Keys
    ensures var c := b + TrashCalls(plan.base, gone, plan.moves);
      plan.Issued(a, c, plan.moves.Keys + plan.due) && AllAsked(plan.base, plan.due, a, c)
  {
    hide Plan.Issued;
    var more := TrashCalls(plan.base, gone, plan.moves);
    TrashCallsIssued(plan, b, gone);
    IssuedThen(plan, a, b, b + more, plan.moves.Keys, plan.due);
    IssuedExtends(plan, a, b, plan.moves.Keys);
    forall p | p in plan.due ensures CallTrash(p, plan.base[p].link) in (b + more)[|a|..] {
      assert (b + more)[|a|..] == b[|a|..] + more;
    }
  }

  lemma IssuedExtends(plan: Plan, a: seq<Call>, b: seq<Call>, spent: set<Path>)
    requires plan.Issued(a, b, spent)
    ensures |a| <= |b|
  {
  }

  lemma NothingIssued(plan: Plan, calls: seq<Call>, rows: Base, disk: Disk, exclude: seq<string>)
    ensures plan.Issued(calls, calls, {}) && RowsKept(rows - {}, rows, disk, exclude)
  {
  }

  /** After moves and deletions come the uploads. */
  lemma UploadsFollow(plan: Plan, disk: Disk, exclude: seq<string>, a: Snap, b: Snap, c: Snap, s: set<Path>,
                      t: set<Path>, moved: set<Path>, due: set<Path>)
    requires plan.Issued(a.calls, b.calls, s) && Onward(plan, disk, exclude, b, c, t) && s !! t
    requires AllAsked(plan.base, due, a.calls, b.calls) && RowsAccounted(a.rows, b.rows, moved, due)
    ensures plan.Issued(a.calls, c.calls, s + t) && AllAsked(plan.base, due, a.calls, c.calls)
    ensures RowsAccounted(a.rows, c.rows, moved, due)
  {
    hide Live;
    IssuedThen(plan, a.calls, b.calls, c.calls, s, t);
    assert b.calls <= c.calls;
    assert b.calls[|a.calls|..] <= c.calls[|a.calls|..];
  }

  // ----- nodes that were moved

  /** The moved node is at its new place, if no other vanished row carries its link. */
  predicate RelocatedAt(remote: Account, plan: Plan, from: Path) {
    && from in plan.moves && from in plan.base
    && (plan.OwnLink(from) ==>
          var to := plan.moves[from];
          to in remote && remote[to].link == plan.base[from].link && !remote[to].isDir)
  }

  predicate Relocated(remote: Account, plan: Plan, granted: set<Path>) {
    forall from | from in granted :: RelocatedAt(remote, plan, from)
  }

  lemma StillRelocated(remote: Account, remote': Account, plan: Plan, granted: set<Path>)
    requires Relocated(remote, plan, granted) && LinksKept(remote, remote')
    ensures Relocated(remote', plan, granted)
  {
    hide Plan.OwnLink;
    forall from | from in granted ensures RelocatedAt(remote', plan, from) {
      assert RelocatedAt(remote, plan, from);
    }
  }

  // ----- the loops

  function Targets(moves: map<Path, Path>, froms: set<Path>): set<Path> {
    set p | p in froms && p in moves :: moves[p]
  }

  /** One more of the moves has had its turn. */
  lemma OneMoreMove(base: Base, disk: Disk, local: Scan, gone: set<Path>, moves: map<Path, Path>, done: set<Path>,
                    from: Path)
    requires Pairing(base, disk, Candidates(base, local), gone, moves)
    requires from in moves && from !in done && done <= moves.Keys
    ensures (gone - done) - {from} == gone - (done + {from})
    ensures (local.Keys - Targets(moves, done)) - {moves[from]} == local.Keys - Targets(moves, done + {from})
    ensures from in gone - done && moves[from] in local.Keys - Targets(moves, done)
  {
    assert Targets(moves, done + {from}) == Targets(moves, done) + {moves[from]};
  }

  lemma AllMoved(moves: map<Path, Path>)
    ensures Targets(moves, moves.Keys) == moves.Values && Targets(moves, {}) == {}
  {
  }

  /** What is still to be trashed when the first `i` vanished rows have had their turn. */
  function Rest(gone: seq<Path>, moves: map<Path, Path>, i: nat): set<Path>
    requires i <= |gone|
  {
    set p | p in gone[i..] && p !in moves
  }

  lemma OneMoreGone(gone: seq<Path>, moves: map<Path, Path>, i: nat)
    requires i < |gone| && NoRepeats(gone) && LongestFirst(gone)
    ensures gone[i] in Members(gone)
    ensures gone[i] in moves ==> Rest(gone, moves, i + 1) == Rest(gone, moves, i)
    ensures gone[i] !in moves ==> gone[i] in Rest(gone, moves, i)
    ensures gone[i] !in moves ==> Rest(gone, moves, i) - {gone[i]} == Rest(gone, moves, i + 1)
    ensures forall q | q in Rest(gone, moves, i) :: |q| <= |gone[i]|
  {
    assert gone[i..] == [gone[i]] + gone[i + 1..];
  }

  lemma AllTrashed(gone: seq<Path>, moves: map<Path, Path>)
    ensures Rest(gone, moves, |gone|) == {}
    ensures Rest(gone, moves, 0) == Members(gone) - moves.Keys
  {
    assert gone[0..] == gone;
  }

  /** Forgetting a row never takes one along that is not longer, in whatever letter case. */
  lemma ShorterStays(base: Base, p: Path, isDir: bool, q: Path)
    requires q in base && q != p && |q| <= |p|
    ensures q in Forget(base, p, isDir)
  {
    SubtreePatternExact(p, q);
  }

  /** The rows of `due` are as they were. */
  predicate RowsAre(base: Base, due: set<Path>, now: Base) {
    forall p | p in due :: p in base && p in now && now[p] == base[p]
  }

  lemma TrashedRowsStay(base: Base, due: set<Path>, now: Base, now': Base, p: Path, isDir: bool)
    requires RowsAre(base, due, now) && p in due && (now' == now || now' == Forget(now, p, isDir))
    requires forall q | q in due :: |q| <= |p|
    ensures RowsAre(base, due - {p}, now')
  {
    forall q | q in due - {p} ensures q in now' && now'[q] == base[q] {
      ShorterStays(now, p, isDir, q);
    }
  }

  lemma VanishedRowsAre(base: Base, moved: set<Path>, now: Base, disk: Disk, exclude: seq<string>, due: set<Path>)
    requires RowsKept(base - moved, now, disk, exclude) && due <= base.Keys - moved
    requires forall p | p in due :: !Live(disk, exclude, p)
    ensures RowsAre(base, due, now)
  {
    forall p | p in due ensures p in now && now[p] == base[p] {
      RowsKeptAt(base - moved, now, disk, exclude, p);
    }
  }

  // ----- the whole push

  /** Who is dealt with how, once the moves are known. */
  ghost function PlanOf(w: World, local: Scan, moves: map<Path, Path>, exclude: seq<string>): Plan {
    Plan(w.base, Vanished(w.base, local, w.stubs) - moves.Keys, moves,
         (set p | p in local && !local[p].isDir && p !in moves.Values && !InStep(w, p, false)),
         (set p | p in w.disk && w.disk[p].Dir? && Visible(p, exclude)))
  }

  lemma PlanCovers(w: World, local: Scan, moves: map<Path, Path>, exclude: seq<string>)
    ensures CoversFolders(PlanOf(w, local, moves, exclude), w.disk, exclude)
  {
  }

  lemma PlanFiles(w: World, local: Scan, moves: map<Path, Path>, exclude: seq<string>)
    requires Rescanned(w.disk, local, exclude)
    ensures forall p | p in local && p !in moves.Values && IsFile(w.disk, p) && !InStep(w, p, false) ::
              p in PlanOf(w, local, moves, exclude).files
  {
    hide Visible, InStep;
  }

  /** A row that is gone moved, or was due. */
  predicate RowsAccounted(before: Base, after: Base, moved: set<Path>, due: set<Path>) {
    forall q | q in before && q !in after :: q in moved || LostTo(due, q)
  }

  lemma RowsMovedOrTrashed(a: Base, b: Base, c: Base, moved: set<Path>, due: set<Path>, disk: Disk,
          exclude: seq<string>)
    requires RowsKept(a - moved, b, disk, exclude) && RowsLost(b, c, due)
    ensures RowsAccounted(a, c, moved, due)
  {
  }

  /** Before anything was asked for. */
  lemma ExactFromStart(w: World, exclude: seq<string>, local: Scan, local': Scan)
    requires Pushable(w, exclude) && Complete(w.disk, local, exclude)
    requires MoreHashes(local, local') && Rescanned(w.disk, local', exclude)
    ensures PushState(w, w, exclude, Vanished(w.base, local, w.stubs), local'.Keys)
  {
    PushStart(w, exclude, local');
    assert Vanished(w.base, local', w.stubs) == Vanished(w.base, local, w.stubs);
  }

  lemma PlanIs(w: World, local: Scan, hashed: Scan, moves: map<Path, Path>, exclude: seq<string>)
    requires Rescanned(w.disk, hashed, exclude) && MoreHashes(local, hashed)
    requires Pairing(w.base, w.disk, Candidates(w.base, local), Vanished(w.base, local, w.stubs), moves)
    ensures var plan := PlanOf(w, local, moves, exclude);
      && plan.moves == moves && plan.base == w.base && plan.due == Vanished(w.base, local, w.stubs) - moves.Keys
      && hashed.Keys == local.Keys
      && (forall p | p in hashed && p !in moves.Values && IsFile(w.disk, p) && !InStep(w, p, false) :: p in plan.files)
    ensures moves.Keys + (Vanished(w.base, local, w.stubs) - moves.Keys) !! local.Keys
    ensures Complete(w.disk, local, exclude) ==>
              forall p | p in Vanished(w.base, local, w.stubs) :: !Live(w.disk, exclude, p)
  {
    hide Visible, Matches;
    PlanFiles(w, hashed, moves, exclude);
    assert PlanOf(w, hashed, moves, exclude).files == PlanOf(w, local, moves, exclude).files;
  }

  /** Where there is nothing to push, nothing vanished, and every entry is in step. */
  lemma PushClaims(w: World, local: Scan, hashed: Scan, moves: map<Path, Path>, exclude: seq<string>, gone: seq<Path>)
    requires MoreHashes(local, hashed) && Members(gone) == Vanished(w.base, local, w.stubs)
    requires Pairing(w.base, w.disk, Candidates(w.base, local), Members(gone), moves)
    ensures NothingToPush(w, local) ==>
              gone == [] && moves == map[] && AllInStep(w, hashed)
    ensures FilesInStep(w, local) <==> FilesInStep(w, hashed)
  {
    NothingVanished(w.base, w.disk, Candidates(w.base, local), gone, moves);
    if NothingToPush(w, local) { SameKinds(w, local, hashed); }
  }

  lemma SameCandidates(base: Base, local: Scan, local': Scan)
    requires MoreHashes(local, local')
    ensures Candidates(base, local') == Candidates(base, local)
  {
  }

  lemma NothingVanished(base: Base, disk: Disk, candidates: set<Path>, gone: seq<Path>, moves: map<Path, Path>)
    requires Pairing(base, disk, candidates, Members(gone), moves)
    ensures Members(gone) == {} ==> gone == [] && moves == map[]
  {
    var all := Members(gone);
    assert gone != [] ==> gone[0] in all;
    assert forall p | p in moves :: p in all;
    if all == {} { assert moves == map[]; }
  }

  lemma SameKinds(w: World, local: Scan, local': Scan)
    requires MoreHashes(local, local') && NothingToPush(w, local)
    ensures forall p | p in local' :: InStep(w, p, local'[p].isDir)
  {
  }

  // ----- rows of files

  /** Rows were dropped, or are those of folders on disk; no file's row was written. */
  predicate OnlyFolderRows(before: Base, after: Base, disk: Disk) {
    forall q | q in after :: (q in before && after[q] == before[q]) || (after[q].isDir && IsDir(disk, q))
  }

  lemma OnlyFolderRowsTrans(a: Base, b: Base, c: Base, disk: Disk)
    requires OnlyFolderRows(a, b, disk) && OnlyFolderRows(b, c, disk)
    ensures OnlyFolderRows(a, c, disk)
  {
  }

  lemma OnlyFolderRowsNow(a: Base, b: Base, disk: Disk)
    ensures a == b ==> OnlyFolderRows(a, b, disk)
  {
  }

  lemma LostRowsOnly(a: Base, b: Base, due: set<Path>, disk: Disk)
    requires RowsLost(a, b, due)
    ensures OnlyFolderRows(a, b, disk)
  {
  }

  /** Every file that the scan saw is as its row says. */
  predicate FilesInStep(w: World, local: Scan) {
    forall p | p in local && !local[p].isDir :: InStep(w, p, false)
  }

  /** Where every move leads: to a new local file. */
  predicate MovesToNew(base: Base, local: Scan, moves: map<Path, Path>) {
    forall p | p in moves :: moves[p] in local && moves[p] !in base && !local[moves[p]].isDir
  }

  lemma PairingIsNew(base: Base, disk: Disk, local: Scan, gone: set<Path>, moves: map<Path, Path>)
    requires Pairing(base, disk, Candidates(base, local), gone, moves)
    ensures MovesToNew(base, local, moves)
  {
  }

  /** A fresh scan is read truly, as far as it goes. */
  lemma ScanIsRead(disk: Disk, local: Scan, exclude: seq<string>, unreadable: set<Path>, unexamined: set<Path>,
                   warned: nat)
    requires ReportedBy(disk, exclude, unreadable, unexamined, local.Keys)
    requires forall p | p in local :: local[p] == Describe(disk[p])
    requires warned == |unreadable| + |unexamined|
    ensures Rescanned(disk, local, exclude) && (warned == 0 ==> Complete(disk, local, exclude))
  {
    hide Visible;
  }
}
