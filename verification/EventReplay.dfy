/** Replaying events instead of walking (internal/mirror/mirror.go): removing what was
deleted, then re-listing the folders that changed, reaches what a full walk reaches. */
module EventReplay {
  import opened Types
  import opened Paths
  import opened Names
  import opened SubtreePattern
  import opened World
  import opened Survival
  import opened PullExact
  import opened Remotes

  /** The baseline is a tree of canonical rows with distinct links. */
  ghost predicate BaseTree(base: Base) {
    && (forall p {:trigger ParentOf(p)} | p in base && ParentOf(p) != "" ::
          ParentOf(p) in base && base[ParentOf(p)].isDir)
    && (forall p | p in base && base[p].isDir :: base[p] == DirRow(base[p].link, base[p].parent))
    && (forall p, q | p in base && q in base && base[p].link == base[q].link :: p == q)
    && (forall p | p in base :: base[p].link != ROOT_LINK)
  }

  /** A delta announces the folder `parent`: something in it was created or updated. */
  predicate Announces(changes: seq<Change>, remote: Account, parent: Link) {
    exists i :: 0 <= i < |changes| && NamesFolder(changes[i], remote, parent)
  }

  predicate NamesFolder(c: Change, remote: Account, parent: Link) {
    c.Upsert? && if c.parent.Some? then c.parent.value == parent
                 else exists q :: q in remote && remote[q].link == c.link && remote[q].parent == parent
  }

  predicate Deletes(changes: seq<Change>, link: Link) {
    exists i :: 0 <= i < |changes| && changes[i] == Removal(link)
  }

  /** One path that the delta accounts for: a node that is new or edited is announced in
  its folder, a row without a node is deleted or lies in a folder that is, and nothing that
  is still there is deleted. */
  ghost predicate CoversAt(w: World, changes: seq<Change>, p: Path) {
    && (p in w.remote && !(p in w.base && (w.remote[p].isDir || w.base[p].hash == w.remote[p].digest)) ==>
          Announces(changes, w.remote, w.remote[p].parent))
    && (p in w.base && p !in w.remote ==>
          exists d :: d in w.base && d !in w.remote && AtOrUnder(p, d) && Deletes(changes, w.base[d].link))
    && (p in w.base && Deletes(changes, w.base[p].link) ==> p !in w.remote)
  }

  /** The delta covers every remote creation, content edit and deletion since the baseline. */
  ghost predicate Covers(w: World, changes: seq<Change>) {
    forall p :: CoversAt(w, changes, p)
  }

  /** How many of a delta's deletions concern a tracked node; a folder counts once. */
  function TrackedDeletions(changes: seq<Change>, base: Base): nat {
    if changes == [] then 0
    else
      var last := changes[|changes| - 1];
      TrackedDeletions(changes[..|changes| - 1], base)
      + if last.Removal? && exists p :: p in base && base[p].link == last.link then 1 else 0
  }

  // ----- deletions

  /** The rows at or below `d`. */
  function RowsAt(base: Base, d: Path): set<Path> {
    set q | q in base && AtOrUnder(q, d)
  }

  lemma {:induction false} BelowIsRowDir(base: Base, p: Path, d: Path)
    requires BaseTree(base) && p in base && Under(p, d) && d != ""
    ensures d in base && base[d].isDir
    decreases |p|
  {
    UnderViaParent(p, d);
    if ParentOf(p) == "" {
      assert false;
    }
    if ParentOf(p) != d {
      BelowIsRowDir(base, ParentOf(p), d);
    }
  }

  /** Removing a vanished row together with the rows below it, in any order of rows; it may
  have gone already, with a folder above it. */
  lemma DeleteStep(w1: World, dropped: set<Path>, w: World, w': World, d: Path)
    requires Reapable(w1) && BaseTree(w1.base) && ReapInv(w1, dropped, w)
    requires d in w1.base && d !in w1.remote && Removed(w, w', d, w1.base[d].isDir)
    ensures ReapInv(w1, dropped + RowsAt(w1.base, d), w')
  {
    RemovedTree(w, w', d, w1.base[d].isDir);
    var dropped' := dropped + RowsAt(w1.base, d);
    forall q | q in RowsAt(w1.base, d) ensures q !in w1.remote {
      if q in w1.remote && q != d { AboveIsRemoteDir(w1.remote, q, d); }
    }
    forall q ensures ReapAt(w1, dropped', w', q) {
      assert ReapAt(w1, dropped, w, q);
      RemovedEntries(w, w', d, w1.base[d].isDir, q);
      DroppedMore(w1.base, dropped, d, q);
      if q in w.base {
        DeleteRow(w1, w, d, q);
      }
    }
  }

  /** The given rows and those below them. */
  function RowsBelow(base: Base, ds: set<Path>): set<Path> {
    set q | q in base && Dropped(ds, q)
  }

  /** The rows of a folder that its listing did not report. */
  function Unlisted(base: Base, link: Link, seen: set<Path>): set<Path> {
    set p | p in base && base[p].parent == link && p !in seen
  }

  /** The rows can be dropped with what is below them, in any order. */
  ghost predicate Droppable(w: World, stale: set<Path>) {
    Reapable(w) && BaseTree(w.base) && stale <= w.base.Keys - w.remote.Keys
  }

  /** The stale rows are gone with what was below them, if they could be dropped; nothing
  has changed if there were none. */
  ghost predicate Swept(w: World, w': World, stale: set<Path>) {
    (stale == {} ==> w' == w) && (Droppable(w, stale) ==> ReapInv(w, RowsBelow(w.base, stale), w'))
  }

  lemma StaleStart(w1: World)
    requires Reapable(w1)
    ensures ReapInv(w1, RowsBelow(w1.base, {}), w1)
  {
    assert RowsBelow(w1.base, {}) == {};
    ReapStart(w1);
  }

  lemma StaleStep(w1: World, ds: set<Path>, w: World, w': World, d: Path)
    requires Reapable(w1) && BaseTree(w1.base) && ReapInv(w1, RowsBelow(w1.base, ds), w)
    requires d in w1.base && d !in w1.remote && Removed(w, w', d, w1.base[d].isDir)
    ensures ReapInv(w1, RowsBelow(w1.base, ds + {d}), w')
  {
    DeleteStep(w1, RowsBelow(w1.base, ds), w, w', d);
    assert RowsBelow(w1.base, ds + {d}) == RowsBelow(w1.base, ds) + RowsAt(w1.base, d);
  }

  lemma DroppedMore(base: Base, dropped: set<Path>, d: Path, q: Path)
    requires d in base
    ensures Dropped(dropped + RowsAt(base, d), q) <==> Dropped(dropped, q) || AtOrUnder(q, d)
    ensures Emptied(dropped, q) || Under(d, q) ==> Emptied(dropped + RowsAt(base, d), q)
  {
    forall c | c in RowsAt(base, d) && AtOrUnder(q, c) ensures AtOrUnder(q, d) {
      if q != c && c != d { UnderTransitive(q, c, d); }
    }
    assert d in RowsAt(base, d);
  }

  lemma DeleteRow(w1: World, w: World, d: Path, q: Path)
    requires Reapable(w1) && BaseTree(w1.base)
    requires d in w1.base && q in w1.base && q in w.base
    ensures q in Forget(w.base, d, w1.base[d].isDir) <==> !AtOrUnder(q, d)
  {
    SubtreePatternExact(d, q);
    if Under(q, d) {
      BelowIsRowDir(w1.base, q, d);
    }
  }

  // ----- re-listing

  /** The state after the deletions, seen as the start of the re-listings. Files trashed
  meanwhile drop out of the earlier scan. */
  function Still(before: Scan, disk: Disk): Scan {
    map p | p in before && p in disk :: before[p]
  }

  lemma RelistStartAt(w0: World, before: Scan, keep: Namer, cap: nat, exclude: seq<string>,
                      dropped: set<Path>, w: World, p: Path)
    requires OrdinaryAt(w0, before, keep, cap, exclude, p) && w.remote == w0.remote
    requires ReapAt(w0, dropped, w, p)
    ensures OrdinaryAt(w, Still(before, w.disk), keep, cap, exclude, p)
  {
  }

  lemma RelistStart(w0: World, before: Scan, keep: Namer, cap: nat, exclude: seq<string>,
                    dropped: set<Path>, w: World)
    requires Ordinary(w0, before, keep, cap, exclude) && ReapInv(w0, dropped, w)
    ensures Ordinary(w, Still(before, w.disk), keep, cap, exclude)
  {
    forall p ensures OrdinaryAt(w, Still(before, w.disk), keep, cap, exclude, p)
      ensures p in w.base ==> p in w0.base
      ensures p in w.disk ==> p in w0.disk
    {
      assert ReapAt(w0, dropped, w, p);
      RelistStartAt(w0, before, keep, cap, exclude, dropped, w, p);
    }
    var small, big := w.base.Keys + w.remote.Keys, w0.base.Keys + w0.remote.Keys;
    assert small <= big && small + w.disk.Keys <= big + w0.disk.Keys;
  }

  /** What may happen to a node does not depend on scan entries of paths that are gone. */
  lemma AllowedStill(w: World, before: Scan, disk: Disk, cap: nat, n: Node, o: Outcome)
    requires Allowed(w, before, cap, n, o)
    requires IsFile(w.disk, n.path) ==> n.path in disk
    ensures Allowed(w, Still(before, disk), cap, n, o)
  {
  }

  /** A node that no re-listing reached needs nothing. */
  lemma UnlistedNeedsNothing(w: World, before: Scan, keep: Namer, done: set<Path>, now: World, p: Path)
    requires WalkInv(w, before, keep, done, now) && p in w.remote && p !in done
    requires p in w.base && (w.remote[p].isDir || w.base[p].hash == w.remote[p].digest)
    requires w.remote[p].isDir ==> w.base[p] == DirRow(w.remote[p].link, w.remote[p].parent)
    requires !w.remote[p].isDir ==> w.base[p].hash.Sum?
    ensures WalkInv(w, before, keep, done + {p}, now)
  {
    assert PathInv(w, before, keep, done, now, p);
    forall q ensures PathInv(w, before, keep, done + {p}, now, q) {
      assert PathInv(w, before, keep, done, now, q);
      assert IsCopy(w, before, keep, done + {p}, q) <==> IsCopy(w, before, keep, done, q);
    }
  }

  lemma {:induction false} UnlistedAll(w: World, before: Scan, keep: Namer, done: set<Path>, now: World)
    requires WalkInv(w, before, keep, done, now)
    requires forall p | p in w.remote && p !in done ::
      && p in w.base && (w.remote[p].isDir || w.base[p].hash == w.remote[p].digest)
      && (w.remote[p].isDir ==> w.base[p] == DirRow(w.remote[p].link, w.remote[p].parent))
      && (!w.remote[p].isDir ==> w.base[p].hash.Sum?)
    ensures WalkInv(w, before, keep, w.remote.Keys, now)
    decreases w.remote.Keys - done
  {
    if done != w.remote.Keys {
      var p :| p in w.remote && p !in done;
      UnlistedNeedsNothing(w, before, keep, done, now, p);
      UnlistedAll(w, before, keep, done + {p}, now);
    }
  }

  // ----- the finished replay

  lemma SameAtRemote(w0: World, before: Scan, keep: Namer, dropped: set<Path>, w: World, p: Path)
    requires AccountTree(w0.remote) && w.remote == w0.remote
    requires dropped == w0.base.Keys - w0.remote.Keys && ReapAt(w0, dropped, w, p)
    requires p in w0.remote && !Dropped(dropped, p)
    ensures Fetches(w, p) == Fetches(w0, p)
    ensures EntryAt(w.disk, p) == EntryAt(w0.disk, p)
    ensures Clashes(w, Still(before, w.disk), p) == Clashes(w0, before, p)
    ensures p in w.base <==> p in w0.base
    ensures p in w.base ==> w.base[p] == w0.base[p]
  {
  }

  /** A pull of the state after the deletions is a pull of the state before them. */
  lemma ReplayDoneAt(w0: World, before: Scan, keep: Namer, dropped: set<Path>, w: World, now: World, p: Path)
    requires AccountTree(w0.remote) && Naming(keep) && w.remote == w0.remote
    requires dropped == w0.base.Keys - w0.remote.Keys
    requires forall d | d in w0.base :: d != "" && NoCopy(keep, d)
    requires forall q :: ReapAt(w0, dropped, w, q)
    requires PathInv(w, Still(before, w.disk), keep, w.remote.Keys, now, p)
    requires p in w0.remote ==> NoCopy(keep, p)
    requires w.conflicts == w0.conflicts && w.trash <= now.trash
    ensures PulledAt(w0, before, keep, now, p)
  {
    assert ReapAt(w0, dropped, w, p);
    assert Dropped(dropped, p) <==> Gone(w0, p);
    assert Emptied(dropped, p) <==> Hollow(w0, p);
    if p in w0.remote {
      NotGone(w0, keep, p);
      SameAtRemote(w0, before, keep, dropped, w, p);
      assert ReapAt(w0, dropped, w, keep(p));
      assert !IsCopy(w, Still(before, w.disk), keep, w.remote.Keys, p);
    } else if IsCopy(w, Still(before, w.disk), keep, w.remote.Keys, p) {
      var q :| q in w.remote.Keys && Clashes(w, Still(before, w.disk), q) && keep(q) == p;
      assert ReapAt(w0, dropped, w, q);
      assert Dropped(dropped, q) <==> Gone(w0, q);
      NotGone(w0, keep, q);
      SameAtRemote(w0, before, keep, dropped, w, q);
    }
  }

  lemma ReplayDone(w0: World, before: Scan, keep: Namer, cap: nat, exclude: seq<string>,
                   dropped: set<Path>, w: World, now: World)
    requires Ordinary(w0, before, keep, cap, exclude)
    requires dropped == w0.base.Keys - w0.remote.Keys && ReapInv(w0, dropped, w)
    requires WalkInv(w, Still(before, w.disk), keep, w.remote.Keys, now)
    ensures Pulled(w0, before, keep, now)
  {
    BaseIsOrdinary(w0, before, keep, cap, exclude);
    forall p ensures PulledAt(w0, before, keep, now, p) {
      assert PathInv(w, Still(before, w.disk), keep, w.remote.Keys, now, p);
      assert OrdinaryAt(w0, before, keep, cap, exclude, p);
      ReplayDoneAt(w0, before, keep, dropped, w, now, p);
    }
  }

  /** Rows that differ at most in the local stat columns. */
  predicate SameRow(a: Row, b: Row) {
    a == b.(mtime := a.mtime, inode := a.inode)
  }

  /** The target is one target: two finished pulls of the same state leave the same file
  contents and the same rows, however each of them got there. */
  lemma PulledIsUnique(w0: World, before: Scan, keep: Namer, a: World, b: World)
    requires Pulled(w0, before, keep, a) && Pulled(w0, before, keep, b)
    ensures a.base.Keys == b.base.Keys && forall p | p in a.base :: SameRow(a.base[p], b.base[p])
    ensures forall p :: FileAt(a.disk, p) == FileAt(b.disk, p)
  {
    forall p ensures FileAt(a.disk, p) == FileAt(b.disk, p)
      ensures p in a.base <==> p in b.base
      ensures p in a.base ==> SameRow(a.base[p], b.base[p])
    {
      assert PulledAt(w0, before, keep, a, p);
      assert PulledAt(w0, before, keep, b, p);
      if p !in w0.remote && IsCopy(w0, before, keep, w0.remote.Keys, p) {
        var q :| q in w0.remote.Keys && Clashes(w0, before, q) && keep(q) == p;
        assert PulledAt(w0, before, keep, a, q);
        assert PulledAt(w0, before, keep, b, q);
      }
    }
  }

  // ----- one replay in progress

  /** The deletions so far, as long as nothing has failed. */
  ghost predicate DeleteState(w0: World, w: World, before: Scan, keep: Namer, cap: nat, exclude: seq<string>,
                              changes: seq<Change>, upto: nat, clean: bool) {
    clean && Replayable(w0, before, keep, cap, exclude, changes) ==>
      exists dropped :: DroppedSoFar(w0, w, changes, upto, dropped)
  }

  /** The circumstances in which a replay is exact. */
  ghost predicate Replayable(w0: World, before: Scan, keep: Namer, cap: nat, exclude: seq<string>,
                             changes: seq<Change>) {
    Ordinary(w0, before, keep, cap, exclude) && BaseTree(w0.base) && Covers(w0, changes)
  }

  ghost predicate DroppedSoFar(w0: World, w: World, changes: seq<Change>, upto: nat, dropped: set<Path>) {
    && upto <= |changes| && ReapInv(w0, dropped, w)
    && (forall d | d in w0.base && Deletes(changes[..upto], w0.base[d].link) :: d in dropped)
    && (forall d, q | d in dropped && q in RowsAt(w0.base, d) :: q in dropped)
  }

  lemma OrdinaryReapable(w: World, before: Scan, keep: Namer, cap: nat, exclude: seq<string>)
    requires Ordinary(w, before, keep, cap, exclude)
    ensures Reapable(w)
  {
    assert OrdinaryAt(w, before, keep, cap, exclude, "");
  }

  lemma DeleteStateStart(w0: World, before: Scan, keep: Namer, cap: nat, exclude: seq<string>, changes: seq<Change>)
    ensures DeleteState(w0, w0, before, keep, cap, exclude, changes, 0, true)
  {
    if Replayable(w0, before, keep, cap, exclude, changes) {
      ReapStart(w0);
      assert DroppedSoFar(w0, w0, changes, 0, {});
    }
  }

  lemma DeletesSplit(changes: seq<Change>, i: nat, link: Link)
    requires i < |changes|
    ensures Deletes(changes[..i + 1], link) <==> Deletes(changes[..i], link) || changes[i] == Removal(link)
    ensures Deletes(changes[..i + 1], link) ==> Deletes(changes, link)
  {
    if Deletes(changes[..i], link) {
      var j :| 0 <= j < i && changes[..i][j] == Removal(link);
      assert changes[..i + 1][j] == Removal(link);
    }
    if changes[i] == Removal(link) {
      assert changes[..i + 1][i] == Removal(link);
    }
  }

  lemma DeleteFailed(w0: World, w: World, before: Scan, keep: Namer, cap: nat, exclude: seq<string>,
                     changes: seq<Change>, i: nat)
    ensures DeleteState(w0, w, before, keep, cap, exclude, changes, i, false)
  {
  }

  /** A change that deletes nothing that is tracked. */
  lemma DeleteNothing(w0: World, w: World, before: Scan, keep: Namer, cap: nat, exclude: seq<string>,
                      changes: seq<Change>, i: nat, clean: bool)
    requires i < |changes| && DeleteState(w0, w, before, keep, cap, exclude, changes, i, clean)
    requires changes[i].Removal? ==> forall p | p in w.base :: w.base[p].link != changes[i].link
    ensures DeleteState(w0, w, before, keep, cap, exclude, changes, i + 1, clean)
  {
    if clean && Replayable(w0, before, keep, cap, exclude, changes) {
      var dropped :| DroppedSoFar(w0, w, changes, i, dropped);
      forall d | d in w0.base && Deletes(changes[..i + 1], w0.base[d].link) ensures d in dropped {
        DeletesSplit(changes, i, w0.base[d].link);
        assert ReapAt(w0, dropped, w, d);
      }
      assert DroppedSoFar(w0, w, changes, i + 1, dropped);
    }
  }

  lemma DeleteOne(w0: World, w: World, w': World, before: Scan, keep: Namer, cap: nat, exclude: seq<string>,
                  changes: seq<Change>, i: nat, d: Path, clean: bool)
    requires i < |changes| && DeleteState(w0, w, before, keep, cap, exclude, changes, i, clean)
    requires d in w.base && changes[i] == Removal(w.base[d].link)
    requires Removed(w, w', d, w.base[d].isDir)
    ensures DeleteState(w0, w', before, keep, cap, exclude, changes, i + 1, clean)
  {
    if clean && Replayable(w0, before, keep, cap, exclude, changes) {
      var dropped :| DroppedSoFar(w0, w, changes, i, dropped);
      assert ReapAt(w0, dropped, w, d);
      DeletesSplit(changes, i, w0.base[d].link);
      assert CoversAt(w0, changes, d);
      OrdinaryReapable(w0, before, keep, cap, exclude);
      DeleteStep(w0, dropped, w, w', d);
      DroppedGrows(w0, w', changes, i, dropped, d);
    }
  }

  lemma DroppedGrows(w0: World, w': World, changes: seq<Change>, i: nat, dropped: set<Path>, d: Path)
    requires i < |changes| && d in w0.base && BaseTree(w0.base) && changes[i] == Removal(w0.base[d].link)
    requires ReapInv(w0, dropped + RowsAt(w0.base, d), w')
    requires forall c | c in w0.base && Deletes(changes[..i], w0.base[c].link) :: c in dropped
    requires forall c, q | c in dropped && q in RowsAt(w0.base, c) :: q in dropped
    ensures DroppedSoFar(w0, w', changes, i + 1, dropped + RowsAt(w0.base, d))
  {
    var dropped' := dropped + RowsAt(w0.base, d);
    forall c | c in w0.base && Deletes(changes[..i + 1], w0.base[c].link) ensures c in dropped' {
      DeletesSplit(changes, i, w0.base[c].link);
    }
    forall c, q | c in dropped' && q in RowsAt(w0.base, c) ensures q in dropped' {
      if c in RowsAt(w0.base, d) && q != c && c != d {
        UnderTransitive(q, c, d);
      }
    }
  }

  lemma AllDropped(w0: World, w: World, changes: seq<Change>, dropped: set<Path>)
    requires Covers(w0, changes) && DroppedSoFar(w0, w, changes, |changes|, dropped)
    ensures dropped == w0.base.Keys - w0.remote.Keys
  {
    assert changes[..|changes|] == changes;
    forall p | p in w0.base && p !in w0.remote ensures p in dropped {
      assert CoversAt(w0, changes, p);
      GoneIsDropped(w0, changes, dropped, p);
    }
  }

  lemma GoneIsDropped(w0: World, changes: seq<Change>, dropped: set<Path>, p: Path)
    requires p in w0.base && p !in w0.remote && CoversAt(w0, changes, p)
    requires forall d | d in w0.base && Deletes(changes, w0.base[d].link) :: d in dropped
    requires forall d, q | d in dropped && q in RowsAt(w0.base, d) :: q in dropped
    ensures p in dropped
  {
    var d :| d in w0.base && d !in w0.remote && AtOrUnder(p, d) && Deletes(changes, w0.base[d].link);
    assert p in RowsAt(w0.base, d);
  }

  /** After all deletions: exactly the rows that have no remote node are gone. */
  lemma DeletionsDone(w0: World, w: World, before: Scan, keep: Namer, cap: nat, exclude: seq<string>,
                      changes: seq<Change>)
    requires Replayable(w0, before, keep, cap, exclude, changes)
    requires DeleteState(w0, w, before, keep, cap, exclude, changes, |changes|, true)
    ensures ReapInv(w0, w0.base.Keys - w0.remote.Keys, w)
  {
    var dropped :| DroppedSoFar(w0, w, changes, |changes|, dropped);
    AllDropped(w0, w, changes, dropped);
  }

  lemma RelistBegins(w0: World, w: World, before: Scan, keep: Namer, cap: nat, exclude: seq<string>)
    requires Ordinary(w0, before, keep, cap, exclude)
    requires ReapInv(w0, w0.base.Keys - w0.remote.Keys, w)
    ensures Ordinary(w, Still(before, w.disk), keep, cap, exclude)
    ensures w.base.Keys <= w.remote.Keys
  {
    var dropped := w0.base.Keys - w0.remote.Keys;
    RelistStart(w0, before, keep, cap, exclude, dropped, w);
    forall p | p in w.base ensures p in w.remote {
      assert ReapAt(w0, dropped, w, p);
    }
  }

  /** The re-listings so far. `w1` is the state after the deletions. */
  ghost predicate RelistState(w1: World, w: World, before: Scan, keep: Namer, cap: nat, exclude: seq<string>,
                              done: set<Path>, clean: bool) {
    && w.remote == w1.remote
    && ExactState(w1, w, Still(before, w1.disk), keep, cap, exclude, done, clean)
  }

  /** A failure ends the claim, not the replay. */
  lemma RelistFailed(w1: World, w: World, before: Scan, keep: Namer, cap: nat, exclude: seq<string>,
                     done: set<Path>, clean: bool, clean': bool)
    requires RelistState(w1, w, before, keep, cap, exclude, done, clean) && (clean' ==> clean)
    ensures RelistState(w1, w, before, keep, cap, exclude, done, clean')
  {
  }

  lemma RelistInvFailed(w1: World, w: World, before: Scan, keep: Namer, cap: nat, exclude: seq<string>,
                        order: seq<Link>, done: set<Path>, clean: bool, clean': bool)
    requires RelistInv(w1, w, before, keep, cap, exclude, order, done, clean) && (clean' ==> clean)
    ensures RelistInv(w1, w, before, keep, cap, exclude, order, done, clean')
  {
  }

  lemma RelistUnclaimed(w1: World, w: World, w': World, before: Scan, keep: Namer, cap: nat, exclude: seq<string>,
                        done: set<Path>, clean: bool, done': set<Path>)
    requires RelistState(w1, w, before, keep, cap, exclude, done, clean) && w'.remote == w.remote
    ensures RelistState(w1, w', before, keep, cap, exclude, done', false)
  {
  }

  lemma RelistStep(w1: World, w: World, before: Scan, keep: Namer, cap: nat, exclude: seq<string>,
                   done: set<Path>, n: Node, o: Outcome, got: Path, clean: bool)
    requires RelistState(w1, w, before, keep, cap, exclude, done, clean)
    requires n.path in w.remote && n == NodeOf(w.remote, n.path) && n.path !in done
    requires Allowed(w, before, cap, n, o)
    requires o.Landed? ==> got in w.remote && w.remote[got].link == n.link && o.got == w.remote[got].content
    ensures RelistState(w1, Effect(w, n, keep(n.path), o), before, keep, cap, exclude,
                        done + {n.path}, clean && Succeeded(o))
  {
    var still := Still(before, w1.disk);
    if clean && Ordinary(w1, still, keep, cap, exclude) {
      assert PathInv(w1, still, keep, done, w, n.path);
      assert OrdinaryAt(w1, still, keep, cap, exclude, n.path);
      SameDecision(w1, still, keep, done, w, n.path);
      AllowedStill(w, before, w1.disk, cap, n, o);
      ExactStep(w1, w, still, keep, cap, exclude, done, n, o, got, clean);
    }
  }

  /** While the replay is exact, rows and remote nodes agree on links and parents. */
  lemma RelistRow(w1: World, w: World, before: Scan, keep: Namer, cap: nat, exclude: seq<string>,
                  done: set<Path>, p: Path)
    requires Ordinary(w1, before, keep, cap, exclude) && w1.base.Keys <= w1.remote.Keys
    requires WalkInv(w1, before, keep, done, w) && p in w.base
    ensures p in w.remote && w.base[p].link == w.remote[p].link
            && w.base[p].parent == w.remote[p].parent && w.base[p].isDir == w.remote[p].isDir
  {
    assert PathInv(w1, before, keep, done, w, p);
    assert OrdinaryAt(w1, before, keep, cap, exclude, p);
  }

  // ----- what re-listing folders in some order reaches

  /** The folder with this link has a row, if the rows are those of these nodes. */
  predicate KnownFolder(remote: Account, rows: set<Path>, link: Link) {
    link == ROOT_LINK || exists q :: q in rows && q in remote && remote[q].link == link
  }

  /** The nodes that are applied when folders are re-listed in this order, starting from the
  rows of these nodes: a folder without a row is passed over. */
  function Heard(remote: Account, rows: set<Path>, order: seq<Link>): set<Path> {
    if order == [] then {}
    else
      var h, link := Heard(remote, rows, order[..|order| - 1]), order[|order| - 1];
      if KnownFolder(remote, rows + h, link) then h + Children(remote, link) else h
  }

  /** The rows whose nodes are still there. */
  function Remaining(w: World): set<Path> { w.base.Keys * w.remote.Keys }

  /** Once the deletions are done, re-listing in this order leaves no node without a row. */
  predicate Reaches(w: World, order: seq<Link>) {
    w.remote.Keys <= Remaining(w) + Heard(w.remote, Remaining(w), order)
  }

  lemma HeardMore(remote: Account, rows: set<Path>, order: seq<Link>, link: Link)
    ensures Heard(remote, rows, order + [link])
            == Heard(remote, rows, order)
               + if KnownFolder(remote, rows + Heard(remote, rows, order), link) then Children(remote, link) else {}
  {
    assert (order + [link])[..|order|] == order;
  }

  lemma {:induction false} HeardWasListed(remote: Account, rows: set<Path>, order: seq<Link>, p: Path)
    requires p in Heard(remote, rows, order)
    ensures p in remote && remote[p].parent in order
    decreases |order|
  {
    var init := order[..|order| - 1];
    if p in Heard(remote, rows, init) { HeardWasListed(remote, rows, init, p); }
  }

  /** What was reached stays reached. */
  lemma {:induction false} HeardGrows(remote: Account, rows: set<Path>, order: seq<Link>, i: nat)
    requires i <= |order|
    ensures Heard(remote, rows, order[..i]) <= Heard(remote, rows, order)
    decreases |order|
  {
    if i < |order| {
      assert order[..|order| - 1][..i] == order[..i];
      HeardGrows(remote, rows, order[..|order| - 1], i);
    } else {
      assert order[..i] == order;
    }
  }

  /** A folder that is known at its turn has its children applied. */
  lemma HeardAtTurn(remote: Account, rows: set<Path>, order: seq<Link>, i: nat, p: Path)
    requires i < |order| && p in remote && remote[p].parent == order[i]
    requires KnownFolder(remote, rows + Heard(remote, rows, order[..i]), order[i])
    ensures p in Heard(remote, rows, order)
  {
    assert order[..i + 1] == order[..i] + [order[i]];
    HeardMore(remote, rows, order[..i], order[i]);
    HeardGrows(remote, rows, order, i + 1);
  }

  /** The replay after re-listing folders in this order. */
  ghost predicate RelistInv(w1: World, w: World, before: Scan, keep: Namer, cap: nat, exclude: seq<string>,
                            order: seq<Link>, done: set<Path>, clean: bool) {
    && RelistState(w1, w, before, keep, cap, exclude, done, clean)
    && (clean ==> done == Heard(w1.remote, w1.base.Keys, order))
  }

  /** Where the re-listings start, if the deletions were exact. */
  ghost predicate Relistable(w1: World, before: Scan, keep: Namer, cap: nat, exclude: seq<string>) {
    Ordinary(w1, Still(before, w1.disk), keep, cap, exclude) && w1.base.Keys <= w1.remote.Keys
  }

  lemma RelistStarts(w1: World, before: Scan, keep: Namer, cap: nat, exclude: seq<string>, clean: bool)
    ensures RelistInv(w1, w1, before, keep, cap, exclude, [], Members<Path>([]), clean)
  {
    ExactStart(w1, Still(before, w1.disk), keep, cap, exclude);
    assert Members<Path>([]) == {};
  }

  /** The folder that a child's parent link names is the one it lies in. */
  lemma ChildIn(remote: Account, link: Link, dir: Path, c: Path)
    requires AccountTree(remote) && c in remote && ValidPath(c)
    requires remote[c].parent == link && FolderAt(remote, link, dir)
    ensures ParentOf(c) == dir && Join(dir, BaseName(c)) == c
  {
    ValidStart(c);
    if dir != "" { NodeIsNamed(remote, dir); }
    if ParentOf(c) != "" { NodeIsNamed(remote, ParentOf(c)); }
    JoinSplit(c);
  }

  /** In an exact replay, the row found for a link is that of the folder itself. */
  lemma PrefixIsFolder(w1: World, w: World, before: Scan, keep: Namer, cap: nat, exclude: seq<string>,
                       done: set<Path>, link: Link, prefix: Path, c: Path)
    requires Relistable(w1, before, keep, cap, exclude)
    requires RelistState(w1, w, before, keep, cap, exclude, done, true)
    requires if link == ROOT_LINK then prefix == "" else prefix in w.base && w.base[prefix].link == link
    requires c in Children(w.remote, link)
    ensures ParentOf(c) == prefix && Join(prefix, BaseName(c)) == c
  {
    assert OrdinaryAt(w1, Still(before, w1.disk), keep, cap, exclude, c);
    if link != ROOT_LINK {
      RelistRow(w1, w, Still(before, w1.disk), keep, cap, exclude, done, prefix);
      assert ParentOf(c) == prefix;
    }
    ChildIn(w.remote, link, prefix, c);
  }

  /** In an exact replay the rows are those of the tracked nodes and of the applied ones. */
  lemma RowsSoFar(w1: World, w: World, before: Scan, keep: Namer, cap: nat, exclude: seq<string>, done: set<Path>)
    requires Relistable(w1, before, keep, cap, exclude)
    requires RelistState(w1, w, before, keep, cap, exclude, done, true)
    ensures w.base.Keys == w1.base.Keys + done && done <= w.remote.Keys
    ensures forall p | p in w.base :: p in w.remote && w.base[p].link == w.remote[p].link
  {
    var still := Still(before, w1.disk);
    forall p ensures p in w.base <==> p in w1.base.Keys + done { assert PathInv(w1, still, keep, done, w, p); }
    forall p | p in w.base ensures p in w.remote && w.base[p].link == w.remote[p].link {
      RelistRow(w1, w, still, keep, cap, exclude, done, p);
    }
  }

  /** A folder without a row is passed over. */
  lemma RelistUnknown(w1: World, w: World, before: Scan, keep: Namer, cap: nat, exclude: seq<string>,
                      order: seq<Link>, done: set<Path>, link: Link)
    requires Relistable(w1, before, keep, cap, exclude)
    requires RelistInv(w1, w, before, keep, cap, exclude, order, done, true)
    requires link != ROOT_LINK && forall p | p in w.base :: w.base[p].link != link
    ensures done == Heard(w1.remote, w1.base.Keys, order + [link])
  {
    RowsSoFar(w1, w, before, keep, cap, exclude, done);
    HeardMore(w1.remote, w1.base.Keys, order, link);
  }

  /** A child as a listing of the folder at `prefix` reports it. */
  function ChildNode(prefix: Path, q: Path, r: Remote): Node {
    Node(Join(prefix, BaseName(q)), r.link, r.parent, r.isDir, r.size, r.modified, r.digest)
  }

  /** A re-listing meets each child where the account has it, and for the first time. */
  lemma ChildrenAreNew(w1: World, w: World, before: Scan, keep: Namer, cap: nat, exclude: seq<string>,
                       order: seq<Link>, done: set<Path>, link: Link, prefix: Path)
    requires Relistable(w1, before, keep, cap, exclude) && link !in order
    requires RelistInv(w1, w, before, keep, cap, exclude, order, done, true)
    requires if link == ROOT_LINK then prefix == "" else prefix in w.base && w.base[prefix].link == link
    ensures w.remote == w1.remote
    ensures forall q | q in Children(w.remote, link) ::
              q !in done && NodeOf(w.remote, q) == ChildNode(prefix, q, w.remote[q])
  {
    forall q | q in Children(w.remote, link)
      ensures q !in done && NodeOf(w.remote, q) == ChildNode(prefix, q, w.remote[q])
    {
      PrefixIsFolder(w1, w, before, keep, cap, exclude, done, link, prefix, q);
      if q in done { HeardWasListed(w1.remote, w1.base.Keys, order, q); }
    }
  }

  /** The re-listing of a known folder applied its children and nothing else. */
  lemma RelistGrows(w1: World, w: World, before: Scan, keep: Namer, cap: nat, exclude: seq<string>,
                    order: seq<Link>, done: set<Path>, done': set<Path>, link: Link, prefix: Path)
    requires Relistable(w1, before, keep, cap, exclude)
    requires RelistInv(w1, w, before, keep, cap, exclude, order, done, true)
    requires if link == ROOT_LINK then prefix == "" else prefix in w.base && w.base[prefix].link == link
    requires done' == done + Children(w.remote, link)
    ensures done' == Heard(w1.remote, w1.base.Keys, order + [link])
  {
    RowsSoFar(w1, w, before, keep, cap, exclude, done);
    HeardMore(w1.remote, w1.base.Keys, order, link);
  }

  /** Then nothing the folder holds in the baseline is stale. */
  lemma NothingStale(w1: World, w: World, before: Scan, keep: Namer, cap: nat, exclude: seq<string>,
                     done: set<Path>, link: Link)
    requires Relistable(w1, before, keep, cap, exclude)
    requires RelistState(w1, w, before, keep, cap, exclude, done, true)
    ensures w.remote == w1.remote && Unlisted(w.base, link, Children(w1.remote, link)) == {}
  {
    forall p | p in w.base ensures p in Children(w.remote, w.base[p].parent) {
      RelistRow(w1, w, Still(before, w1.disk), keep, cap, exclude, done, p);
    }
  }

  /** The three cases of one re-listing. An unknown folder: */
  lemma RelistPassesOver(w1: World, w: World, before: Scan, keep: Namer, cap: nat, exclude: seq<string>,
                         order: seq<Link>, done: set<Path>, link: Link, clean: bool)
    requires RelistInv(w1, w, before, keep, cap, exclude, order, done, clean)
    requires clean ==> Relistable(w1, before, keep, cap, exclude)
    requires link != ROOT_LINK && forall p | p in w.base :: w.base[p].link != link
    ensures RelistInv(w1, w, before, keep, cap, exclude, order + [link], done, clean)
  {
    if clean { RelistUnknown(w1, w, before, keep, cap, exclude, order, done, link); }
  }

  /** A known one, before: */
  lemma RelistTakesUp(w1: World, w: World, before: Scan, keep: Namer, cap: nat, exclude: seq<string>,
                      order: seq<Link>, done: set<Path>, link: Link, prefix: Path, clean: bool)
    requires RelistInv(w1, w, before, keep, cap, exclude, order, done, clean) && link !in order
    requires clean ==> Relistable(w1, before, keep, cap, exclude)
    requires if link == ROOT_LINK then prefix == "" else prefix in w.base && w.base[prefix].link == link
    ensures RelistState(w1, w, before, keep, cap, exclude, done, clean)
    ensures clean ==> forall q | q in Children(w.remote, link) ::
              q !in done && NodeOf(w.remote, q) == ChildNode(prefix, q, w.remote[q])
  {
    if clean { ChildrenAreNew(w1, w, before, keep, cap, exclude, order, done, link, prefix); }
  }

  /** And after. `mid` is the state before its stale rows went. */
  lemma RelistEnds(w1: World, w: World, mid: World, w': World, before: Scan, keep: Namer, cap: nat,
                   exclude: seq<string>, order: seq<Link>, done: set<Path>, done': set<Path>, link: Link, prefix: Path,
                   clean: bool, fine: bool)
    requires RelistInv(w1, w, before, keep, cap, exclude, order, done, clean) && w'.remote == w.remote
    requires clean ==> Relistable(w1, before, keep, cap, exclude)
    requires if link == ROOT_LINK then prefix == "" else prefix in w.base && w.base[prefix].link == link
    requires fine ==> clean && RelistState(w1, mid, before, keep, cap, exclude, done', true)
                      && done' == done + Children(w.remote, link)
                      && Swept(mid, w', Unlisted(mid.base, link, Children(w.remote, link)))
    ensures RelistInv(w1, w', before, keep, cap, exclude, order + [link], done', fine)
  {
    hide Relistable, Ordinary, ExactState, Droppable;
    if fine {
      NothingStale(w1, mid, before, keep, cap, exclude, done', link);
      RelistGrows(w1, w, before, keep, cap, exclude, order, done, done', link, prefix);
    }
    RelistUnclaimed(w1, w, w', before, keep, cap, exclude, done, clean, done');
  }

  lemma RelistableAfterDeletions(w0: World, w1: World, before: Scan, keep: Namer, cap: nat, exclude: seq<string>,
                                 changes: seq<Change>)
    requires Replayable(w0, before, keep, cap, exclude, changes)
    requires DeleteState(w0, w1, before, keep, cap, exclude, changes, |changes|, true)
    ensures Relistable(w1, before, keep, cap, exclude)
  {
    DeletionsDone(w0, w1, before, keep, cap, exclude, changes);
    RelistBegins(w0, w1, before, keep, cap, exclude);
  }

  /** Re-listing the announced folders finishes the pull if and only if their order lets every
  node be reached. */
  lemma ReplayFinished(w0: World, w1: World, w: World, before: Scan, keep: Namer, cap: nat, exclude: seq<string>,
                       changes: seq<Change>, order: seq<Link>, done: set<Path>)
    requires Replayable(w0, before, keep, cap, exclude, changes)
    requires DeleteState(w0, w1, before, keep, cap, exclude, changes, |changes|, true)
    requires forall link | Announces(changes, w0.remote, link) :: link in order
    requires RelistInv(w1, w, before, keep, cap, exclude, order, done, true)
    ensures Pulled(w0, before, keep, w) <==> Reaches(w0, order)
    ensures ParentsMet(w0) ==> Reaches(w0, order)
  {
    if ParentsMet(w0) { MetReaches(w0, changes, order); }
    DeletionsDone(w0, w1, before, keep, cap, exclude, changes);
    RelistBegins(w0, w1, before, keep, cap, exclude);
    RowsAfterDeletions(w0, w1);
    if Reaches(w0, order) {
      ReplayReached(w0, w1, w, before, keep, cap, exclude, changes, order, done);
    }
    if Pulled(w0, before, keep, w) {
      RowsSoFar(w1, w, before, keep, cap, exclude, done);
      forall p | p in w0.remote ensures p in Remaining(w0) + done { assert PulledAt(w0, before, keep, w, p); }
    }
  }

  lemma RowsAfterDeletions(w0: World, w1: World)
    requires ReapInv(w0, w0.base.Keys - w0.remote.Keys, w1)
    ensures w1.base.Keys == Remaining(w0) && w1.remote == w0.remote
  {
    forall p ensures p in w1.base <==> p in Remaining(w0) {
      assert ReapAt(w0, w0.base.Keys - w0.remote.Keys, w1, p);
    }
  }

  lemma ReplayReached(w0: World, w1: World, w: World, before: Scan, keep: Namer, cap: nat, exclude: seq<string>,
                      changes: seq<Change>, order: seq<Link>, done: set<Path>)
    requires Replayable(w0, before, keep, cap, exclude, changes)
    requires ReapInv(w0, w0.base.Keys - w0.remote.Keys, w1) && w1.base.Keys == Remaining(w0)
    requires Ordinary(w1, Still(before, w1.disk), keep, cap, exclude)
    requires forall link | Announces(changes, w0.remote, link) :: link in order
    requires RelistInv(w1, w, before, keep, cap, exclude, order, done, true)
    requires Reaches(w0, order)
    ensures Pulled(w0, before, keep, w)
  {
    forall p | p in w1.remote && p !in done
      ensures p in w1.base && (w1.remote[p].isDir || w1.base[p].hash == w1.remote[p].digest)
      ensures w1.remote[p].isDir ==> w1.base[p] == DirRow(w1.remote[p].link, w1.remote[p].parent)
      ensures !w1.remote[p].isDir ==> w1.base[p].hash.Sum?
    {
      if Announces(changes, w0.remote, w0.remote[p].parent) {
        RowsHaveParents(w0, p);
        HeardIfKnown(w0.remote, Remaining(w0), order, p);
      }
      Unannounced(w0, w1, before, keep, cap, exclude, changes, p);
    }
    UnlistedAll(w1, Still(before, w1.disk), keep, done, w);
    ReplayDone(w0, before, keep, cap, exclude, w0.base.Keys - w0.remote.Keys, w1, w);
  }

  /** The folder of a tracked node that is still there is tracked and still there. */
  lemma RowsHaveParents(w: World, p: Path)
    requires BaseTree(w.base) && AccountTree(w.remote) && p in Remaining(w)
    ensures KnownFolder(w.remote, Remaining(w), w.remote[p].parent)
  {
    assert ParentOf(p) != "" ==> ParentOf(p) in w.base && ParentOf(p) in w.remote;
  }

  /** A folder that is known from the start has its children applied in every order. */
  lemma HeardIfKnown(remote: Account, rows: set<Path>, order: seq<Link>, p: Path)
    requires p in remote && remote[p].parent in order && KnownFolder(remote, rows, remote[p].parent)
    ensures p in Heard(remote, rows, order)
  {
    var i :| 0 <= i < |order| && order[i] == remote[p].parent;
    HeardAtTurn(remote, rows, order, i, p);
  }

  /** A node in a folder that was not announced is as the baseline has it. */
  lemma Unannounced(w0: World, w1: World, before: Scan, keep: Namer, cap: nat, exclude: seq<string>,
                    changes: seq<Change>, p: Path)
    requires Replayable(w0, before, keep, cap, exclude, changes)
    requires ReapInv(w0, w0.base.Keys - w0.remote.Keys, w1)
    requires p in w0.remote && !Announces(changes, w0.remote, w0.remote[p].parent)
    ensures p in w1.base && (w1.remote[p].isDir || w1.base[p].hash == w1.remote[p].digest)
    ensures w1.remote[p].isDir ==> w1.base[p] == DirRow(w1.remote[p].link, w1.remote[p].parent)
    ensures !w1.remote[p].isDir ==> w1.base[p].hash.Sum?
  {
    assert CoversAt(w0, changes, p);
    assert OrdinaryAt(w0, before, keep, cap, exclude, p);
    assert ReapAt(w0, w0.base.Keys - w0.remote.Keys, w1, p);
  }

  lemma ReplayableTree(w: World, before: Scan, keep: Namer, cap: nat, exclude: seq<string>, changes: seq<Change>)
    ensures Replayable(w, before, keep, cap, exclude, changes) ==> AccountTree(w.remote)
  {
  }

  // ----- the order of the re-listings

  /** Nothing lies in a folder without a row: every node's folder is the root or tracked. */
  predicate ParentsMet(w: World) {
    forall p | p in w.remote :: ParentOf(p) == "" || ParentOf(p) in w.base
  }

  /** This is an order in which the folders of `dirs` may be re-listed. */
  predicate OrderOf(order: seq<Link>, dirs: set<Link>) { NoRepeats(order) && Members(order) == dirs }

  lemma NothingRelisted(dirs: set<Link>)
    ensures OrderOf([], dirs - dirs)
  {
  }

  lemma OneMoreRelisted(order: seq<Link>, dirs: set<Link>, todo: set<Link>, link: Link)
    requires OrderOf(order, dirs - todo) && link in todo && todo <= dirs
    ensures OrderOf(order + [link], dirs - (todo - {link})) && link !in order
  {
    assert forall x | x in order :: x in Members(order);
    assert Members(order + [link]) == Members(order) + {link};
  }

  /** When nothing lies in a folder without a row, every order will do. */
  lemma MetReaches(w: World, changes: seq<Change>, order: seq<Link>)
    requires AccountTree(w.remote) && BaseTree(w.base) && Covers(w, changes) && ParentsMet(w)
    requires forall link | Announces(changes, w.remote, link) :: link in order
    ensures Reaches(w, order)
  {
    forall p | p in w.remote && p !in Remaining(w) ensures p in Heard(w.remote, Remaining(w), order) {
      assert CoversAt(w, changes, p);
      assert ParentOf(p) != "" ==> ParentOf(p) in Remaining(w);
      HeardIfKnown(w.remote, Remaining(w), order, p);
    }
  }

  /** A replay of a complete delta reaches every node in every order if and only if nothing
  lies in a folder without a row. */
  lemma EveryOrderReaches(w: World, changes: seq<Change>, dirs: set<Link>)
    requires AccountTree(w.remote) && BaseTree(w.base) && Covers(w, changes)
    requires forall link | Announces(changes, w.remote, link) :: link in dirs
    ensures (forall order | OrderOf(order, dirs) :: Reaches(w, order)) <==> ParentsMet(w)
  {
    if ParentsMet(w) {
      forall order | OrderOf(order, dirs) ensures Reaches(w, order) {
        MetReaches(w, changes, order);
      }
    }
    if p :| p in w.remote && ParentOf(p) != "" && ParentOf(p) !in w.base {
      assert p !in w.base && CoversAt(w, changes, p);
      var order := OrderWithFirst(dirs, w.remote[p].parent);
      ChildFirstMisses(w, order, p);
    }
  }

  lemma {:induction false} OrderExists(dirs: set<Link>) returns (order: seq<Link>)
    ensures OrderOf(order, dirs)
    decreases |dirs|
  {
    if dirs == {} {
      order := [];
    } else {
      var x :| x in dirs;
      var rest := OrderExists(dirs - {x});
      order := [x] + rest;
      assert forall i | 0 <= i < |rest| :: rest[i] in Members(rest);
      assert Members(order) == {x} + Members(rest);
    }
  }

  lemma OrderWithFirst(dirs: set<Link>, x: Link) returns (order: seq<Link>)
    requires x in dirs
    ensures OrderOf(order, dirs) && order != [] && order[0] == x
  {
    var rest := OrderExists(dirs - {x});
    order := [x] + rest;
    assert forall i | 0 <= i < |rest| :: rest[i] in Members(rest);
    assert Members(order) == {x} + Members(rest);
  }

  /** If a folder without a row has its turn first, what lies in it is never reached. */
  lemma ChildFirstMisses(w: World, order: seq<Link>, p: Path)
    requires AccountTree(w.remote) && p in w.remote && p !in w.base && ParentOf(p) != "" && ParentOf(p) !in w.base
    requires NoRepeats(order) && order != [] && order[0] == w.remote[p].parent
    ensures !Reaches(w, order)
  {
    var d := ParentOf(p);
    NodeIsNamed(w.remote, d);
    assert !KnownFolder(w.remote, Remaining(w), order[0]);
    NeverHeard(w.remote, Remaining(w), order, p);
  }

  lemma {:induction false} NeverHeard(remote: Account, rows: set<Path>, order: seq<Link>, p: Path)
    requires NoRepeats(order) && order != [] && p in remote && order[0] == remote[p].parent
    requires !KnownFolder(remote, rows, order[0])
    ensures p !in Heard(remote, rows, order)
    decreases |order|
  {
    var init := order[..|order| - 1];
    if init == [] {
      assert rows + Heard(remote, rows, init) == rows;
    } else {
      NeverHeard(remote, rows, init, p);
    }
  }

  /** Folders are re-listed after the folder they lie in, if that is re-listed at all. */
  predicate ParentsFirst(remote: Account, order: seq<Link>) {
    forall i, q | 0 <= i < |order| && q in remote && remote[q].link == order[i] ::
      remote[q].parent !in order[i + 1..]
  }

  /** From the top down every node is reached, whatever has a row. */
  lemma TopDownReaches(w: World, changes: seq<Change>, order: seq<Link>)
    requires AccountTree(w.remote) && BaseTree(w.base) && Covers(w, changes) && ParentsFirst(w.remote, order)
    requires forall link | Announces(changes, w.remote, link) :: link in order
    ensures Reaches(w, order)
  {
    forall p | p in w.remote && p !in Remaining(w) ensures p in Heard(w.remote, Remaining(w), order) {
      assert CoversAt(w, changes, p);
      var i :| 0 <= i < |order| && order[i] == w.remote[p].parent;
      TopDownHeard(w, changes, order, i, p);
      HeardGrows(w.remote, Remaining(w), order, i + 1);
    }
  }

  lemma {:induction false} TopDownHeard(w: World, changes: seq<Change>, order: seq<Link>, i: nat, p: Path)
    requires AccountTree(w.remote) && BaseTree(w.base) && Covers(w, changes) && ParentsFirst(w.remote, order)
    requires forall link | Announces(changes, w.remote, link) :: link in order
    requires p in w.remote && i < |order| && order[i] == w.remote[p].parent
    ensures p in Heard(w.remote, Remaining(w), order[..i + 1])
    decreases |p|
  {
    var d, rows := ParentOf(p), Remaining(w);
    NodeIsNamed(w.remote, p);
    assert order[..i + 1][..i] == order[..i];
    if d != "" && d !in w.base {
      assert CoversAt(w, changes, d);
      var j :| 0 <= j < |order| && order[j] == w.remote[d].parent;
      NodeIsNamed(w.remote, d);
      assert j <= i;
      assert j != i by { OtherFolder(w.remote, p); }
      TopDownHeard(w, changes, order, j, d);
      assert order[..i][..j + 1] == order[..j + 1];
      HeardGrows(w.remote, rows, order[..i], j + 1);
    }
    HeardAtTurn(w.remote, rows, order[..i + 1], i, p);
  }

  /** A node and its folder do not lie in the same folder. */
  lemma OtherFolder(remote: Account, p: Path)
    requires AccountTree(remote) && p in remote && ParentOf(p) != ""
    ensures remote[ParentOf(p)].parent != remote[p].parent
  {
    var d := ParentOf(p);
    NodeIsNamed(remote, d);
    if ParentOf(d) != "" { NodeIsNamed(remote, ParentOf(d)); }
  }
}
