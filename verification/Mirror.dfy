/** The two-way sync engine (internal/mirror: mirror.go, conflict.go, push.go). */
module Sync {
  import opened Types
  import opened Paths
  import opened Names
  import opened SubtreePattern
  import opened Guards
  import opened World
  import opened Survival
  import opened PullExact
  import opened EventReplay
  import opened Runs
  import opened Claims
  import opened Repeats
  import opened Passes
  import opened FolderRefresh
  import opened PushSteps
  import opened MoveDetection
  import opened PushRun
  import opened RowLinks
  import opened Steadiness
  import opened PushJob
  import opened Deletions
  import opened Local
  import opened State
  import opened Remotes

  datatype Config = Config(cap: nat, guardPercent: int, exclude: seq<string>, host: string)

  class Mirror {
    const folder: LocalFolder
    const db: StateDB
    const d: Source
    const cfg: Config

    /** The scan taken before the pull. */
    var localBefore: Scan
    /** Local paths accounted for as the destination of a move. */
    var moveTargets: set<Path>
    /** Names the conflict copies of the current pass. */
    var keep: Namer
    /** Conflict copies made by the current pass: path and copy. */
    var conflicts: Conflicts
    /** Warnings given so far; every step that fails gives one. */
    var warnings: nat
    /** The paths applied, and the folders re-listed, by the current pull. */
    ghost var applied: seq<Path>
    ghost var relisted: seq<Link>
    /** The steps of the current pull, the state it started from and the changes it replays. */
    ghost var log: seq<Move>
    ghost var start: World
    ghost var replayed: seq<Change>
    /** The moves of the current push that the account has granted. */
    ghost var granted: set<Path>
    /** Steps that stopped half-way, and scans before a push that left an entry out, over all
    passes; and how many there were when the pull began. */
    ghost var faults: nat
    ghost var floor: nat

    constructor (folder: LocalFolder, db: StateDB, d: Source, cfg: Config)
      ensures this.folder == folder && this.db == db && this.d == d && this.cfg == cfg
      ensures localBefore == map[] && moveTargets == {} && conflicts == multiset{} && warnings == 0 && faults == 0
    {
      this.folder, this.db, this.d, this.cfg := folder, db, d, cfg;
      localBefore, moveTargets, conflicts, warnings, faults := map[], {}, multiset{}, 0, 0;
      keep := p => ConflictName(p, "", cfg.host);
    }

    function View(): World
      reads folder, db`nodes, d`nodes, this`conflicts
    {
      World(folder.disk, folder.stubs, db.nodes, d.nodes, folder.trash, conflicts)
    }

    /** The steps taken so far lead here from the start of the pull. */
    ghost predicate Tracked()
      reads this`log, this`start, this`replayed, this`localBefore, this`keep, this`conflicts, folder, db`nodes, d`nodes
      reads this`faults, this`floor, this`applied
    {
      && Apart(start, View(), applied)
      && Run(Context(localBefore, keep, cfg.cap, replayed), start, log) && EndOf(start, log) == View()
      && floor <= faults && (faults == floor ==> Sound(log))
    }

    lemma TrackedIsApart()
      requires Tracked()
      ensures Apart(start, View(), applied)
    {
    }

    /** Keep track of one step, or of several at once that cannot be told apart. */
    ghost method Track(m: Move)
      requires Run(Context(localBefore, keep, cfg.cap, replayed), start, log) && m.after == View()
      requires Apart(start, View(), applied)
      requires floor <= faults && (faults == floor ==> Sound(log))
      requires StepOk(Context(localBefore, keep, cfg.cap, replayed), EndOf(start, log), m, Sound(log), Whole(log))
      modifies this`log, this`faults
      ensures Tracked() && log == old(log) + [m] && faults >= old(faults)
    {
      RunMore(Context(localBefore, keep, cfg.cap, replayed), start, log, m);
      SoundMore(log, m);
      log := log + [m];
      faults := if m.Faulted? then faults + 1 else faults;
    }

    // ----- conflict.go

    /** Before a file is replaced: if it differs from the baseline and from what is
    arriving, it is renamed aside. `ok` is false when it could not be secured. */
    method PreserveLocalIfConflicting(p: Path, incoming: Content) returns (ok: bool, kept: bool)
      modifies this`conflicts, this`warnings, folder`disk
      ensures warnings >= old(warnings)
      ensures kept ==> ok && !IsDir(old(folder.disk), keep(p))
      ensures ok ==> (kept <==> MustKeep(old(View()), localBefore, p, incoming))
      ensures folder.disk == Aside(old(folder.disk), p, keep(p), kept)
      ensures conflicts == Recorded(old(conflicts), p, keep(p), kept)
    {
      if p !in localBefore || localBefore[p].isDir {
        return true, false;
      }
      var h := localBefore[p].hash;
      if h.Unknown? {
        if p !in folder.disk {
          return true, false;
        }
        var hashed;
        hashed, h := folder.HashFile(p);
        if !hashed {
          return false, false;
        }
      }
      var base := db.GetNode(p);
      if base.Some? && base.value.hash.Sum? && h == base.value.hash {
        return true, false;
      }
      if h == Sum(incoming) {
        return true, false;
      }
      if p !in folder.disk {
        return true, false;
      }
      if folder.disk[p].Dir? {
        return false, false;
      }
      kept := folder.RenameAside(p, keep(p));
      ok := kept;
      if kept {
        conflicts := conflicts + multiset{(p, keep(p))};
        if * {
          warnings := warnings + 1; // the copy is safe, but could not be logged
        }
      }
    }

    // ----- mirror.go

    /** Leave a placeholder for a file over the size cap. */
    method WriteStubFor(n: Node) returns (o: Outcome)
      requires !n.isDir && WantStub(n, cfg.cap)
      modifies folder, db
      ensures Allowed(old(View()), localBefore, cfg.cap, n, o) && (o.Skipped? || o.Failed? || o.Stubbed?)
      ensures View() == Effect(old(View()), n, keep(n.path), o)
      ensures db.cursor == old(db.cursor)
    {
      if IsFile(folder.disk, n.path) {
        return Skipped;
      }
      var ok, parents := folder.WriteStub(n.path);
      if !ok {
        return Failed(parents);
      }
      var recorded := db.PutNode(n.path, StubRow(n));
      o := Stubbed(recorded);
    }

    /** Creating the folders above a file does not change what has to be kept. */
    static lemma StagingDecidesNothing(w: World, w1: World, before: Scan, p: Path, got: Content)
      requires w1 == w.(disk := WithDirs(w.disk, ParentOf(p)))
      ensures MustKeep(w1, before, p, got) == MustKeep(w, before, p, got)
      ensures MustKeep(w, before, p, got) ==> IsFile(w1.disk, p)
    {
      assert IsFile(w1.disk, p) <==> IsFile(w.disk, p);
    }

    /** Download a file and put it in place. */
    method FetchFile(n: Node) returns (o: Outcome, ghost got: Path)
      requires !n.isDir && !WantStub(n, cfg.cap) && !SameAsBase(db.nodes, n) && !AlreadyThere(View(), n)
      modifies this`conflicts, this`warnings, folder, db
      ensures warnings >= old(warnings)
      ensures Allowed(old(View()), localBefore, cfg.cap, n, o) && !o.Skipped?
      ensures (o.Landed? || o.NotCommitted?) && o.kept ==> !IsDir(old(folder.disk), keep(n.path))
      ensures View() == Effect(old(View()), n, keep(n.path), o)
      ensures o.Landed? || o.NotCommitted? ==>
                got in d.nodes && d.nodes[got].link == n.link && o.got == d.nodes[got].content
      ensures db.cursor == old(db.cursor)
    {
      var fetched, content, at := d.Download(n.link);
      got := at;
      if !fetched {
        return Failed(false), got;
      }
      var staged, parents := folder.StageDownload(n.path);
      if !staged {
        return Failed(parents), got;
      }
      if n.digest.Sum? && Sum(content) != n.digest {
        warnings := warnings + 1;
      }
      o := ReplaceWith(n, content, old(View()));
    }

    /** Put a staged download in place of what is there, which is moved aside first if it has
    to be kept. */
    method ReplaceWith(n: Node, content: Content, ghost w: World) returns (o: Outcome)
      requires Arrives(w, cfg.cap, n) && View() == w.(disk := WithDirs(w.disk, ParentOf(n.path)))
      modifies this`conflicts, this`warnings, folder, db
      ensures warnings >= old(warnings)
      ensures Allowed(w, localBefore, cfg.cap, n, o) && (o == Failed(true) || o.NotCommitted? || o.Landed?)
      ensures (o.Landed? || o.NotCommitted?) && o.kept ==> !IsDir(old(folder.disk), keep(n.path))
      ensures View() == Effect(w, n, keep(n.path), o)
      ensures o.Landed? || o.NotCommitted? ==> o.got == content
      ensures db.cursor == old(db.cursor)
    {
      hide Effect, WithDirs, Aside, Recorded;
      StagingDecidesNothing(w, View(), localBefore, n.path, content);
      var safe, kept := PreserveLocalIfConflicting(n.path, content);
      if !safe {
        NotSecured(w, localBefore, cfg.cap, n, keep(n.path));
        return Failed(true);
      }
      folder.RemoveStub(n.path);
      var committed, entry := folder.CommitStaged(n.path, content, n.modified);
      if !committed {
        NotInPlace(w, localBefore, cfg.cap, n, keep(n.path), content, kept);
        return NotCommitted(content, kept);
      }
      var recorded := false;
      if * {
        // the new file could not be examined
      } else {
        recorded := db.PutNode(n.path, FileRow(n, content, entry.mtime, entry.inode));
      }
      InPlace(w, localBefore, cfg.cap, n, keep(n.path), content, kept, recorded, entry.mtime, entry.inode);
      o := Landed(content, kept, recorded, entry.mtime, entry.inode);
    }

    /** Make one remote node true locally. */
    method ApplyNode(n: Node) returns (o: Outcome, ghost got: Path)
      requires Tree(folder.disk) && n.path != "" && Naming(keep)
      modifies this`conflicts, this`warnings, this`applied, folder, db
      ensures Tree(folder.disk)
      ensures Allowed(old(View()), localBefore, cfg.cap, n, o)
      ensures View() == Effect(old(View()), n, keep(n.path), o)
      ensures o.Landed? || o.NotCommitted? ==>
                got in d.nodes && d.nodes[got].link == n.link && o.got == d.nodes[got].content
      ensures warnings >= old(warnings) && applied == old(applied) + [n.path]
      ensures db.cursor == old(db.cursor)
    {
      got := "";
      ghost var w := View();
      applied := applied + [n.path];
      if n.isDir {
        o := ApplyDir(n);
      } else if WantStub(n, cfg.cap) {
        o := WriteStubFor(n);
      } else if NothingNew(n) {
        o := Skipped;
        NothingToDo(w, localBefore, cfg.cap, n, keep(n.path));
      } else {
        o, got := FetchFile(n);
      }
      EffectTree(w, localBefore, cfg.cap, n, keep(n.path), o);
    }

    /** The remote file has not moved since the last agreement, or is here already. */
    predicate NothingNew(n: Node)
      reads folder, db`nodes, d`nodes, this`conflicts
    {
      SameAsBase(db.nodes, n) || AlreadyThere(View(), n)
    }

    method ApplyDir(n: Node) returns (o: Outcome)
      requires n.isDir
      modifies folder, db
      ensures Allowed(old(View()), localBefore, cfg.cap, n, o) && (o.MadeDir? || o == Failed(false))
      ensures View() == Effect(old(View()), n, keep(n.path), o)
      ensures db.cursor == old(db.cursor)
    {
      hide Blocked, WithDirs;
      var made := folder.MkdirAll(n.path);
      if !made {
        return Failed(false);
      }
      var put := db.PutNode(n.path, DirRow(n.link, n.parent));
      o := MadeDir(put);
    }

    /** Remove a node locally after it disappeared remotely. */
    method DeleteNode(p: Path, isDir: bool) returns (ok: bool)
      requires Tree(folder.disk)
      modifies folder, db
      ensures ok ==> Removed(old(View()), View(), p, isDir)
      ensures !ok ==> RemovalFailed(old(View()), View(), p)
      ensures Tree(folder.disk) && db.cursor == old(db.cursor)
    {
      ghost var w := View();
      TrashTree(w, p);
      var trashed := folder.TrashLocal(p);
      if !trashed {
        return false;
      }
      var forgotten;
      if isDir {
        forgotten := db.DeleteSubtree(p);
      } else {
        forgotten := db.DeleteNode(p);
      }
      if !forgotten {
        return false;
      }
      var stuck := folder.RemoveEmptyParents(p);
      ok := true;
    }

    // ----- full walk

    /** Remove the rows that a full walk did not meet, deepest first. */
    method ReapUnseen(seen: set<Path>, ghost w0: World) returns (ok: bool)
      requires Tree(folder.disk) && SafeState(w0, View(), localBefore, keep, applied)
      requires Tracked() && seen == WalkedPaths(d.nodes)
      modifies this`warnings, this`log, this`faults, folder, db
      ensures Tree(folder.disk) && db.cursor == old(db.cursor) && warnings >= old(warnings)
      ensures Tracked() && SafeState(w0, View(), localBefore, keep, applied)
      ensures ok == CliffAllows(|old(db.nodes).Keys - seen|, |old(db.nodes)|, cfg.guardPercent)
      ensures !ok ==> View() == old(View())
      ensures RowsLost(old(db.nodes), db.nodes, old(db.nodes).Keys - seen)
      ensures ok && warnings == old(warnings) && Reapable(old(View())) && seen == d.nodes.Keys
              ==> ReapInv(old(View()), old(db.nodes).Keys - seen, View())
    {
      hide SafeState, ReapInv, Reapable, Tree;
      var gone := db.nodes.Keys - seen;
      if !CliffAllows(|gone|, |db.nodes|, cfg.guardPercent) {
        return false;
      }
      DropAll(gone, w0);
      ok := true;
    }

    /** Remove the given rows, longest path first, whatever happens to each. */
    method DropAll(gone: set<Path>, ghost w0: World)
      requires Tree(folder.disk) && gone <= db.nodes.Keys
      requires SafeState(w0, View(), localBefore, keep, applied)
      requires Tracked() && forall p | p in gone :: !ValidPath(p) || p !in d.nodes
      modifies this`warnings, this`log, this`faults, folder, db
      ensures Tree(folder.disk) && db.cursor == old(db.cursor) && warnings >= old(warnings)
      ensures Tracked() && SafeState(w0, View(), localBefore, keep, applied)
      ensures RowsLost(old(db.nodes), db.nodes, gone)
      ensures warnings == old(warnings) && Reapable(old(View())) && gone == old(db.nodes).Keys - d.nodes.Keys
              ==> ReapInv(old(View()), gone, View())
    {
      var all := db.nodes;
      ghost var w1 := View();
      ghost var exact := Reapable(w1) && gone == db.nodes.Keys - d.nodes.Keys;
      var todo := gone;
      DropStart(w1, gone, exact);
      while todo != {}
        invariant Tree(folder.disk) && db.cursor == old(db.cursor) && warnings >= old(warnings)
        invariant todo <= gone
        invariant Tracked() && SafeState(w0, View(), localBefore, keep, applied)
        invariant RowsLost(all, db.nodes, gone)
        invariant warnings == old(warnings) && exact ==> ReapInv(w1, gone - todo, View())
      {
        ghost var longest := LongestExists(todo);
        var p :| p in todo && forall q | q in todo :: |q| <= |p|;
        DropOne(p, all[p].isDir, w0, w1, gone, todo, exact && warnings == old(warnings));
        todo := todo - {p};
      }
      assert gone - todo == gone;
    }

    /** Remove one row that is due. */
    method DropOne(p: Path, isDir: bool, ghost w0: World, ghost w1: World, ghost gone: set<Path>,
                   ghost todo: set<Path>, ghost exact: bool)
      requires Tree(folder.disk) && SafeState(w0, View(), localBefore, keep, applied)
      requires Tracked() && (!ValidPath(p) || p !in d.nodes)
      requires p in todo && todo <= gone && p in w1.base && isDir == w1.base[p].isDir
      requires forall q | q in todo :: |q| <= |p|
      requires RowsLost(w1.base, db.nodes, gone)
      requires exact ==> Reapable(w1) && gone == w1.base.Keys - w1.remote.Keys && ReapInv(w1, gone - todo, View())
      modifies this`warnings, this`log, this`faults, folder, db
      ensures Tree(folder.disk) && db.cursor == old(db.cursor) && warnings >= old(warnings)
      ensures Tracked() && SafeState(w0, View(), localBefore, keep, applied)
      ensures RowsLost(w1.base, db.nodes, gone)
      ensures exact && warnings == old(warnings) ==> ReapInv(w1, gone - (todo - {p}), View())
    {
      hide RemovalFailed, ValidPath, RowsLost, Apart, SafeState, Tree;
      ghost var w := View();
      var removed := DeleteNode(p, isDir);
      TrackRemoval(w, p, isDir, removed);
      SafeRemoval(w0, w, View(), localBefore, keep, applied, p, isDir);
      if removed {
        RowsLostStep(w1.base, w.base, gone, p, isDir);
        DropExact(w1, w, View(), gone, todo, p, isDir, exact);
      } else {
        warnings := warnings + 1;
      }
    }

    /** Keep track of a removal: a step of its own if it went through and the row was there. */
    ghost method TrackRemoval(w: World, p: Path, isDir: bool, removed: bool)
      requires Run(Context(localBefore, keep, cfg.cap, replayed), start, log) && EndOf(start, log) == w
      requires floor <= faults && (faults == floor ==> Sound(log))
      requires if removed then Removed(w, View(), p, isDir) else RemovalFailed(w, View(), p)
      requires View().remote == w.remote && Apart(start, w, applied)
      requires Whole(log) && AccountTree(w.remote) && p in w.base ==> MayDrop(w, replayed, p)
      modifies this`log, this`faults
      ensures Tracked() && !Whole(log) && faults >= old(faults)
    {
      hide Run, Removed, RemovalFailed, MayDrop, AccountTree, Apart;
      ApartDropped(start, w, View(), applied, p, isDir);
      if removed && p in w.base && isDir == w.base[p].isDir {
        Track(Took(View(), p));
      } else {
        Track(Faulted(View()));
      }
      assert !log[|log| - 1].Applied?;
    }

    static lemma DropStart(w1: World, gone: set<Path>, exact: bool)
      requires exact ==> Reapable(w1)
      ensures RowsLost(w1.base, w1.base, gone)
      ensures exact ==> ReapInv(w1, gone - gone, w1)
    {
      if exact {
        ReapStart(w1);
        assert gone - gone == {};
      }
    }

    static lemma DropExact(w1: World, w: World, w': World, gone: set<Path>, todo: set<Path>, p: Path,
                           isDir: bool, exact: bool)
      requires Removed(w, w', p, isDir)
      requires p in todo && todo <= gone && p in w1.base && isDir == w1.base[p].isDir
      requires forall q | q in todo :: |q| <= |p|
      requires exact ==> Reapable(w1) && gone == w1.base.Keys - w1.remote.Keys && ReapInv(w1, gone - todo, w)
      ensures exact ==> ReapInv(w1, gone - (todo - {p}), w')
    {
      if exact {
        assert ReapAt(w1, gone - todo, w, p);
        ReapStep(w1, gone - todo, w, w', p);
        assert gone - todo + {p} == gone - (todo - {p});
      }
    }

    /** Walk the whole account, then drop what the walk did not meet. Nodes come in any
    order that puts a folder before what it holds; the walk may break off anywhere. The
    event cursor is taken first and stored at the end; only the time of the walk is noted after
    it, so that an error may still come when all was done. */
    method FullMirror() returns (ok: bool, ghost walked: Base, ghost done: bool)
      requires Tree(folder.disk) && Naming(keep) && applied == [] && Tracked()
      modifies this`conflicts, this`warnings, this`applied, this`log, this`faults, folder, db
      ensures Tracked()
      ensures Tree(folder.disk) && warnings >= old(warnings)
      ensures NoRepeats(applied) && Members(applied) <= WalkedPaths(d.nodes)
      ensures SafeState(old(View()), View(), localBefore, keep, applied)
      ensures done && warnings == old(warnings) && Ordinary(old(View()), localBefore, keep, cfg.cap, cfg.exclude)
              ==> Pulled(old(View()), localBefore, keep, View())
      ensures (ok ==> done) && db.cursor == if done then d.latest else old(db.cursor)
      // What a walk's end takes off the baseline was not seen, and stays under the limit.
      ensures ReapsWithin(old(db.nodes), walked, db.nodes, d.nodes, cfg.guardPercent, ok)
    {
      walked, done := db.nodes, false;
      RowsGrewNot(walked, d.nodes);
      NothingReaped(walked, d.nodes, cfg.guardPercent);
      SafeStateStart(View(), localBefore, keep);
      var cursor;
      ok, cursor := d.LatestEventID();
      if !ok {
        return;
      }
      ok, walked := WalkAndReap();
      ghost var w := View();
      if ok {
        ok := db.SetCursor(cursor);
        done := ok;
        assert View() == w;
        if * {
          ok := false; // the time of the walk could not be noted
        }
      }
    }

    method WalkAndReap() returns (ok: bool, ghost walked: Base)
      requires Tree(folder.disk) && Naming(keep) && applied == [] && Tracked()
      modifies this`conflicts, this`warnings, this`applied, this`log, this`faults, folder, db
      ensures Tracked()
      ensures Tree(folder.disk) && db.cursor == old(db.cursor) && warnings >= old(warnings)
      ensures NoRepeats(applied) && Members(applied) <= WalkedPaths(d.nodes)
      ensures SafeState(old(View()), View(), localBefore, keep, applied)
      ensures ok && warnings == old(warnings) && Ordinary(old(View()), localBefore, keep, cfg.cap, cfg.exclude)
              ==> Pulled(old(View()), localBefore, keep, View())
      ensures ReapsWithin(old(db.nodes), walked, db.nodes, d.nodes, cfg.guardPercent, ok)
    {
      hide Pulled, Reapable, ReapInv, RowsLost, Run;
      ghost var w0, warned := View(), warnings;
      var seen;
      ok, seen := WalkAll();
      walked := db.nodes;
      NothingReaped(walked, d.nodes, cfg.guardPercent);
      if !ok {
        return;
      }
      ghost var w1 := View();
      ok := ReapUnseen(seen, w0);
      if ok { ReapingStaysUnderLimit(d.nodes, walked, db.nodes, cfg.guardPercent); }
      if ok && warnings == warned {
        FinishPull(w0, localBefore, keep, cfg.cap, cfg.exclude, w1, seen, View());
      }
    }

    /** The walk: every remote node with a safe name is applied once. */
    method WalkAll() returns (ok: bool, seen: set<Path>)
      requires Tree(folder.disk) && Naming(keep) && applied == [] && Tracked()
      modifies this`conflicts, this`warnings, this`applied, this`log, this`faults, folder, db
      ensures Tracked()
      ensures Tree(folder.disk) && db.cursor == old(db.cursor) && warnings >= old(warnings)
      ensures NoRepeats(applied) && seen == Members(applied) <= WalkedPaths(d.nodes)
      ensures RowsGrew(old(db.nodes), db.nodes, d.nodes)
      ensures SafeState(old(View()), View(), localBefore, keep, applied)
      ensures ExactState(old(View()), View(), localBefore, keep, cfg.cap, cfg.exclude, seen,
                         warnings == old(warnings))
      ensures ok ==> seen == WalkedPaths(d.nodes)
    {
      hide SafeState, ExactState, Naming, Tree, ValidPath, Run, FoldersMet, RowsGrew;
      ghost var w0 := View();
      var todo := d.nodes.Keys;
      RowsGrewNot(db.nodes, d.nodes);
      seen := {};
      NoneMet(log, d.nodes, db.nodes);
      SafeStateStart(w0, localBefore, keep);
      ExactStart(w0, localBefore, keep, cfg.cap, cfg.exclude);
      while todo != {}
        invariant Tree(folder.disk) && db.cursor == old(db.cursor) && warnings >= old(warnings)
        invariant NoRepeats(applied) && seen == Members(applied)
        invariant todo !! seen && seen + todo <= d.nodes.Keys
        invariant forall p | p in d.nodes && p !in seen && p !in todo :: !ValidPath(p)
        invariant (forall p | p in seen :: ValidPath(p)) && RowsGrew(old(db.nodes), db.nodes, d.nodes)
        invariant Tracked() && FoldersMet(log, d.nodes, db.nodes, seen)
        invariant SafeState(w0, View(), localBefore, keep, applied)
        invariant ExactState(w0, View(), localBefore, keep, cfg.cap, cfg.exclude, seen, warnings == old(warnings))
      {
        if * {
          break; // a listing failed, or the pass was cancelled
        }
        ghost var first := ParentFirstExists(todo);
        ghost var todo0 := todo;
        var p :| p in todo && (p == "" || ParentOf(p) !in todo);
        todo := todo - {p};
        if ValidPath(p) {
          ValidIsNamed(p);
          NoRepeatsMore(applied, p);
          ParentMet(log, View(), seen, todo0, p);
          ghost var rows := db.nodes;
          ApplyWalked(p, w0, seen, warnings == old(warnings));
          RowsGrewThen(old(db.nodes), rows, db.nodes, d.nodes);
          seen := seen + {p};
        } else {
          ExactFailed(w0, View(), localBefore, keep, cfg.cap, cfg.exclude, seen, warnings == old(warnings), false);
          warnings := warnings + 1;
        }
      }
      ok := todo == {};
    }

    /** One step of the walk. */
    method ApplyWalked(p: Path, ghost w0: World, ghost seen: set<Path>, ghost clean: bool)
      requires Tree(folder.disk) && Naming(keep) && p in d.nodes && p != "" && p !in seen
      requires seen == Members(applied) && w0.remote == d.nodes
      requires Tracked() && FoldersMet(log, d.nodes, db.nodes, seen)
      requires Sound(log) && AccountTree(d.nodes) ==> Reported(View(), NodeOf(d.nodes, p))
      requires SafeState(w0, View(), localBefore, keep, applied)
      requires ExactState(w0, View(), localBefore, keep, cfg.cap, cfg.exclude, seen, clean)
      modifies this`conflicts, this`warnings, this`applied, this`log, this`faults, folder, db
      ensures Tracked() && FoldersMet(log, d.nodes, db.nodes, seen + {p})
      ensures Tree(folder.disk) && db.cursor == old(db.cursor) && warnings >= old(warnings)
      ensures applied == old(applied) + [p] && Members(applied) == seen + {p}
      ensures RowsGrew(old(db.nodes), db.nodes, d.nodes)
      ensures SafeState(w0, View(), localBefore, keep, applied)
      ensures ExactState(w0, View(), localBefore, keep, cfg.cap, cfg.exclude, seen + {p},
                         clean && warnings == old(warnings))
    {
      hide SafeState, ExactState, Naming, Tree, Allowed, Effect, Run, Reported, FoldersMet, RowsGrew, Apart, Unmoved;
      ghost var w, n, done, log0 := View(), NodeOf(d.nodes, p), applied, log;
      var o, at := ApplyNode(NodeOf(d.nodes, p));
      TrackApply(w, done, n, o, at);
      EffectRows(w, n, keep(p), o, d.nodes);
      OneMoreMet(log0, log[|log0|], d.nodes, w, n, localBefore, cfg.cap, keep(p), o, seen, p);
      SafeStep(w0, w, localBefore, keep, done, n, cfg.cap, o);
      ExactStep(w0, w, localBefore, keep, cfg.cap, cfg.exclude, seen, n, o, at, clean);
      if !Succeeded(o) {
        warnings := warnings + 1;
      }
      ExactFailed(w0, View(), localBefore, keep, cfg.cap, cfg.exclude, seen + {p},
                  clean && Succeeded(o), clean && warnings == old(warnings));
      assert Members(applied) == seen + {p};
    }

    /** Keep track of an applied node. */
    ghost method TrackApply(w: World, done: seq<Path>, n: Node, o: Outcome, at: Path)
      requires Run(Context(localBefore, keep, cfg.cap, replayed), start, log) && EndOf(start, log) == w
      requires floor <= faults && (faults == floor ==> Sound(log))
      requires Allowed(w, localBefore, cfg.cap, n, o) && View() == Effect(w, n, keep(n.path), o)
      requires o.Landed? || o.NotCommitted? ==>
                 at in d.nodes && d.nodes[at].link == n.link && o.got == d.nodes[at].content
      requires w.remote == d.nodes && (Sound(log) && AccountTree(w.remote) ==> Reported(w, n))
      requires Apart(start, w, done) && applied == done + [n.path]
      requires Unmoved(start) ==> n.path in w.remote && n == NodeOf(w.remote, n.path) && n.path !in done
      modifies this`log, this`faults
      ensures Tracked() && log == old(log) + [if Fault(w, n, o) then Faulted(View()) else Applied(View(), n, o)]
      ensures faults >= old(faults)
    {
      hide Apart, Unmoved;
      ApartApplied(start, w, done, n, keep(n.path), o);
      if Fault(w, n, o) {
        Track(Faulted(View()));
      } else {
        assert Genuine(w.remote, n, o);
        Track(Applied(View(), n, o));
      }
    }

    static lemma NoRepeatsMore(log: seq<Path>, p: Path)
      requires NoRepeats(log) && p !in Members(log)
      ensures NoRepeats(log + [p])
    {
    }

    // ----- event replay

    /** Apply the deletions of a delta, in its order. Unknown links are passed over. */
    method ApplyDeletions(changes: seq<Change>, ghost w0: World)
      requires Tree(folder.disk) && w0 == View() && applied == [] && Tracked() && changes == replayed
      modifies this`warnings, this`log, this`faults, folder, db
      ensures Tracked()
      ensures Tree(folder.disk) && db.cursor == old(db.cursor) && warnings >= old(warnings)
      ensures SafeState(w0, View(), localBefore, keep, applied)
      ensures DeleteState(w0, View(), localBefore, keep, cfg.cap, cfg.exclude, changes, |changes|,
                          warnings == old(warnings))
    {
      hide *;
      SafeStateStart(w0, localBefore, keep);
      DeleteStateStart(w0, localBefore, keep, cfg.cap, cfg.exclude, changes);
      for i := 0 to |changes|
        invariant Tree(folder.disk) && db.cursor == old(db.cursor) && warnings >= old(warnings)
        invariant Tracked() && SafeState(w0, View(), localBefore, keep, applied)
        invariant DeleteState(w0, View(), localBefore, keep, cfg.cap, cfg.exclude, changes, i,
                              warnings == old(warnings))
      {
        if changes[i].Removal? {
          DeleteByNodeID(changes[i].link, changes, i, w0, warnings == old(warnings));
        } else {
          DeleteNothing(w0, View(), localBefore, keep, cfg.cap, cfg.exclude, changes, i, warnings == old(warnings));
        }
      }
    }

    /** Remove the row with this link, if there is one. */
    method DeleteByNodeID(link: Link, ghost changes: seq<Change>, ghost i: nat, ghost w0: World, ghost clean: bool)
      requires Tree(folder.disk) && Tracked() && changes == replayed
      requires i < |changes| && changes[i] == Removal(link) && SafeState(w0, View(), localBefore, keep, applied)
      requires DeleteState(w0, View(), localBefore, keep, cfg.cap, cfg.exclude, changes, i, clean)
      modifies this`warnings, this`log, this`faults, folder, db
      ensures Tree(folder.disk) && db.cursor == old(db.cursor) && warnings >= old(warnings)
      ensures Tracked() && SafeState(w0, View(), localBefore, keep, applied)
      ensures DeleteState(w0, View(), localBefore, keep, cfg.cap, cfg.exclude, changes, i + 1,
                          clean && warnings == old(warnings))
    {
      hide Removed, RemovalFailed, Run, Apart, Tree, SafeState, DeleteState;
      ghost var w := View();
      var found := db.GetNodeByID(link);
      if found.None? {
        DeleteNothing(w0, w, localBefore, keep, cfg.cap, cfg.exclude, changes, i, clean);
        return;
      }
      var p := found.value;
      var isDir := db.nodes[p].isDir;
      DeletedMayDrop(w, replayed, i, p);
      var removed := DeleteNode(p, isDir);
      TrackRemoval(w, p, isDir, removed);
      SafeRemoval(w0, w, View(), localBefore, keep, applied, p, isDir);
      if removed {
        DeleteOne(w0, w, View(), localBefore, keep, cfg.cap, cfg.exclude, changes, i, p, clean);
      } else {
        DeleteFailed(w0, View(), localBefore, keep, cfg.cap, cfg.exclude, changes, i + 1);
        warnings := warnings + 1;
      }
    }

    /** Apply every child of one folder, in any order. */
    method ApplyChildren(link: Link, prefix: Path, ghost w0: World, ghost w1: World, ghost clean: bool)
      returns (ok: bool, seen: set<Path>)
      requires Tree(folder.disk) && Naming(keep) && Tracked() && FolderKnown(db.nodes, link, prefix)
      requires SafeState(w0, View(), localBefore, keep, applied)
      requires RelistState(w1, View(), localBefore, keep, cfg.cap, cfg.exclude, Members(applied), clean)
      requires clean ==> forall q | q in Children(d.nodes, link) ::
                 q !in applied && NodeOf(d.nodes, q) == ChildNode(prefix, q, d.nodes[q])
      requires Unmoved(start) ==> forall q | q in Children(d.nodes, link) :: q !in applied
      modifies this`conflicts, this`warnings, this`applied, this`log, this`faults, folder, db
      ensures Tracked() && FolderKnown(db.nodes, link, prefix)
      ensures ok ==> AllListed(d.nodes, link, prefix, seen)
      ensures Unmoved(start) ==> Members(applied) <= old(Members(applied)) + Children(d.nodes, link)
      ensures Tree(folder.disk) && db.cursor == old(db.cursor) && warnings >= old(warnings)
      ensures SafeState(w0, View(), localBefore, keep, applied)
      ensures ok ==> RelistState(w1, View(), localBefore, keep, cfg.cap, cfg.exclude, Members(applied),
                                 clean && warnings == old(warnings))
      ensures ok && clean && warnings == old(warnings)
              ==> Members(applied) == old(Members(applied)) + Children(d.nodes, link)
                  && seen == Children(d.nodes, link)
    {
      hide SafeState, RelistState, Naming, Tree, ValidPath, ChildNode, Run, FolderKnown, Reported, AccountTree, Tracked,
          Apart, Unmoved;
      seen := {};
      var todo;
      ok, todo := d.ListDir(link);
      if !ok {
        return;
      }
      ghost var children, log, met: set<Path> := todo, Members(applied), {};
      while todo != {}
        invariant Tree(folder.disk) && db.cursor == old(db.cursor) && warnings >= old(warnings)
        invariant met + todo == children && met !! todo && Tracked() && FolderKnown(db.nodes, link, prefix)
        invariant forall q | q in met && ValidPath(ChildNode(prefix, q, d.nodes[q]).path) ::
                    ChildNode(prefix, q, d.nodes[q]).path in seen
        invariant SafeState(w0, View(), localBefore, keep, applied)
        invariant RelistState(w1, View(), localBefore, keep, cfg.cap, cfg.exclude, Members(applied),
                              clean && warnings == old(warnings))
        invariant clean && warnings == old(warnings) ==> Members(applied) == log + met && seen == met
        invariant Unmoved(start) ==> Members(applied) <= log + met
      {
        if * {
          return false, seen; // cancelled
        }
        var q :| q in todo;
        todo := todo - {q};
        UnionAssoc(log, met, q);
        met := met + {q};
        seen := ApplyChild(q, link, prefix, seen, w0, w1, clean && warnings == old(warnings));
      }
    }

    /** One child has its turn. */
    method ApplyChild(q: Path, ghost link: Link, prefix: Path, seen: set<Path>, ghost w0: World, ghost w1: World,
                      ghost clean: bool)
      returns (seen': set<Path>)
      requires Tree(folder.disk) && Naming(keep) && Tracked() && FolderKnown(db.nodes, link, prefix)
      requires q in d.nodes && d.nodes[q].parent == link && SafeState(w0, View(), localBefore, keep, applied)
      requires RelistState(w1, View(), localBefore, keep, cfg.cap, cfg.exclude, Members(applied), clean)
      requires clean ==> q !in applied && NodeOf(d.nodes, q) == ChildNode(prefix, q, d.nodes[q])
      requires Unmoved(start) ==> q !in applied
      modifies this`conflicts, this`warnings, this`applied, this`log, this`faults, folder, db
      ensures Tracked() && FolderKnown(db.nodes, link, prefix)
      ensures Tree(folder.disk) && db.cursor == old(db.cursor) && warnings >= old(warnings)
      ensures SafeState(w0, View(), localBefore, keep, applied)
      ensures RelistState(w1, View(), localBefore, keep, cfg.cap, cfg.exclude, Members(applied),
                          clean && warnings == old(warnings))
      ensures var p := ChildNode(prefix, q, d.nodes[q]).path; seen' == if ValidPath(p) then seen + {p} else seen
      ensures Unmoved(start) ==> Members(applied) <= old(Members(applied)) + {q}
      ensures clean && warnings == old(warnings)
              ==> Members(applied) == old(Members(applied)) + {q} && seen' == seen + {q}
    {
      hide SafeState, RelistState, Naming, Tree, ValidPath, ChildNode, Run, FolderKnown, Reported, AccountTree, Tracked,
          Apart, Unmoved;
      seen' := seen;
      var n := ChildNode(prefix, q, d.nodes[q]);
      if ValidPath(n.path) {
        ValidIsNamed(n.path);
        ChildReported(View(), n, q, prefix);
        TrackedIsApart();
        ApartChild(start, View(), applied, q, prefix);
        ChildBelow(n, q, prefix, d.nodes[q]);
        seen' := seen + {n.path};
        ApplyRelisted(n, link, prefix, w0, w1, clean);
      } else {
        RelistFailed(w1, View(), localBefore, keep, cfg.cap, cfg.exclude, Members(applied), clean, false);
        warnings := warnings + 1;
      }
    }

    static lemma UnionAssoc(a: set<Path>, b: set<Path>, q: Path)
      ensures (a + b) + {q} == a + (b + {q})
    {
    }

    /** One step of a re-listing. */
    method ApplyRelisted(n: Node, ghost link: Link, ghost prefix: Path, ghost w0: World, ghost w1: World,
            ghost clean: bool)
      requires Tree(folder.disk) && Naming(keep) && n.path != ""
      requires SafeState(w0, View(), localBefore, keep, applied)
      requires RelistState(w1, View(), localBefore, keep, cfg.cap, cfg.exclude, Members(applied), clean)
      requires clean ==> n.path in d.nodes && n == NodeOf(d.nodes, n.path) && n.path !in applied
      requires Tracked() && FolderKnown(db.nodes, link, prefix) && n.path != prefix
      requires Sound(log) && AccountTree(d.nodes) ==> Reported(View(), n)
      requires Unmoved(start) ==> n.path in d.nodes && n == NodeOf(d.nodes, n.path) && n.path !in applied
      modifies this`conflicts, this`warnings, this`applied, this`log, this`faults, folder, db
      ensures Tracked() && FolderKnown(db.nodes, link, prefix)
      ensures Tree(folder.disk) && db.cursor == old(db.cursor) && warnings >= old(warnings)
      ensures applied == old(applied) + [n.path] && Members(applied) == old(Members(applied)) + {n.path}
      ensures SafeState(w0, View(), localBefore, keep, applied)
      ensures RelistState(w1, View(), localBefore, keep, cfg.cap, cfg.exclude, Members(applied),
                          clean && warnings == old(warnings))
    {
      hide Effect, ExactState, Run, Reported, Apart, Unmoved;
      ghost var w, done := View(), applied;
      var o, at := ApplyNode(n);
      TrackApply(w, done, n, o, at);
      FolderStaysKnown(w, n, keep(n.path), o, link, prefix);
      SafeStep(w0, w, localBefore, keep, done, n, cfg.cap, o);
      assert Members(applied) == Members(done) + {n.path};
      if clean {
        RelistStep(w1, w, localBefore, keep, cfg.cap, cfg.exclude, Members(done), n, o, at, clean);
      } else {
        RelistUnclaimed(w1, w, View(), localBefore, keep, cfg.cap, cfg.exclude, Members(done), false, Members(applied));
      }
      if !Succeeded(o) {
        warnings := warnings + 1;
      }
      RelistFailed(w1, View(), localBefore, keep, cfg.cap, cfg.exclude, Members(applied),
                   clean && Succeeded(o), clean && warnings == old(warnings));
    }

    /** Remove rows that a re-listing did not report, whatever happens to each. */
    method DropStale(stale: set<Path>, ghost w0: World)
      requires Tree(folder.disk) && stale <= db.nodes.Keys
      requires SafeState(w0, View(), localBefore, keep, applied)
      requires Tracked() && (AccountTree(d.nodes) ==> forall p | p in stale :: MayDrop(View(), replayed, p))
      modifies this`warnings, this`log, this`faults, folder, db
      ensures Tracked()
      ensures Tree(folder.disk) && db.cursor == old(db.cursor) && warnings >= old(warnings)
      ensures SafeState(w0, View(), localBefore, keep, applied)
      ensures stale == {} ==> View() == old(View())
      ensures warnings == old(warnings) && Droppable(old(View()), stale)
              ==> ReapInv(old(View()), RowsBelow(old(db.nodes), stale), View())
    {
      ghost var w1 := View();
      ghost var exact := Droppable(w1, stale);
      var all := db.nodes;
      var todo := stale;
      DroppableStart(w1, stale);
      while todo != {}
        invariant Tree(folder.disk) && db.cursor == old(db.cursor) && warnings >= old(warnings)
        invariant todo <= stale
        invariant Tracked() && (Whole(log) ==> View() == old(View()))
        invariant SafeState(w0, View(), localBefore, keep, applied)
        invariant stale == {} ==> todo == {} && View() == old(View())
        invariant warnings == old(warnings) && exact ==> ReapInv(w1, RowsBelow(all, stale - todo), View())
      {
        var p :| p in todo;
        DropStaleRow(p, all[p].isDir, w0, w1, stale, todo, exact && warnings == old(warnings));
        todo := todo - {p};
      }
      assert stale - {} == stale;
    }

    method DropStaleRow(p: Path, isDir: bool, ghost w0: World, ghost w1: World, ghost stale: set<Path>,
                        ghost todo: set<Path>, ghost exact: bool)
      requires Tree(folder.disk) && SafeState(w0, View(), localBefore, keep, applied)
      requires p in todo && todo <= stale && p in w1.base && isDir == w1.base[p].isDir
      requires Tracked() && (Whole(log) ==> View() == w1) && (AccountTree(d.nodes) ==> MayDrop(w1, replayed, p))
      requires exact ==> Droppable(w1, stale) && ReapInv(w1, RowsBelow(w1.base, stale - todo), View())
      requires w1.remote == d.nodes
      modifies this`warnings, this`log, this`faults, folder, db
      ensures Tracked() && !Whole(log)
      ensures Tree(folder.disk) && db.cursor == old(db.cursor) && warnings >= old(warnings)
      ensures SafeState(w0, View(), localBefore, keep, applied)
      ensures exact && warnings == old(warnings)
              ==> ReapInv(w1, RowsBelow(w1.base, stale - (todo - {p})), View())
    {
      ghost var w := View();
      var removed := DeleteNode(p, isDir);
      TrackRemoval(w, p, isDir, removed);
      SafeRemoval(w0, w, View(), localBefore, keep, applied, p, isDir);
      if removed {
        DroppableStep(w1, w, View(), stale, todo, p, exact);
      } else {
        warnings := warnings + 1;
      }
    }

    /** Rows of this folder that its listing did not report are dropped, if the guard allows. */
    method DropUnlisted(link: Link, ghost prefix: Path, seen: set<Path>, ghost w0: World) returns (ok: bool)
      requires Tree(folder.disk) && SafeState(w0, View(), localBefore, keep, applied)
      requires Tracked() && FolderKnown(db.nodes, link, prefix) && AllListed(d.nodes, link, prefix, seen)
      modifies this`warnings, this`log, this`faults, folder, db
      ensures Tracked()
      ensures Tree(folder.disk) && db.cursor == old(db.cursor) && warnings >= old(warnings)
      ensures SafeState(w0, View(), localBefore, keep, applied)
      ensures var stale := Unlisted(old(db.nodes), link, seen);
        && ok == CliffAllows(|stale|, |old(db.nodes)|, cfg.guardPercent)
        && (!ok || stale == {} ==> View() == old(View()))
        && (ok && warnings == old(warnings) && Droppable(old(View()), stale)
            ==> ReapInv(old(View()), RowsBelow(old(db.nodes), stale), View()))
    {
      var stale := set p | p in db.nodes && db.nodes[p].parent == link && p !in seen;
      UnlistedMayDrop(View(), replayed, link, prefix, seen, stale);
      ok := CliffAllows(|stale|, |db.nodes|, cfg.guardPercent);
      if ok {
        DropStale(stale, w0);
      }
    }

    static lemma DroppableStart(w1: World, stale: set<Path>)
      ensures Droppable(w1, stale) ==> ReapInv(w1, RowsBelow(w1.base, stale - stale), w1)
    {
      assert stale - stale == {};
      if Droppable(w1, stale) { StaleStart(w1); }
    }

    static lemma DroppableStep(w1: World, w: World, w': World, stale: set<Path>, todo: set<Path>, p: Path, exact: bool)
      requires p in todo && todo <= stale && p in w1.base && Removed(w, w', p, w1.base[p].isDir)
      requires exact ==> Droppable(w1, stale) && ReapInv(w1, RowsBelow(w1.base, stale - todo), w)
      ensures exact ==> ReapInv(w1, RowsBelow(w1.base, stale - (todo - {p})), w')
    {
      if exact {
        StaleStep(w1, stale - todo, w, w', p);
        assert stale - todo + {p} == stale - (todo - {p});
      }
    }

    /** The path of the folder with this link, if it is known. */
    method FolderPath(link: Link) returns (known: bool, prefix: Path)
      ensures known ==> FolderKnown(db.nodes, link, prefix)
      ensures !known ==> link != ROOT_LINK && forall p | p in db.nodes :: db.nodes[p].link != link
    {
      if link == ROOT_LINK {
        return true, "";
      }
      var found := db.GetNodeByID(link);
      known := found.Some?;
      prefix := if known then found.value else "";
    }

    /** Re-read one folder and reconcile it against the baseline. A folder without a row is
    passed over: its own creation will have been announced in its parent. */
    method RelistDir(link: Link, ghost w0: World, ghost w1: World, ghost order: seq<Link>, ghost clean: bool)
      returns (ok: bool)
      requires Tree(folder.disk) && Naming(keep) && Tracked()
      requires SafeState(w0, View(), localBefore, keep, applied)
      requires RelistInv(w1, View(), localBefore, keep, cfg.cap, cfg.exclude, order, Members(applied), clean)
      requires link !in order && (clean ==> Relistable(w1, localBefore, keep, cfg.cap, cfg.exclude))
      requires Unmoved(start) ==> ListedIn(d.nodes, applied, order)
      modifies this`conflicts, this`warnings, this`applied, this`log, this`faults, folder, db
      ensures Tracked()
      ensures Tree(folder.disk) && db.cursor == old(db.cursor) && warnings >= old(warnings)
      ensures SafeState(w0, View(), localBefore, keep, applied)
      ensures RelistInv(w1, View(), localBefore, keep, cfg.cap, cfg.exclude, order + [link],
                        Members(applied), clean && ok && warnings == old(warnings))
      ensures Unmoved(start) ==> ListedIn(d.nodes, applied, order + [link])
    {
      hide Unmoved, Tracked, ListedIn, Tree, SafeState, Naming, RelistInv, RelistState, Relistable, Swept, FolderKnown,
          Children, Unlisted, NodeOf, ChildNode;
      ghost var w, before, warned := View(), applied, warnings;
      if Unmoved(start) {
        NoneOfThese(d.nodes, applied, order, link);
        OneMoreListed(d.nodes, applied, applied, order, link);
      }
      var known, prefix := FolderPath(link);
      if !known {
        RelistPassesOver(w1, w, localBefore, keep, cfg.cap, cfg.exclude, order, Members(before), link, clean);
        return true;
      }
      IsFolderKnown(db.nodes, link, prefix);
      RelistTakesUp(w1, w, localBefore, keep, cfg.cap, cfg.exclude, order, Members(before), link, prefix, clean);
      ghost var mid;
      ok, mid := RelistFolder(link, prefix, w0, w1, clean);
      if Unmoved(start) { OneMoreListed(d.nodes, before, applied, order, link); }
      RelistEnds(w1, w, mid, View(), localBefore, keep, cfg.cap, cfg.exclude, order, Members(before), Members(applied),
                 link, prefix, clean, clean && ok && warnings == warned);
    }

    static lemma IsFolderKnown(base: Base, link: Link, prefix: Path)
      requires FolderKnown(base, link, prefix)
      ensures if link == ROOT_LINK then prefix == "" else prefix in base && base[prefix].link == link
    {
    }

    /** Apply what a known folder holds, and drop what it holds no longer. `mid` is the state
    in between. */
    method RelistFolder(link: Link, prefix: Path, ghost w0: World, ghost w1: World, ghost clean: bool)
      returns (ok: bool, ghost mid: World)
      requires Tree(folder.disk) && Naming(keep) && Tracked() && FolderKnown(db.nodes, link, prefix)
      requires SafeState(w0, View(), localBefore, keep, applied)
      requires RelistState(w1, View(), localBefore, keep, cfg.cap, cfg.exclude, Members(applied), clean)
      requires clean ==> forall q | q in Children(d.nodes, link) ::
                 q !in applied && NodeOf(d.nodes, q) == ChildNode(prefix, q, d.nodes[q])
      requires Unmoved(start) ==> forall q | q in Children(d.nodes, link) :: q !in applied
      modifies this`conflicts, this`warnings, this`applied, this`log, this`faults, folder, db
      ensures Tracked() && SafeState(w0, View(), localBefore, keep, applied)
      ensures Unmoved(start) ==> Members(applied) <= old(Members(applied)) + Children(d.nodes, link)
      ensures Tree(folder.disk) && db.cursor == old(db.cursor) && warnings >= old(warnings)
      ensures ok && clean && warnings == old(warnings) ==>
                && RelistState(w1, mid, localBefore, keep, cfg.cap, cfg.exclude, Members(applied), true)
                && Members(applied) == old(Members(applied)) + Children(d.nodes, link)
                && Swept(mid, View(), Unlisted(mid.base, link, Children(d.nodes, link)))
    {
      var seen;
      ok, seen := ApplyChildren(link, prefix, w0, w1, clean);
      mid := View();
      if ok {
        ok := DropUnlisted(link, prefix, seen, w0);
      }
    }

    /** The folders to re-list, and how many of the deletions concern tracked nodes. */
    method CollectChanges(changes: seq<Change>) returns (dirs: set<Link>, deletions: nat)
      modifies this`warnings
      ensures warnings >= old(warnings)
      ensures warnings == old(warnings) && AccountTree(d.nodes)
              ==> forall link | Announces(changes, d.nodes, link) :: link in dirs
      ensures deletions == TrackedDeletions(changes, db.nodes)
    {
      dirs, deletions := {}, 0;
      for i := 0 to |changes|
        invariant warnings >= old(warnings) && deletions == TrackedDeletions(changes[..i], db.nodes)
        invariant warnings == old(warnings) && AccountTree(d.nodes)
                  ==> forall j, link | 0 <= j < i && NamesFolder(changes[j], d.nodes, link) :: link in dirs
      {
        assert changes[..i + 1][..i] == changes[..i];
        match changes[i]
        case Removal(link) =>
          var found := db.GetNodeByID(link);
          if found.Some? {
            deletions := deletions + 1;
          }
        case Upsert(link, parent) =>
          if parent.Some? {
            dirs := dirs + {parent.value};
          } else {
            var resolved, above := d.LinkParent(link);
            if resolved {
              dirs := dirs + {above};
            } else {
              warnings := warnings + 1;
            }
          }
      }
      assert changes[..|changes|] == changes;
    }

    /** Re-list the folders in any order, whatever happens to each. */
    method RelistAll(dirs: set<Link>, ghost w0: World, ghost clean: bool) returns (ok: bool)
      requires Tree(folder.disk) && Naming(keep) && applied == [] && relisted == [] && Tracked()
      requires SafeState(w0, View(), localBefore, keep, applied)
      requires clean ==> Relistable(View(), localBefore, keep, cfg.cap, cfg.exclude)
      modifies this`conflicts, this`warnings, this`applied, this`relisted, this`log, this`faults, folder, db
      ensures Tree(folder.disk) && db.cursor == old(db.cursor) && warnings >= old(warnings)
      ensures Tracked() && SafeState(w0, View(), localBefore, keep, applied)
      ensures ok ==> OrderOf(relisted, dirs)
      ensures RelistInv(old(View()), View(), localBefore, keep, cfg.cap, cfg.exclude, relisted, Members(applied),
                        clean && ok && warnings == old(warnings))
    {
      hide *;
      ghost var w1 := View();
      var todo := dirs;
      RelistStarts(w1, localBefore, keep, cfg.cap, cfg.exclude, clean);
      NothingRelisted(dirs);
      NothingListed(d.nodes);
      while todo != {}
        invariant Tree(folder.disk) && db.cursor == old(db.cursor) && warnings >= old(warnings)
        invariant todo <= dirs && OrderOf(relisted, dirs - todo) && Tracked()
        invariant Unmoved(start) ==> ListedIn(d.nodes, applied, relisted)
        invariant SafeState(w0, View(), localBefore, keep, applied)
        invariant RelistInv(w1, View(), localBefore, keep, cfg.cap, cfg.exclude, relisted, Members(applied),
                            clean && warnings == old(warnings))
      {
        if * {
          RelistInvFailed(w1, View(), localBefore, keep, cfg.cap, cfg.exclude, relisted, Members(applied),
                          clean && warnings == old(warnings), false);
          return false; // cancelled
        }
        var link :| link in todo;
        ghost var warned, fine := warnings, clean && warnings == old(warnings);
        OneMoreRelisted(relisted, dirs, todo, link);
        RelistOne(link, w0, w1, fine);
        RelistInvFailed(w1, View(), localBefore, keep, cfg.cap, cfg.exclude, relisted, Members(applied),
                        fine && warnings == warned, clean && warnings == old(warnings));
        todo := todo - {link};
      }
      ok := true;
      assert dirs - {} == dirs;
    }

    method RelistOne(link: Link, ghost w0: World, ghost w1: World, ghost fine: bool)
      requires Tree(folder.disk) && Naming(keep) && Tracked() && SafeState(w0, View(), localBefore, keep, applied)
      requires RelistInv(w1, View(), localBefore, keep, cfg.cap, cfg.exclude, relisted, Members(applied), fine)
      requires link !in relisted && (fine ==> Relistable(w1, localBefore, keep, cfg.cap, cfg.exclude))
      requires Unmoved(start) ==> ListedIn(d.nodes, applied, relisted)
      modifies this`conflicts, this`warnings, this`applied, this`relisted, this`log, this`faults, folder, db
      ensures Tree(folder.disk) && db.cursor == old(db.cursor) && warnings >= old(warnings)
      ensures relisted == old(relisted) + [link] && (Unmoved(start) ==> ListedIn(d.nodes, applied, relisted))
      ensures Tracked() && SafeState(w0, View(), localBefore, keep, applied)
      ensures RelistInv(w1, View(), localBefore, keep, cfg.cap, cfg.exclude, relisted, Members(applied),
                        fine && warnings == old(warnings))
    {
      hide *;
      ghost var order := relisted;
      relisted := relisted + [link];
      var listed := RelistDir(link, w0, w1, order, fine);
      ghost var still := fine && listed && warnings == old(warnings);
      if !listed {
        warnings := warnings + 1;
      }
      RelistInvFailed(w1, View(), localBefore, keep, cfg.cap, cfg.exclude, relisted, Members(applied),
                      still, fine && warnings == old(warnings));
    }

    /** Replay a delta: deletions first, then every announced folder once. The cursor moves
    only when the replay came to its end. */
    method ApplyEvents(delta: Delta) returns (ok: bool)
      requires Tree(folder.disk) && Naming(keep) && Tracked() && replayed == delta.changes
      requires applied == [] && relisted == []
      modifies this`conflicts, this`warnings, this`applied, this`relisted, this`log, this`faults, folder, db
      ensures Tracked()
      ensures Tree(folder.disk) && warnings >= old(warnings)
      ensures SafeState(old(View()), View(), localBefore, keep, applied)
      ensures ok ==> NoRepeats(relisted)
      ensures ok && warnings == old(warnings)
              && Replayable(old(View()), localBefore, keep, cfg.cap, cfg.exclude, delta.changes)
              ==> && (Pulled(old(View()), localBefore, keep, View()) <==> Reaches(old(View()), relisted))
                  && (ParentsMet(old(View())) ==> Reaches(old(View()), relisted))
      ensures db.cursor == if ok && delta.cursor != "" then delta.cursor else old(db.cursor)
      ensures !CliffAllows(TrackedDeletions(delta.changes, old(db.nodes)), |old(db.nodes)|, cfg.guardPercent)
              ==> !ok && View() == old(View())
    {
      hide CliffAllows, TrackedDeletions, Tracked, AccountTree;
      hide SafeState, Naming, Tree, Replayable, Pulled, Reaches, ParentsMet, Announces, DeleteState, RelistInv,
          Relistable, Run;
      ghost var w0, warned := View(), warnings;
      SafeStateStart(w0, localBefore, keep);
      var dirs, deletions := CollectChanges(delta.changes);
      if !CliffAllows(deletions, |db.nodes|, cfg.guardPercent) {
        return false;
      }
      ghost var exact := warnings == warned && Replayable(w0, localBefore, keep, cfg.cap, cfg.exclude, delta.changes);
      ReplayableTree(w0, localBefore, keep, cfg.cap, cfg.exclude, delta.changes);
      ok := ReplayAndStore(delta, dirs, w0, exact);
    }

    /** Replay the changes, and move the cursor when that came to its end. */
    method ReplayAndStore(delta: Delta, dirs: set<Link>, ghost w0: World, ghost exact: bool) returns (ok: bool)
      requires Tree(folder.disk) && Naming(keep) && w0 == View() && applied == [] && relisted == []
      requires Tracked() && delta.changes == replayed
      requires exact ==> Replayable(w0, localBefore, keep, cfg.cap, cfg.exclude, delta.changes)
      requires exact ==> forall link | Announces(delta.changes, d.nodes, link) :: link in dirs
      modifies this`conflicts, this`warnings, this`applied, this`relisted, this`log, this`faults, folder, db
      ensures Tracked()
      ensures Tree(folder.disk) && warnings >= old(warnings)
      ensures SafeState(w0, View(), localBefore, keep, applied)
      ensures ok ==> NoRepeats(relisted)
      ensures ok && exact && warnings == old(warnings)
              ==> && (Pulled(w0, localBefore, keep, View()) <==> Reaches(w0, relisted))
                  && (ParentsMet(w0) ==> Reaches(w0, relisted))
      ensures db.cursor == if ok && delta.cursor != "" then delta.cursor else old(db.cursor)
    {
      hide SafeState, Naming, Tree, Replayable, Pulled, Reaches, ParentsMet, Announces, Tracked;
      ok := ReplayChanges(delta.changes, dirs, w0, exact);
      ghost var w := View();
      if ok && delta.cursor != "" && delta.cursor != db.cursor {
        ok := db.SetCursor(delta.cursor);
        assert View() == w;
      }
    }

    method ReplayChanges(changes: seq<Change>, dirs: set<Link>, ghost w0: World, ghost exact: bool)
      returns (ok: bool)
      requires Tree(folder.disk) && Naming(keep) && w0 == View() && applied == [] && relisted == []
      requires Tracked() && changes == replayed
      requires exact ==> Replayable(w0, localBefore, keep, cfg.cap, cfg.exclude, changes)
      requires exact ==> forall link | Announces(changes, d.nodes, link) :: link in dirs
      modifies this`conflicts, this`warnings, this`applied, this`relisted, this`log, this`faults, folder, db
      ensures Tracked()
      ensures Tree(folder.disk) && warnings >= old(warnings) && db.cursor == old(db.cursor)
      ensures SafeState(w0, View(), localBefore, keep, applied)
      ensures ok ==> NoRepeats(relisted)
      ensures ok && exact && warnings == old(warnings)
              ==> && (Pulled(w0, localBefore, keep, View()) <==> Reaches(w0, relisted))
                  && (ParentsMet(w0) ==> Reaches(w0, relisted))
    {
      ghost var warned := warnings;
      ApplyDeletions(changes, w0);
      ghost var w1, fine := View(), exact && warnings == warned;
      if fine {
        RelistableAfterDeletions(w0, w1, localBefore, keep, cfg.cap, cfg.exclude, changes);
      }
      ok := RelistAll(dirs, w0, fine);
      if ok && exact && warnings == warned {
        ReplayFinished(w0, w1, View(), localBefore, keep, cfg.cap, cfg.exclude, changes, relisted, Members(applied));
      }
    }

    // ----- scan.go

    /** Fill in a hash, unless size and time already prove the file unchanged. */
    method HashIfNeeded(p: Path, n: LocalNode, base: Option<Row>) returns (ok: bool, n': LocalNode)
      requires p in folder.disk && n == Describe(folder.disk[p])
      requires base.Some? ==> p in db.nodes && base.value == db.nodes[p]
      ensures n' == n.(hash := n'.hash) && Hashed(View(), p, n')
      ensures n.isDir ==> ok && n'.hash == Unknown
      ensures !n.isDir ==> n'.hash == (if !ok then Unknown else if ProvenUnchanged(n, base) then base.value.hash
                                       else Sum(folder.disk[p].content))
    {
      if n.isDir {
        return true, n;
      }
      if ProvenUnchanged(n, base) {
        return true, n.(hash := base.value.hash);
      }
      var h;
      ok, h := folder.HashFile(p);
      n' := n.(hash := h);
    }

    /** The scan before a pull: every entry hashed, or left unhashed with a warning. */
    method ScanHashed()
      modifies this`localBefore, this`warnings
      ensures warnings >= old(warnings)
      ensures forall p | p in localBefore :: Visible(p, cfg.exclude) && Hashed(View(), p, localBefore[p])
      ensures warnings == old(warnings) ==> Scanned(View(), localBefore, cfg.exclude)
      ensures warnings == old(warnings) ==> forall p | p in localBefore && !localBefore[p].isDir ::
          localBefore[p].hash.Sum?
    {
      hide Visible, Hashed, Scanned, Hidden;
      var local, warned;
      ghost var unreadable, unexamined;
      local, warned, unreadable, unexamined := folder.Scan(cfg.exclude);
      warnings := warnings + warned;
      localBefore := HashAll(local);
      if warned == 0 { ScanIsWhole(View(), localBefore, cfg.exclude); }
    }

    method HashAll(local: Scan) returns (out: Scan)
      requires forall p | p in local :: p in folder.disk && local[p] == Describe(folder.disk[p])
      modifies this`warnings
      ensures warnings >= old(warnings) && out.Keys == local.Keys
      ensures forall p | p in out :: Hashed(View(), p, out[p])
      ensures warnings == old(warnings) ==> forall p | p in out && !out[p].isDir :: out[p].hash.Sum?
    {
      hide Hashed;
      ghost var w := View();
      var todo := local.Keys;
      out := map[];
      while todo != {}
        invariant warnings >= old(warnings) && todo + out.Keys == local.Keys
        invariant forall p | p in out :: Hashed(w, p, out[p])
        invariant warnings == old(warnings) ==> forall p | p in out && !out[p].isDir :: out[p].hash.Sum?
      {
        var p :| p in todo;
        todo := todo - {p};
        var base := db.GetNode(p);
        var hashed, n := HashIfNeeded(p, local[p], base);
        out := out[p := n];
        if !hashed {
          warnings := warnings + 1;
        }
      }
    }

    // ----- one pull

    ghost method BeginPull(changes: seq<Change>)
      modifies this`applied, this`relisted, this`log, this`floor, this`start, this`replayed
      ensures Tracked() && start == View() && floor == faults && replayed == changes
      ensures applied == [] && relisted == [] && SafeState(View(), View(), localBefore, keep, applied)
    {
      hide Unmoved, Apart;
      ApartStart(View());
      applied, relisted, log, start, floor, replayed := [], [], [], View(), faults, changes;
      SafeStateStart(View(), localBefore, keep);
    }

    /** Walk when there is no cursor yet, or when the stream no longer reaches back to it;
    replay otherwise. */
    method Pull() returns (ok: bool)
      requires Tree(folder.disk) && Naming(keep)
      modifies this`conflicts, this`warnings, this`applied, this`relisted, this`log, this`faults, this`floor,
          this`start,
               this`replayed, folder, db
      ensures Tree(folder.disk) && warnings >= old(warnings)
      ensures Tracked() && start == old(View()) && floor == old(faults)
      ensures replayed == if Walks(old(db.cursor), d.feed) then [] else d.feed.changes
      ensures SafeState(old(View()), View(), localBefore, keep, applied)
      ensures (ok || db.cursor != old(db.cursor)) && warnings == old(warnings)
              && PullIsExact(old(View()), localBefore, keep, cfg, old(db.cursor), d.feed, relisted)
              ==> Pulled(old(View()), localBefore, keep, View())
      ensures !ok && db.cursor != old(db.cursor) ==> db.cursor == d.latest && Walks(old(db.cursor), d.feed)
      ensures Walks(old(db.cursor), d.feed) ==> NoRepeats(applied) && Members(applied) <= d.nodes.Keys
    {
      hide SafeState, Naming, Tree, Replayable, Ordinary, Pulled, Reaches, ParentsMet, Tracked;
      hide ReapsWithin, CliffAllows, TrackedDeletions;
      BeginPull(if Walks(db.cursor, d.feed) then [] else d.feed.changes);
      if db.cursor == "" {
        ghost var walked, done;
        ok, walked, done := FullMirror();
        return;
      }
      var delta;
      ok, delta := d.PollEvents();
      if !ok {
        return;
      }
      if delta.refresh {
        ghost var walked, done;
        ok, walked, done := FullMirror();
      } else {
        ok := ApplyEvents(delta);
      }
    }

    // ----- push.go: what has gone, and where to

    /** The baseline entries with no local counterpart, longest path first. */
    method FindLocalDeletions(base: Base, local: Scan) returns (gone: seq<Path>)
      ensures NoRepeats(gone) && Members(gone) == Vanished(base, local, folder.stubs)
      ensures forall p | p in gone :: p in base
      ensures LongestFirst(gone)
    {
      gone := [];
      var todo := set p | p in base && p !in local && (base[p].materialized || p !in folder.stubs);
      while todo != {}
        invariant NoRepeats(gone) && todo !! Members(gone)
        invariant todo + Members(gone) == Vanished(base, local, folder.stubs) && forall p | p in gone :: p in base
        invariant LongestFirst(gone)
        invariant forall i, p | 0 <= i < |gone| && p in todo :: |p| <= |gone[i]|
      {
        ghost var longest := LongestExists(todo);
        var p :| p in todo && forall q | q in todo :: |q| <= |p|;
        todo := todo - {p};
        gone := gone + [p];
      }
    }

    /** The new local files, in no particular order. */
    method ListCandidates(base: Base, local: Scan) returns (order: seq<Path>)
      ensures NoRepeats(order) && Members(order) == Candidates(base, local)
    {
      order := [];
      var todo := Candidates(base, local);
      while todo != {}
        invariant NoRepeats(order) && todo !! Members(order) && todo + Members(order) == Candidates(base, local)
      {
        var c :| c in todo;
        MembersMore(order, c);
        NoRepeatsMore(order, c);
        todo := todo - {c};
        order := order + [c];
      }
    }

    /** Pair vanished files with new local files: row by row, the first free candidate that
    matches, with one order of the candidates for all rows. Hashes read on the way stay in the
    scan. A row that nothing rivals for the file with its inode gets that file. */
    method DetectMoves(base: Base, local: Scan, gone: seq<Path>)
      returns (moves: map<Path, Path>, local': Scan, ghost order: seq<Path>, ghost unread: Unread)
      requires Rescanned(folder.disk, local, cfg.exclude)
      requires NoRepeats(gone) && forall p | p in gone :: p in base
      modifies this`moveTargets
      ensures NoRepeats(order) && Members(order) == Candidates(base, local)
      ensures moves == PairUp(base, folder.disk, unread, gone, order) && moveTargets == moves.Values
      ensures Pairing(base, folder.disk, Candidates(base, local), Members(gone), moves)
      ensures forall p, c | p in gone && c in Candidates(base, local) && Matches(base, folder.disk, unread, p, c) ::
                p in moves || c in moves.Values
      ensures forall p, c | p in gone && InodeIsOwn(base, local, Members(gone), p, c) :: p in moves && moves[p] == c
      ensures Rescanned(folder.disk, local', cfg.exclude) && MoreHashes(local, local')
    {
      var candidates := ListCandidates(base, local);
      order := candidates;
      moves, local', unread, moveTargets := map[], local, {}, {};
      MoreHashesReflexive(local);
      for i := 0 to |gone|
        invariant moves == PairUp(base, folder.disk, unread, gone[..i], candidates) && moveTargets == moves.Values
        invariant forall p, c | (p, c) in unread :: p in gone[..i]
        invariant Rescanned(folder.disk, local', cfg.exclude) && MoreHashes(local, local')
        invariant Candidates(base, local') == Members(candidates)
      {
        assert gone[..i + 1][..i] == gone[..i];
        var found;
        ghost var failed, before := {}, local';
        found, local', failed := MatchOne(gone[i], base, local', candidates);
        MoreHashesTransitive(local, before, local');
        moves := NextPair(base, gone, candidates, i, moves, unread, failed, found);
        unread := unread + failed;
        moveTargets := if found.Some? then moveTargets + {found.value} else moveTargets;
      }
      assert gone[..|gone|] == gone;
      PairUpPairs(base, folder.disk, unread, gone, candidates);
      PairedAsSure(base, local, gone, candidates, unread);
    }

    /** One row's match joins the pairing. */
    method NextPair(ghost base: Base, gone: seq<Path>, ghost candidates: seq<Path>, i: nat, moves: map<Path, Path>,
                    ghost unread: Unread, ghost failed: Unread, found: Option<Path>)
      returns (moves': map<Path, Path>)
      requires i < |gone| && NoRepeats(gone)
      requires moves == PairUp(base, folder.disk, unread, gone[..i], candidates)
      requires forall p, c | (p, c) in unread :: p in gone[..i]
      requires forall p, c | (p, c) in failed :: p == gone[i]
      requires found == FirstMatch(base, folder.disk, failed, gone[i], candidates, moves.Values)
      ensures moves' == PairUp(base, folder.disk, unread + failed, gone[..i + 1], candidates)
      ensures moves'.Values == if found.Some? then moves.Values + {found.value} else moves.Values
    {
      hide Matches;
      assert gone[..i + 1][..i] == gone[..i] && gone[..i + 1][i] == gone[i];
      PairUpSame(base, folder.disk, unread, unread + failed, gone[..i], candidates);
      FirstMatchSame(base, folder.disk, failed, unread + failed, gone[i], candidates, moves.Values);
      PairUpPairs(base, folder.disk, unread, gone[..i], candidates);
      moves' := moves;
      if found.Some? {
        OneMorePair(moves, gone[i], found.value);
        moves' := moves[gone[i] := found.value];
      }
    }

    /** The new file `c` has the inode of the vanished row, and nothing else matches either. */
    ghost predicate InodeIsOwn(base: Base, local: Scan, gone: set<Path>, p: Path, c: Path)
      reads folder
    {
      && c in Candidates(base, local) && IsFile(folder.disk, c) && p in base && !base[p].isDir
      && SameInode(base[p], folder.disk[c]) && Unrivalled(base, folder.disk, gone, Candidates(base, local), p, c)
    }

    lemma PairedAsSure(base: Base, local: Scan, gone: seq<Path>, order: seq<Path>, unread: Unread)
      requires NoRepeats(gone) && Members(order) == Candidates(base, local)
      ensures var moves := PairUp(base, folder.disk, unread, gone, order);
        && (forall p, c | p in gone && c in Candidates(base, local) && Matches(base, folder.disk, unread, p, c) ::
              p in moves || c in moves.Values)
        && (forall p, c | p in gone && InodeIsOwn(base, local, Members(gone), p, c) :: p in moves && moves[p] == c)
    {
      hide Matches, Unrivalled, Candidates;
      forall p, c | p in gone && c in Members(order) && Matches(base, folder.disk, unread, p, c)
        ensures var moves := PairUp(base, folder.disk, unread, gone, order); p in moves || c in moves.Values
      {
        PairUpMissesNothing(base, folder.disk, unread, gone, order, p, c);
      }
      forall p, c | p in gone && InodeIsOwn(base, local, Members(gone), p, c)
        ensures PairsWith(base, folder.disk, unread, gone, order, p, c)
      {
        UnrivalledIsPaired(base, folder.disk, unread, gone, order, p, c);
      }
    }

    /** Look for the place one vanished file went to. */
    method MatchOne(from: Path, base: Base, local: Scan, candidates: seq<Path>)
      returns (found: Option<Path>, local': Scan, ghost failed: Unread)
      requires from in base && Rescanned(folder.disk, local, cfg.exclude)
      requires NoRepeats(candidates) && Members(candidates) == Candidates(base, local)
      ensures found == FirstMatch(base, folder.disk, failed, from, candidates, moveTargets)
      ensures forall p, c | (p, c) in failed :: p == from
      ensures Rescanned(folder.disk, local', cfg.exclude) && MoreHashes(local, local')
      ensures Candidates(base, local') == Candidates(base, local)
    {
      hide Rescanned, MoreHashes, Candidates, FirstMatch;
      found, local', failed := None, local, {};
      MoreHashesReflexive(local);
      if base[from].isDir {
        NothingToMatch(base, folder.disk, failed, from, candidates, moveTargets);
        return;
      }
      for j := 0 to |candidates|
        invariant found == None && Candidates(base, local') == Members(candidates)
        invariant forall p, c | (p, c) in failed :: p == from && c in candidates[..j]
        invariant Rescanned(folder.disk, local', cfg.exclude) && MoreHashes(local, local')
        invariant forall k | 0 <= k < j ::
                    candidates[k] in moveTargets || !Matches(base, folder.disk, failed, from, candidates[k])
      {
        hide Matches;
        var c := candidates[j];
        if c !in moveTargets {
          var hit;
          ghost var before, refused := failed, {};
          hit, local', refused := Examine(from, base, c, local, local', failed);
          failed := failed + refused;
          FewerMatch(base, folder.disk, before, failed, from);
          if hit {
            FirstMatchFrom(base, folder.disk, failed, from, candidates, moveTargets, j);
            FirstIsMatch(base, folder.disk, failed, from, candidates[j..], moveTargets);
            return Some(c), local', failed;
          }
        }
      }
      FirstMatchFrom(base, folder.disk, failed, from, candidates, moveTargets, |candidates|);
      NothingToMatch(base, folder.disk, failed, from, candidates[|candidates|..], moveTargets);
    }

    /** Compare one candidate with a row, reading its content where only that can tell. */
    method Examine(from: Path, base: Base, c: Path, ghost local0: Scan, local: Scan, ghost failed: Unread)
      returns (hit: bool, local': Scan, ghost refused: Unread)
      requires from in base && !base[from].isDir && c in Candidates(base, local)
      requires Rescanned(folder.disk, local, cfg.exclude) && MoreHashes(local0, local)
      requires (from, c) !in failed
      ensures refused <= {(from, c)} && (hit <==> Matches(base, folder.disk, failed + refused, from, c))
      ensures Rescanned(folder.disk, local', cfg.exclude) && MoreHashes(local0, local')
      ensures Candidates(base, local') == Candidates(base, local)
    {
      hide MoreHashes;
      var row, n := base[from], local[c];
      local', refused := local, {};
      if row.inode != 0 && n.inode == row.inode {
        return true, local, {};
      }
      if row.hash.Sum? && n.size == row.size {
        if n.hash.Unknown? {
          var read;
          read, n := HashIfNeeded(c, n, None);
          HashFilled(base, folder.disk, local0, local, cfg.exclude, c, n);
          local' := local[c := n];
          refused := if read then {} else {(from, c)};
        }
        return n.hash == row.hash, local', refused;
      }
      hit := false;
    }

    // ----- push.go: requests to the account

    ghost predicate Going(job: Job, pending: set<Path>, todo: set<Path>, exact: bool)
      reads folder, db`nodes, d`nodes, d`used, this`conflicts, this`granted
    {
      Afoot(job, View(), d.used, cfg.exclude, granted, pending, todo, exact)
    }

    ghost predicate Ready(job: Job)
      reads folder
    {
      Fits(job, folder.disk, cfg.exclude)
    }

    ghost function Now(): Snap
      reads db`nodes, d`calls, d`nodes
    {
      Snap(db.nodes, d.calls, d.nodes)
    }

    ghost predicate Ahead(job: Job, a: Snap, spent: set<Path>)
      reads folder, db`nodes, d`calls, d`nodes
    {
      Onward(job.plan, folder.disk, cfg.exclude, a, Now(), spent)
    }

    /** The link of a path's parent folder, which is created first where it has no row. */
    method RemoteParentID(p: Path, ghost job: Job, ghost pending: set<Path>, ghost todo: set<Path>, ghost exact: bool)
      returns (ok: bool, link: Link)
      requires Ready(job) && Live(folder.disk, cfg.exclude, p) && Going(job, pending, todo, exact)
      modifies d`nodes, d`calls, d`used, db`nodes
      ensures ok ==> ParentRow(db.nodes, p, link)
      ensures Going(job, pending, todo, exact && ok) && Ahead(job, old(Now()), {})
      ensures OnlyFolderRows(old(db.nodes), db.nodes, folder.disk)
      decreases |p|, 0
    {
      OnwardNow(job.plan, folder.disk, cfg.exclude, Now());
      if LastIndex(p, '/') < 0 {
        return true, ROOT_LINK;
      }
      FitsFolder(job, folder.disk, cfg.exclude);
      ParentIsFolder(p);
      var parent := ParentOf(p);
      var row := db.GetNode(parent);
      if row.Some? && row.value.isDir {
        return true, row.value.link;
      }
      ok := CreateRemoteDir(parent, job, pending, todo, exact);
      link := "";
      if ok {
        row := db.GetNode(parent);
        ok := row.Some?;
        link := if ok then row.value.link else "";
      }
    }

    lemma ParentIsFolder(p: Path)
      requires Tree(folder.disk) && p in folder.disk && Visible(p, cfg.exclude) && LastIndex(p, '/') >= 0
      ensures ParentOf(p) != "" && IsDir(folder.disk, ParentOf(p)) && Visible(ParentOf(p), cfg.exclude)
    {
      ValidStart(p);
    }

    /** Create a local folder remotely. */
    method CreateRemoteDir(p: Path, ghost job: Job, ghost pending: set<Path>, ghost todo: set<Path>, ghost exact: bool)
      returns (ok: bool)
      requires Ready(job) && IsDir(folder.disk, p) && Visible(p, cfg.exclude) && Going(job, pending, todo, exact)
      modifies d`nodes, d`calls, d`used, db`nodes
      ensures ok ==> p in db.nodes && db.nodes[p].isDir
      ensures Going(job, pending, todo, exact && ok) && (exact && ok ==> InSync(View(), p))
      ensures Ahead(job, old(Now()), {}) && OnlyFolderRows(old(db.nodes), db.nodes, folder.disk)
      ensures ok ==> JustSent(p, true, old(d.calls), d.calls)
      decreases |p|, 1
    {
      ghost var a := Now();
      var parent;
      ok, parent := RemoteParentID(p, job, pending, todo, exact);
      if !ok {
        return;
      }
      ghost var w, used, b := View(), d.used, Now();
      var link;
      ghost var made, dir;
      ok, link, made, dir := MkdirAndRecord(p, parent);
      FitsFolder(job, folder.disk, cfg.exclude);
      OnwardMkdir(job.plan, folder.disk, cfg.exclude, b, Now(), p, parent);
      OnwardAfterFolders(job.plan, folder.disk, cfg.exclude, a, b, Now(), {});
      OnlyFolderRowsTrans(a.rows, b.rows, db.nodes, folder.disk);
      MkdirEnds(job, w, View(), used, d.used, cfg.exclude, granted, pending, todo, p, link, parent, dir, made, ok,
                exact);
    }

    /** Ask for the folder and record it. */
    method MkdirAndRecord(p: Path, parent: Link) returns (ok: bool, link: Link, ghost made: bool, ghost dir: Path)
      requires IsDir(folder.disk, p) && Visible(p, cfg.exclude)
      modifies d`nodes, d`calls, d`used, db`nodes
      ensures d.calls == old(d.calls) + [CallMkdir(p, parent, BaseName(p))]
      ensures ok ==> made && p in db.nodes && db.nodes[p].isDir
      ensures if made then MkdirOutcome(old(View()), View(), p, link, parent, dir, ok)
                           && MayGive(old(d.nodes), old(d.used), p, dir, link) && d.used == old(d.used) + {link}
              else View() == old(View()) && d.used == old(d.used)
      ensures RowsKept(old(db.nodes), db.nodes, folder.disk, cfg.exclude) && LinksKept(old(d.nodes), d.nodes)
      ensures OnlyFolderRows(old(db.nodes), db.nodes, folder.disk)
    {
      ok, link, dir := d.Mkdir(parent, BaseName(p), p);
      made := ok;
      if ok {
        ok := db.PutNode(p, DirRow(link, parent));
      }
    }

    /** Send one local entry up if it needs sending. Only the baseline as it was when the push
    began says whether the entry is tracked. */
    method PushNode(p: Path, n0: LocalNode, byPath: Base, ghost job: Job, ghost pending: set<Path>,
                    ghost todo: set<Path>, ghost exact: bool)
      returns (ok: bool)
      requires Ready(job) && Live(folder.disk, cfg.exclude, p) && Read(folder.disk, p, n0)
      requires Going(job, pending, todo, exact) && byPath == job.w1.base
      requires p in todo && (IsFile(folder.disk, p) && !InStep(job.w1, p, false) ==> p in job.plan.files)
      modifies d`nodes, d`calls, d`used, db`nodes
      ensures Going(job, pending, todo - {p}, exact && ok) && Ahead(job, old(Now()), {p})
      ensures InStep(job.w1, p, n0.isDir) ==> View() == old(View()) && d.calls == old(d.calls)
      ensures ok ==> Served(job.w1, p, n0.isDir, old(d.calls), d.calls)
      ensures n0.isDir ==> OnlyFolderRows(old(db.nodes), db.nodes, folder.disk)
    {
      var base := if p in byPath then Some(byPath[p]) else None;
      OnwardNow(job.plan, folder.disk, cfg.exclude, Now());
      OnwardMore(job.plan, folder.disk, cfg.exclude, Now(), Now(), {}, {p});
      FitsFolder(job, folder.disk, cfg.exclude);
      if n0.isDir {
        ok := PushDir(p, base, job, pending, todo, exact);
        return;
      }
      if base.Some? && !base.value.materialized {
        NothingToSend(job, View(), d.used, cfg.exclude, granted, pending, todo, p, exact);
        return true;
      }
      var n := n0;
      if n.hash.Unknown? {
        ok, n := HashIfNeeded(p, n, None);
        if !ok {
          return;
        }
      }
      if base.Some? && n.hash == base.value.hash {
        NothingToSend(job, View(), d.used, cfg.exclude, granted, pending, todo, p, exact);
        return true;
      }
      ok := UploadNode(p, n, job, pending, todo, exact);
    }

    /** A folder is created if it was not tracked. */
    method PushDir(p: Path, base: Option<Row>, ghost job: Job, ghost pending: set<Path>, ghost todo: set<Path>,
                   ghost exact: bool)
      returns (ok: bool)
      requires Ready(job) && IsDir(folder.disk, p) && Visible(p, cfg.exclude) && Going(job, pending, todo, exact)
      requires p in todo && base == if p in job.w1.base then Some(job.w1.base[p]) else None
      modifies d`nodes, d`calls, d`used, db`nodes
      ensures Going(job, pending, todo - {p}, exact && ok) && Ahead(job, old(Now()), {p})
      ensures base.Some? ==> View() == old(View()) && d.calls == old(d.calls)
      ensures ok && base.None? ==> JustSent(p, true, old(d.calls), d.calls)
      ensures OnlyFolderRows(old(db.nodes), db.nodes, folder.disk)
    {
      ghost var a := Now();
      if base.Some? {
        OnwardNow(job.plan, folder.disk, cfg.exclude, a);
        OnlyFolderRowsNow(a.rows, db.nodes, folder.disk);
        NothingToSend(job, View(), d.used, cfg.exclude, granted, pending, todo, p, exact);
        ok := true;
      } else {
        ok := CreateRemoteDir(p, job, pending, todo, exact);
        NowInSync(job, View(), d.used, cfg.exclude, granted, pending, todo, p, exact && ok);
      }
      OnwardMore(job.plan, folder.disk, cfg.exclude, a, Now(), {}, {p});
    }

    method UploadNode(p: Path, n: LocalNode, ghost job: Job, ghost pending: set<Path>, ghost todo: set<Path>,
                      ghost exact: bool)
      returns (ok: bool)
      requires Ready(job) && IsFile(folder.disk, p) && Visible(p, cfg.exclude) && Read(folder.disk, p, n) && n.hash.Sum?
      requires Going(job, pending, todo, exact) && p in job.plan.files
      modifies d`nodes, d`calls, d`used, db`nodes
      ensures Going(job, pending, todo - {p}, exact && ok) && Ahead(job, old(Now()), {p})
      ensures ok ==> JustSent(p, false, old(d.calls), d.calls)
    {
      ghost var a := Now();
      var parent;
      ok, parent := RemoteParentID(p, job, pending, todo, exact);
      ghost var w, used, b := View(), d.used, Now();
      OnwardMore(job.plan, folder.disk, cfg.exclude, a, b, {}, {p});
      if !ok {
        return;
      }
      var link;
      ghost var sent, dir;
      ok, link, sent, dir := UploadAndRecord(p, n, parent);
      OnwardUpload(job.plan, folder.disk, cfg.exclude, b, Now(), p, parent);
      OnwardAfterFolders(job.plan, folder.disk, cfg.exclude, a, b, Now(), {p});
      UploadEnds(job, w, View(), used, d.used, cfg.exclude, granted, pending, todo, p, link, parent, dir, sent, ok,
                 exact);
    }

    /** Upload the file and record it. */
    method UploadAndRecord(p: Path, n: LocalNode, parent: Link)
      returns (ok: bool, link: Link, ghost sent: bool, ghost dir: Path)
      requires IsFile(folder.disk, p) && Visible(p, cfg.exclude) && Read(folder.disk, p, n) && n.hash.Sum?
      modifies d`nodes, d`calls, d`used, db`nodes
      ensures d.calls == old(d.calls) || d.calls == old(d.calls) + [CallUpload(p, parent, BaseName(p))]
      ensures ok ==> sent && d.calls != old(d.calls)
      ensures if sent then UploadOutcome(old(View()), View(), p, link, parent, dir, ok)
                           && MayGive(old(d.nodes), old(d.used), p, dir, link) && d.used == old(d.used) + {link}
              else View() == old(View()) && d.used == old(d.used)
      ensures RowsKept(old(db.nodes), db.nodes, folder.disk, cfg.exclude) && LinksKept(old(d.nodes), d.nodes)
    {
      ok, sent, link, dir := false, false, "", "";
      if * {
        return; // the file could not be opened
      }
      ok, link, dir := d.Upload(parent, BaseName(p), folder.disk[p].content, n.mtime, p);
      sent := ok;
      if ok {
        ok := db.PutNode(p, Row(link, parent, false, n.hash, n.size, n.mtime, n.inode, true));
      }
    }

    /** Relocate a node in the account instead of uploading it again. */
    method ApplyMove(from: Path, row: Row, to: Path, n: LocalNode, ghost job: Job, ghost pending: set<Path>,
                     ghost todo: set<Path>, ghost exact: bool)
      returns (ok: bool)
      requires Ready(job) && Going(job, pending, todo, exact) && (exact ==> HonestInodes(job.w1))
      requires from in job.plan.moves && job.plan.moves[from] == to && from !in granted
      requires from in job.w1.base && job.w1.base[from] == row && !row.isDir && to !in job.w1.base
      requires IsFile(folder.disk, to) && Visible(to, cfg.exclude) && Read(folder.disk, to, n)
      requires exact || job.linked ==>
                 from in db.nodes && db.nodes[from] == row && !Live(folder.disk, cfg.exclude, from)
      requires exact ==> from in pending && to in todo && Matches(job.w1.base, folder.disk, {}, from, to)
      modifies this`granted, d`nodes, d`calls, d`used, db`nodes
      ensures Going(job, pending - {from}, todo - {to}, exact && ok)
      ensures RowsKept(old(db.nodes) - {from}, db.nodes, folder.disk, cfg.exclude)
      ensures job.plan.Issued(old(d.calls), d.calls, {from})
      ensures granted == old(granted) || granted == old(granted) + {from}
      ensures from !in granted ==> !ok && LinksKept(old(d.nodes), d.nodes)
    {
      hide Visible, MoveOutcome, RowsKept, ParentRow, Matches;
      ghost var a := Now();
      var parent;
      ok, parent := RemoteParentID(to, job, pending, todo, exact);
      ghost var w, b := View(), Now();
      OnwardMove(job.plan, folder.disk, cfg.exclude, a, b, from);
      FitsFolder(job, folder.disk, cfg.exclude);
      if exact || job.linked { RowsKeptAt(a.rows, b.rows, folder.disk, cfg.exclude, from); }
      if !ok {
        return;
      }
      ghost var sent, forgotten, at, dir;
      ok, sent, forgotten, at, dir := MoveAndRecord(from, row, to, n, parent);
      IssuedMove(job.plan, b.calls, from, row.link, parent);
      IssuedThen(job.plan, a.calls, b.calls, d.calls, {}, {from});
      RowsKeptTrans(a.rows - {from}, b.rows - {from}, db.nodes, folder.disk, cfg.exclude);
      MoveEnds(job, w, View(), d.used, cfg.exclude, granted, pending, todo, from, at, n, parent, dir, sent,
               forgotten, ok, exact);
      granted := if sent then granted + {from} else granted;
      assert {} + {from} == {from};
    }

    static lemma OnwardMove(plan: Plan, disk: Disk, exclude: seq<string>, a: Snap, b: Snap, from: Path)
      requires Onward(plan, disk, exclude, a, b, {})
      ensures plan.Issued(a.calls, b.calls, {}) && plan.Issued(a.calls, b.calls, {from}) && LinksKept(a.nodes, b.nodes)
      ensures RowsKept(a.rows, b.rows, disk, exclude)
      ensures RowsKept(a.rows - {from}, b.rows - {from}, disk, exclude)
              && RowsKept(a.rows - {from}, b.rows, disk, exclude)
    {
      RowsKeptLess(a.rows, b.rows, disk, exclude, from);
    }

    /** Move the node, forget the old row and record the new one. */
    method MoveAndRecord(from: Path, row: Row, to: Path, n: LocalNode, parent: Link)
      returns (ok: bool, ghost sent: bool, ghost forgotten: bool, ghost at: Path, ghost dir: Path)
      requires Live(folder.disk, cfg.exclude, to)
      modifies d`nodes, d`calls, db`nodes
      ensures d.calls == old(d.calls) + [CallMove(from, row.link, parent, BaseName(to))]
      ensures ok ==> sent && forgotten
      ensures if sent then MoveOutcome(old(View()), View(), row, from, at, to, n, parent, dir, forgotten, ok)
              else View() == old(View())
      ensures RowsKept(old(db.nodes) - {from}, db.nodes, folder.disk, cfg.exclude)
    {
      hide FolderAt, Join, BaseName, Visible;
      forgotten := false;
      ok, at, dir := d.Move(row.link, parent, BaseName(to), from);
      sent := ok;
      if ok {
        ok := db.DeleteNode(from);
        forgotten := ok;
        if ok {
          ok := db.PutNode(to, MovedRow(row, parent, n));
        }
      }
    }

    /** Propagate a local deletion to the account's trash. */
    method TrashRemote(p: Path, row: Row, ghost job: Job, ghost pending: set<Path>, ghost todo: set<Path>,
                       ghost exact: bool)
      returns (ok: bool)
      requires Ready(job) && Going(job, pending, todo, exact)
      requires p in job.plan.due && p in job.w1.base && job.w1.base[p] == row
      requires exact || job.linked ==> p in db.nodes && db.nodes[p] == row && !Live(folder.disk, cfg.exclude, p)
      requires exact ==> CaseClear(job.w1.base.Keys, job.w1.base.Keys + job.w1.disk.Keys) && p in pending
      requires exact ==> forall q | q in pending :: |q| <= |p|
      modifies d`nodes, d`calls, db`nodes
      ensures Going(job, pending - {p}, todo, exact && ok) && d.calls == old(d.calls) + [CallTrash(p, row.link)]
      ensures db.nodes == old(db.nodes) || db.nodes == Forget(old(db.nodes), p, row.isDir)
      ensures ok || db.nodes != old(db.nodes) ==>
                exists at :: at in old(d.nodes) && old(d.nodes)[at].link == row.link &&
                             d.nodes == Without(old(d.nodes), at)
    {
      ghost var w := View();
      ghost var at;
      ok, at := d.Trash(row.link, p);
      ghost var sent := ok;
      if ok {
        if row.isDir {
          ok := db.DeleteSubtree(p);
        } else {
          ok := db.DeleteNode(p);
        }
      }
      assert sent ==> TrashOutcome(w, View(), row, p, at, ok);
      TrashEnds(job, w, View(), d.used, cfg.exclude, granted, pending, todo, p, at, sent, ok, exact);
    }

    // ----- push.go: one push

    /** Carry the moves out, in any order, whatever happens to each. */
    method MoveAll(moves: map<Path, Path>, byPath: Base, local: Scan, ghost gone: set<Path>, ghost job: Job,
                   ghost exact: bool)
      requires Ready(job) && job.w1 == View() && byPath == job.w1.base && job.plan.moves == moves && granted == {}
      requires Rescanned(folder.disk, local, cfg.exclude)
      requires Pairing(byPath, folder.disk, Candidates(byPath, local), gone, moves)
      requires Going(job, gone, local.Keys, exact) && (exact ==> HonestInodes(job.w1))
      requires exact || job.linked ==> forall p | p in gone :: !Live(folder.disk, cfg.exclude, p)
      modifies this`warnings, this`granted, d`nodes, d`calls, d`used, db`nodes
      ensures Going(job, gone - moves.Keys, local.Keys - moves.Values, exact && warnings == old(warnings))
      ensures RowsKept(byPath - moves.Keys, db.nodes, folder.disk, cfg.exclude)
      ensures job.plan.Issued(old(d.calls), d.calls, moves.Keys) && warnings >= old(warnings)
      ensures warnings == old(warnings) ==> granted == moves.Keys
      ensures moves == map[] ==> View() == old(View()) && d.calls == old(d.calls) && warnings == old(warnings)
    {
      hide Afoot, Fits, HonestInodes, Rescanned, Visible, Targets, Pairing, Candidates, RowsKept, Plan.Issued;
      var left := moves.Keys;
      ghost var done: set<Path> := {};
      AllMoved(moves);
      NothingIssued(job.plan, d.calls, byPath, folder.disk, cfg.exclude);
      assert gone - {} == gone && local.Keys - {} == local.Keys && byPath - {} == byPath;
      while left != {}
        invariant left + done == moves.Keys && left !! done && warnings >= old(warnings)
        invariant granted <= done && (warnings == old(warnings) ==> granted == done)
        invariant Going(job, gone - done, local.Keys - Targets(moves, done), exact && warnings == old(warnings))
        invariant RowsKept(byPath - done, db.nodes, folder.disk, cfg.exclude)
        invariant job.plan.Issued(old(d.calls), d.calls, done)
        invariant moves == map[] ==> View() == old(View()) && d.calls == old(d.calls) && warnings == old(warnings)
      {
        var from :| from in left;
        left := left - {from};
        OneMoreMove(byPath, folder.disk, local, gone, moves, done, from);
        ghost var calls := d.calls;
        MoveOne(from, moves, byPath, local, gone, done, job, exact && warnings == old(warnings));
        IssuedThen(job.plan, old(d.calls), calls, d.calls, done, {from});
        done := done + {from};
      }
      assert done == moves.Keys;
    }

    method MoveOne(from: Path, moves: map<Path, Path>, byPath: Base, local: Scan, ghost gone: set<Path>,
                   ghost done: set<Path>, ghost job: Job, ghost exact: bool)
      requires Ready(job) && byPath == job.w1.base && job.plan.moves == moves && from in moves && from !in done
      requires Rescanned(folder.disk, local, cfg.exclude) && granted <= done
      requires Pairing(byPath, folder.disk, Candidates(byPath, local), gone, moves)
      requires Going(job, gone - done, local.Keys - Targets(moves, done), exact) && (exact ==> HonestInodes(job.w1))
      requires exact || job.linked ==> !Live(folder.disk, cfg.exclude, from)
      requires from in gone - done && moves[from] in local.Keys - Targets(moves, done)
      requires RowsKept(byPath - done, db.nodes, folder.disk, cfg.exclude)
      modifies this`warnings, this`granted, d`nodes, d`calls, d`used, db`nodes
      ensures Going(job, gone - done - {from}, local.Keys - Targets(moves, done) - {moves[from]},
                    exact && warnings == old(warnings))
      ensures RowsKept(byPath - (done + {from}), db.nodes, folder.disk, cfg.exclude)
      ensures job.plan.Issued(old(d.calls), d.calls, {from}) && warnings >= old(warnings)
      ensures granted == old(granted) || granted == old(granted) + {from}
      ensures warnings == old(warnings) ==> granted == old(granted) + {from}
    {
      hide Visible, LinksKept;
      var to := moves[from];
      assert from in byPath && Matches(byPath, folder.disk, {}, from, to) && to in Candidates(byPath, local);
      RowsKeptAt(byPath - done, db.nodes, folder.disk, cfg.exclude, from);
      RowsKeptLess(byPath - done, db.nodes, folder.disk, cfg.exclude, from);
      ghost var rows := db.nodes;
      var ok := ApplyMove(from, byPath[from], to, local[to], job, gone - done, local.Keys - Targets(moves, done),
                          exact);
      RowsKeptTrans(byPath - done - {from}, rows - {from}, db.nodes, folder.disk, cfg.exclude);
      assert byPath - done - {from} == byPath - (done + {from});
      if !ok {
        warnings := warnings + 1;
      }
    }

    /** Trash the vanished rows that did not move, longest path first, whatever happens to
    each. Every one of them is asked for. */
    method TrashAll(gone: seq<Path>, moves: map<Path, Path>, byPath: Base, ghost todo: set<Path>, ghost job: Job,
                    ghost exact: bool)
      requires Ready(job) && byPath == job.w1.base && job.plan.moves == moves
      requires NoRepeats(gone) && LongestFirst(gone)
      requires job.plan.due == Members(gone) - moves.Keys && forall p | p in job.plan.due :: p in byPath
      requires Going(job, Members(gone) - moves.Keys, todo, exact)
      requires exact ==> CaseClear(job.w1.base.Keys, job.w1.base.Keys + job.w1.disk.Keys)
      requires exact || job.linked ==> RowsAre(byPath, job.plan.due, db.nodes)
      requires exact || job.linked ==> forall p | p in job.plan.due :: !Live(folder.disk, cfg.exclude, p)
      modifies this`warnings, d`nodes, d`calls, db`nodes
      ensures Going(job, {}, todo, exact && warnings == old(warnings))
      ensures RowsLost(old(db.nodes), db.nodes, job.plan.due)
      ensures d.calls == old(d.calls) + TrashCalls(byPath, gone, moves) && warnings >= old(warnings)
      ensures gone == [] ==> View() == old(View())
    {
      hide Afoot, Fits, CaseClear, Visible, Rest, RowsAre, RowsLost, NoRepeats, LongestFirst, Members, Tree;
      ghost var rows, w0 := db.nodes, View();
      AllTrashed(gone, moves);
      NoRowsLost(rows, job.plan.due);
      assert gone[..0] == [];
      for i := 0 to |gone|
        invariant warnings >= old(warnings) && d.calls == old(d.calls) + TrashCalls(byPath, gone[..i], moves)
        invariant Going(job, Rest(gone, moves, i), todo, exact && warnings == old(warnings))
        invariant (exact && warnings == old(warnings)) || job.linked ==> RowsAre(byPath, Rest(gone, moves, i), db.nodes)
        invariant RowsLost(rows, db.nodes, job.plan.due)
        invariant i == 0 ==> View() == w0
      {
        OneMoreGone(gone, moves, i);
        assert gone[..i + 1][..i] == gone[..i] && gone[..i + 1][i] == gone[i];
        if gone[i] !in moves {
          TrashOne(gone[i], byPath, Rest(gone, moves, i), todo, job, exact && warnings == old(warnings), rows);
        }
      }
      assert gone[..|gone|] == gone;
    }

    method TrashOne(p: Path, byPath: Base, ghost due: set<Path>, ghost todo: set<Path>, ghost job: Job,
                    ghost exact: bool, ghost rows: Base)
      requires Ready(job) && byPath == job.w1.base && Going(job, due, todo, exact)
      requires p in due && p in job.plan.due && p in byPath && forall q | q in due :: |q| <= |p|
      requires exact ==> CaseClear(job.w1.base.Keys, job.w1.base.Keys + job.w1.disk.Keys)
      requires exact || job.linked ==> RowsAre(byPath, due, db.nodes) && !Live(folder.disk, cfg.exclude, p)
      requires RowsLost(rows, db.nodes, job.plan.due)
      modifies this`warnings, d`nodes, d`calls, db`nodes
      ensures Going(job, due - {p}, todo, exact && warnings == old(warnings))
      ensures exact || job.linked ==> RowsAre(byPath, due - {p}, db.nodes)
      ensures RowsLost(rows, db.nodes, job.plan.due)
      ensures d.calls == old(d.calls) + [CallTrash(p, byPath[p].link)] && warnings >= old(warnings)
    {
      ghost var now := db.nodes;
      var ok := TrashRemote(p, byPath[p], job, due, todo, exact);
      if exact || job.linked { TrashedRowsStay(byPath, due, now, db.nodes, p, byPath[p].isDir); }
      RowsLostStep(rows, now, job.plan.due, p, byPath[p].isDir);
      if !ok {
        warnings := warnings + 1;
      }
    }

    /** Send up what needs sending, a folder before what it holds. Entries of one depth come
    in any order. */
    method UploadAll(local: Scan, byPath: Base, ghost job: Job, ghost exact: bool) returns (ok: bool)
      requires Ready(job) && byPath == job.w1.base && Rescanned(folder.disk, local, cfg.exclude)
      requires Going(job, {}, local.Keys - moveTargets, exact)
      requires forall p | p in local && p !in moveTargets && IsFile(folder.disk, p) && !InStep(job.w1, p, false) ::
                 p in job.plan.files
      modifies this`warnings, d`nodes, d`calls, d`used, db`nodes
      ensures Going(job, {}, {}, exact && ok && warnings == old(warnings)) && warnings >= old(warnings)
      ensures Ahead(job, old(Now()), local.Keys)
      ensures AllInStep(job.w1, local) ==> View() == old(View()) && d.calls == old(d.calls)
      ensures FilesInStep(job.w1, local) ==> OnlyFolderRows(old(db.nodes), db.nodes, folder.disk)
      ensures ok && warnings == old(warnings) ==>
                ServedBut(moveTargets, job.w1, local, old(d.calls), d.calls)
    {
      hide OnlyFolderRows, Sending, ServedBut, InStep;
      ghost var a, w0 := Now(), View();
      FitsFolder(job, folder.disk, cfg.exclude);
      var todo := local.Keys;
      SendingStarts(job.plan, cfg.exclude, job.w1, local, a, w0);
      NothingServed(job.w1, local, moveTargets, a.calls);
      while todo != {}
        invariant todo <= local.Keys && warnings >= old(warnings)
        invariant Going(job, {}, todo - moveTargets, exact && warnings == old(warnings))
        invariant Sending(job.plan, cfg.exclude, job.w1, local, a, Now(), w0, View(), todo)
        invariant warnings == old(warnings) ==> ServedBut(todo + moveTargets, job.w1, local, a.calls, d.calls)
      {
        if * {
          break; // cancelled
        }
        ghost var shallowest := ShallowestExists(todo);
        var p :| p in todo && forall q | q in todo :: Depth(p) <= Depth(q);
        UploadOne(p, local, byPath, todo, job, exact && warnings == old(warnings), a, w0);
        todo := todo - {p};
      }
      ok := todo == {};
      assert {} + moveTargets == moveTargets;
      SendingEnds(job.plan, cfg.exclude, job.w1, local, a, Now(), w0, View(), todo);
      UploadsOver(job, View(), d.used, cfg.exclude, granted, todo, moveTargets, exact && warnings == old(warnings));
    }

    /** One local entry has its turn. The destination of a move has had it already. */
    method UploadOne(p: Path, local: Scan, byPath: Base, ghost todo: set<Path>, ghost job: Job, ghost exact: bool,
                     ghost a: Snap, ghost w0: World)
      requires Ready(job) && byPath == job.w1.base && Rescanned(folder.disk, local, cfg.exclude)
      requires p in todo && todo <= local.Keys
      requires p !in moveTargets && IsFile(folder.disk, p) && !InStep(job.w1, p, false) ==> p in job.plan.files
      requires Going(job, {}, todo - moveTargets, exact)
      requires Sending(job.plan, cfg.exclude, job.w1, local, a, Now(), w0, View(), todo)
      modifies this`warnings, d`nodes, d`calls, d`used, db`nodes
      ensures Going(job, {}, todo - {p} - moveTargets, exact && warnings == old(warnings)) && warnings >= old(warnings)
      ensures Sending(job.plan, cfg.exclude, job.w1, local, a, Now(), w0, View(), todo - {p})
      ensures warnings == old(warnings) && ServedBut(todo + moveTargets, job.w1, local, a.calls, old(d.calls))
              ==> ServedBut(todo - {p} + moveTargets, job.w1, local, a.calls, d.calls)
    {
      hide Afoot, Fits, Visible, InStep, ServedBut, Served;
      ghost var b, w := Now(), View();
      if p in moveTargets {
        SendingSkips(job.plan, cfg.exclude, job.w1, local, a, b, w0, w, todo, p);
        assert todo - {p} - moveTargets == todo - moveTargets && todo - {p} + moveTargets == todo + moveTargets;
        return;
      }
      assert todo - moveTargets - {p} == todo - {p} - moveTargets;
      var sent := PushNode(p, local[p], byPath, job, {}, todo - moveTargets, exact);
      FitsFolder(job, folder.disk, cfg.exclude);
      SendingStep(job.plan, cfg.exclude, job.w1, local, a, b, Now(), w0, w, View(), todo, p);
      if !sent {
        warnings := warnings + 1;
      } else if ServedBut(todo + moveTargets, job.w1, local, a.calls, b.calls) {
        SentMore(job.plan, cfg.exclude, job.w1, local, a, b, Now(), w0, w, todo, p);
        OneMoreServed(todo + moveTargets, job.w1, local, a.calls, b.calls, d.calls, p);
        assert todo + moveTargets - {p} == todo - {p} + moveTargets;
      }
    }

    static method CountRemaining(gone: seq<Path>, moves: map<Path, Path>) returns (remaining: nat)
      requires NoRepeats(gone)
      ensures remaining == |Members(gone) - moves.Keys|
    {
      remaining := 0;
      for i := 0 to |gone|
        invariant remaining == |Members(gone[..i]) - moves.Keys|
      {
        CountOne(gone, moves, i);
        if gone[i] !in moves {
          remaining := remaining + 1;
        }
      }
      assert gone[..|gone|] == gone;
    }

    static lemma CountOne(gone: seq<Path>, moves: map<Path, Path>, i: nat)
      requires NoRepeats(gone) && i < |gone|
      ensures |Members(gone[..i + 1]) - moves.Keys|
              == |Members(gone[..i]) - moves.Keys| + if gone[i] in moves then 0 else 1
    {
      assert gone[..i + 1] == gone[..i] + [gone[i]];
      MembersMore(gone[..i], gone[i]);
      assert gone[i] !in gone[..i];
      SetLess(Members(gone[..i]), gone[i], moves.Keys);
    }

    static lemma SetLess(s: set<Path>, x: Path, k: set<Path>)
      requires x !in s
      ensures |s + {x} - k| == |s - k| + if x in k then 0 else 1
    {
      if x in k {
        assert s + {x} - k == s - k;
      } else {
        assert s + {x} - k == (s - k) + {x};
      }
    }

    /** Upload local changes and propagate local moves and deletions. */
    method Push(local: Scan) returns (ok: bool, moves: map<Path, Path>)
      requires Tree(folder.disk) && Rescanned(folder.disk, local, cfg.exclude)
      modifies this`warnings, this`moveTargets, this`granted, d`nodes, d`calls, d`used, db`nodes
      ensures warnings >= old(warnings) && moveTargets == moves.Values && MovesToNew(old(db.nodes), local, moves)
      // The guard decides, and refused means that nothing was done.
      ensures var due := Vanished(old(db.nodes), local, folder.stubs) - moves.Keys;
        if CliffAllows(|due|, |old(db.nodes)|, cfg.guardPercent) then
          Pushed(old(View()), old(d.used), old(d.calls), View(), d.used, d.calls, cfg.exclude, local, moves, granted,
                 ok && warnings == old(warnings))
        else !ok && View() == old(View()) && d.calls == old(d.calls) && d.used == old(d.used)
      // What is lost without having moved stays under the limit.
      ensures Countable(old(View()), cfg.exclude) && Complete(folder.disk, local, cfg.exclude)
              ==> StaysUnder(old(db.nodes).Keys - db.nodes.Keys - moves.Keys,
                             |Vanished(old(db.nodes), local, folder.stubs) - moves.Keys|, |old(db.nodes)|,
                             cfg.guardPercent)
    {
      hide Tree, Visible, Complete, Rescanned, MoreHashes, Pairing, StaysUnder, Candidates, PairUp, Matches,
          Pushed, RowsAccounted;
      ghost var w1, used1, calls1 := View(), d.used, d.calls;
      var byPath := db.nodes;
      granted := {};
      var gone := FindLocalDeletions(byPath, local);
      var hashed;
      ghost var order, unread;
      moves, hashed, order, unread := DetectMoves(byPath, local, gone);
      var remaining := CountRemaining(gone, moves);
      PairingIsNew(byPath, folder.disk, local, Members(gone), moves);
      if !CliffAllows(remaining, |db.nodes|, cfg.guardPercent) {
        NothingLost(w1, cfg.exclude, local, moves.Keys, cfg.guardPercent);
        return false, moves;
      }
      ok := CarryOut(local, hashed, byPath, gone, moves, w1);
      PushedAccounts(w1, used1, calls1, View(), d.used, d.calls, cfg.exclude, local, moves, granted,
                     ok && warnings == old(warnings));
      if Countable(w1, cfg.exclude) && Complete(folder.disk, local, cfg.exclude) {
        TrashingStaysUnderLimit(w1, db.nodes, cfg.exclude, local, moves.Keys, cfg.guardPercent);
      }
    }

    static lemma PushedAccounts(w1: World, used1: set<Link>, calls1: seq<Call>, w: World, used: set<Link>,
                                calls: seq<Call>, exclude: seq<string>, local: Scan, moves: map<Path, Path>,
                                granted: set<Path>, clean: bool)
      requires Pushed(w1, used1, calls1, w, used, calls, exclude, local, moves, granted, clean)
      ensures RowsAccounted(w1.base, w.base, moves.Keys, Vanished(w1.base, local, w1.stubs) - moves.Keys)
    {
    }

    method CarryOut(ghost local: Scan, hashed: Scan, byPath: Base, gone: seq<Path>, moves: map<Path, Path>,
                    ghost w1: World)
      returns (ok: bool)
      requires Tree(folder.disk) && w1 == View() && byPath == w1.base && moveTargets == moves.Values && granted == {}
      requires Rescanned(folder.disk, local, cfg.exclude)
      requires Rescanned(folder.disk, hashed, cfg.exclude) && MoreHashes(local, hashed)
      requires Members(gone) == Vanished(byPath, local, folder.stubs)
      requires Pairing(byPath, folder.disk, Candidates(byPath, local), Members(gone), moves)
      requires NoRepeats(gone) && LongestFirst(gone)
      modifies this`warnings, this`granted, d`nodes, d`calls, d`used, db`nodes
      ensures Pushed(w1, old(d.used), old(d.calls), View(), d.used, d.calls, cfg.exclude, local, moves, granted,
                     ok && warnings == old(warnings))
      ensures warnings >= old(warnings)
    {
      hide Tree, Visible, Afoot, Pushable, Complete, Rescanned, MoreHashes, Pairing;
      ghost var used1, calls1, job := d.used, d.calls, JobOf(w1, d.used, local, moves, cfg.exclude);
      ghost var exact := Pushable(w1, cfg.exclude) && Complete(folder.disk, local, cfg.exclude);
      JobIs(w1, d.used, local, hashed, moves, cfg.exclude);
      JobFits(w1, d.used, local, moves, cfg.exclude);
      AtFirst(w1, d.used, cfg.exclude, local, hashed, moves, exact);
      MoveAndTrash(local, hashed, byPath, gone, moves, job, exact);
      ghost var mid, asked := View(), d.calls;
      ok := UploadAll(hashed, byPath, job, exact && warnings == old(warnings));
      PushOver(w1, used1, calls1, View(), d.used, d.calls, cfg.exclude, local, hashed, moves, granted, gone, mid, asked,
               ok && warnings == old(warnings));
    }

    /** The first half: moves, then deletions, so that a node that moved does not go to the
    trash with its old folder. */
    method MoveAndTrash(ghost local: Scan, hashed: Scan, byPath: Base, gone: seq<Path>, moves: map<Path, Path>,
                        ghost job: Job, ghost exact: bool)
      requires Ready(job) && job.w1 == View() && byPath == job.w1.base && granted == {}
      requires job.plan.moves == moves && job.plan.due == Members(gone) - moves.Keys
      requires Rescanned(folder.disk, hashed, cfg.exclude) && MoreHashes(local, hashed)
      requires Pairing(byPath, folder.disk, Candidates(byPath, local), Members(gone), moves)
      requires NoRepeats(gone) && LongestFirst(gone)
      requires Going(job, Members(gone), hashed.Keys, exact) && (exact ==> Pushable(job.w1, cfg.exclude))
      requires exact || job.linked ==> forall p | p in Members(gone) :: !Live(folder.disk, cfg.exclude, p)
      modifies this`warnings, this`granted, d`nodes, d`calls, d`used, db`nodes
      ensures Going(job, {}, hashed.Keys - moves.Values, exact && warnings == old(warnings))
              && warnings >= old(warnings)
      ensures HalfWay(old(View()), old(d.calls), View(), d.calls, job.plan, gone)
      ensures warnings == old(warnings) ==> granted == moves.Keys
    {
      hide Pairing, Candidates, RowsLost, RowsKept, HonestInodes, CaseClear;
      ghost var w, calls := View(), d.calls;
      SameCandidates(byPath, local, hashed);
      DueAreRows(job, folder.disk, cfg.exclude);
      MoveAll(moves, byPath, hashed, Members(gone), job, exact);
      ghost var mid, asked := View(), d.calls;
      if exact || job.linked {
        VanishedRowsAre(byPath, moves.Keys, db.nodes, folder.disk, cfg.exclude, job.plan.due);
      }
      TrashAll(gone, moves, byPath, hashed.Keys - moves.Values, job, exact && warnings == old(warnings));
      NowHalfWay(w, calls, mid, asked, View(), job.plan, gone, cfg.exclude);
    }

    // ----- one pass

    /** A full bidirectional pass: scan, pull, scan again, push. `stamp` is the time as the
    names of conflict copies show it. */
    method SyncBoth(stamp: string) returns (ok: bool)
      requires Tree(folder.disk) && PlainClock(stamp, cfg.host)
      modifies this, folder, db, d`nodes, d`calls, d`used
      ensures Tree(folder.disk) && warnings >= old(warnings) && faults >= old(faults)
      ensures forall p :: keep(p) == ConflictName(p, stamp, cfg.host)
      // No bytes are lost, whatever fails.
      ensures NoBytesLost(old(View()), View(), localBefore, keep, Walks(old(db.cursor), d.feed), applied)
      // A pass without a warning synchronises.
      ensures ok && warnings == old(warnings)
              && PassIsExact(old(View()), keep, cfg, old(db.cursor), d.feed, relisted)
              ==> Ordinary(old(View()), localBefore, keep, cfg.cap, cfg.exclude)
                  && SyncedFrom(old(View()), localBefore, keep, cfg.exclude, View())
      // An agreed state is a fixpoint.
      ensures faults == old(faults) && AtRest(old(View()), cfg.exclude, cfg.cap)
              && DeletesNothing(old(d.nodes), d.feed.changes)
              ==> View() == old(View()) && d.calls == old(d.calls)
      // A folder that nobody touched sends nothing.
      ensures faults == old(faults) && Quiet(old(View()), cfg.exclude) && DeletesNothing(old(d.nodes), d.feed.changes)
              ==> Quiet(View(), cfg.exclude) && d.nodes == old(d.nodes) && d.calls == old(d.calls)
      // Files and placeholders stay in step with the baseline.
      ensures faults == old(faults) && Mirrored(old(View())) && SteadyAccount(old(View()), old(d.used), cfg.exclude)
              ==> Mirrored(View()) && SteadyAccount(View(), d.used, cfg.exclude)
    {
      hide Tree, Naming, Ordinary, Pulled, Agreed, AtRest, Quiet, Mirrored, SteadyAccount, PassIsExact, NoBytesLost;
      hide SyncedFrom, DeletesNothing, Pushable, SameLocal, ConflictName;
      keep := p => ConflictName(p, stamp, cfg.host);
      ConflictNamesAreNaming(stamp, cfg.host);
      ghost var w0, warned := View(), warnings;
      NothingLostYet(w0, localBefore, keep, Walks(db.cursor, d.feed), applied);
      if * {
        return false; // the folder is missing, or empty though rows say it should not be
      }
      ok := ScanAndPull();
      ghost var w1 := View();
      SameLocalNow(w1);
      if !ok {
        return;
      }
      ok := PushAfterPull();
      if ok && warnings == warned && PassIsExact(w0, keep, cfg, old(db.cursor), d.feed, relisted) {
        CalmIsHonest(w0, keep, cfg, old(db.cursor), d.feed, relisted);
        ExactPushSyncs(w0, localBefore, keep, cfg.cap, cfg.exclude, w1, View());
      }
    }

    /** The first half of a pass: scan, because the pull writes to the folder, and pull. */
    method ScanAndPull() returns (ok: bool)
      requires Tree(folder.disk) && Naming(keep)
      modifies this`localBefore, this`conflicts, this`warnings, this`applied, this`relisted, this`log, this`faults,
               this`floor, this`start, this`replayed, folder, db
      ensures Tree(folder.disk) && warnings >= old(warnings) && faults >= old(faults)
      ensures forall w | SameLocal(View(), w) ::
                NoBytesLost(old(View()), w, localBefore, keep, Walks(old(db.cursor), d.feed), applied)
      ensures ok && warnings == old(warnings)
              && PassIsExact(old(View()), keep, cfg, old(db.cursor), d.feed, relisted)
              ==> Ordinary(old(View()), localBefore, keep, cfg.cap, cfg.exclude)
                  && Pulled(old(View()), localBefore, keep, View())
      ensures faults == old(faults) && AtRest(old(View()), cfg.exclude, cfg.cap)
              && DeletesNothing(d.nodes, d.feed.changes)
              ==> View() == old(View())
      ensures faults == old(faults) && Quiet(old(View()), cfg.exclude) && DeletesNothing(d.nodes, d.feed.changes)
              ==> Quiet(View(), cfg.exclude)
      ensures faults == old(faults) && Mirrored(old(View())) && SteadyAccount(old(View()), d.used, cfg.exclude)
              ==> Mirrored(View()) && SteadyAccount(View(), d.used, cfg.exclude)
    {
      hide Tree, Naming, SafeState, Pulled, Ordinary, AtRest, Quiet, Mirrored, SteadyAccount, PassIsExact, PullIsExact;
      hide NoBytesLost, DeletesNothing, Scanned, Tracked, Visible, Hashed, SameLocal;
      ghost var w0, warned, walks := View(), warnings, Walks(db.cursor, d.feed);
      ScanHashed();
      ok := Pull();
      ghost var w1 := View();
      PullClaims(w0, w1);
      DeletesNothingAtAll(w0.remote);
      TrackedIsApart();
      forall w | SameLocal(w1, w) ensures NoBytesLost(w0, w, localBefore, keep, walks, applied) {
        SavedThroughPush(w0, w1, w, localBefore, keep, walks, applied, cfg.exclude);
      }
      if ok && warnings == warned && PassIsExact(w0, keep, cfg, old(db.cursor), d.feed, relisted) {
        ExactPassPulls(w0, localBefore, keep, cfg, old(db.cursor), d.feed, relisted);
      }
    }

    /** What the finished steps of a pull say about the claims. */
    lemma PullClaims(w0: World, w1: World)
      requires Tracked() && start == w0 && View() == w1
      requires forall p | p in localBefore :: Visible(p, cfg.exclude) && Hashed(w0, p, localBefore[p])
      ensures w1.remote == w0.remote && floor <= faults
      ensures faults == floor && AtRest(w0, cfg.exclude, cfg.cap) && DeletesNothing(w0.remote, replayed) ==> w1 == w0
      ensures faults == floor && Quiet(w0, cfg.exclude) && DeletesNothing(w0.remote, replayed)
              ==> Quiet(w1, cfg.exclude)
      ensures faults == floor && Mirrored(w0) && SteadyAccount(w0, d.used, cfg.exclude)
              ==> Mirrored(w1) && SteadyAccount(w1, d.used, cfg.exclude)
    {
      var c := Context(localBefore, keep, cfg.cap, replayed);
      RunKeepsRemote(c, w0, log);
      if faults == floor {
        AfterPull(c, d.used, cfg.exclude, w0, log, w1);
      }
    }

    /** The second half of a pass: scan again, since the pull changed the folder, and push. A
    scan that left something out is a fault: what it left out looks deleted. */
    method PushAfterPull() returns (ok: bool)
      requires Tree(folder.disk)
      modifies this`warnings, this`faults, this`moveTargets, this`granted, d`nodes, d`calls, d`used, db`nodes
      ensures warnings >= old(warnings) && faults >= old(faults) && SameLocal(old(View()), View())
      ensures ok && warnings == old(warnings) && Pushable(old(View()), cfg.exclude) ==> Agreed(View(), cfg.exclude)
      ensures faults == old(faults) && (AtRest(old(View()), cfg.exclude, cfg.cap) || Quiet(old(View()), cfg.exclude))
              ==> View() == old(View()) && d.calls == old(d.calls)
      ensures faults == old(faults) && Mirrored(old(View())) && SteadyAccount(old(View()), old(d.used), cfg.exclude)
              ==> Mirrored(View()) && SteadyAccount(View(), d.used, cfg.exclude)
    {
      hide Tree, Pushable, Agreed, AtRest, Quiet, Mirrored, Complete, Pushed, Countable, StaysUnder;
      ghost var w, used, calls, before := View(), d.used, d.calls, warnings;
      var local, warned;
      ghost var unreadable, unexamined;
      local, warned, unreadable, unexamined := folder.Scan(cfg.exclude);
      ScanIsRead(folder.disk, local, cfg.exclude, unreadable, unexamined, warned);
      ghost var complete := Complete(folder.disk, local, cfg.exclude);
      warnings, faults := warnings + warned, if complete then faults else faults + 1;
      ghost var clean := warnings;
      var moves;
      ok, moves := Push(local);
      if complete {
        ClaimsAfterPush(w, used, calls, View(), d.used, d.calls, cfg.exclude, cfg.cap, local, moves, granted,
                        ok && warnings == clean);
      }
    }

    // ----- one folder, one file

    /** Bring one folder up to date by asking for it directly. A folder that is not tracked
    is left to the next pass. */
    method RefreshDir(dir: Path, stamp: string) returns (ok: bool)
      requires Tree(folder.disk) && PlainClock(stamp, cfg.host)
      modifies this, folder, db
      ensures Tree(folder.disk) && faults >= old(faults) && db.cursor == old(db.cursor)
      ensures NoBytesLost(old(View()), View(), localBefore, keep, false, applied)
      ensures ok && warnings == old(warnings) && Calm(old(View()), keep, cfg.cap, cfg.exclude)
              && IsTracked(old(View()), dir)
              ==> Refreshed(old(View()), localBefore, keep, LinkOf(old(db.nodes), dir), FolderOf(dir), View())
      ensures faults == old(faults) && AtRest(old(View()), cfg.exclude, cfg.cap) ==> View() == old(View())
      ensures faults == old(faults) && Quiet(old(View()), cfg.exclude) ==> Quiet(View(), cfg.exclude)
      ensures faults == old(faults) && Mirrored(old(View())) && SteadyAccount(old(View()), old(d.used), cfg.exclude)
              ==> Mirrored(View()) && SteadyAccount(View(), d.used, cfg.exclude)
    {
      keep := p => ConflictName(p, stamp, cfg.host);
      ConflictNamesAreNaming(stamp, cfg.host);
      ghost var w0 := View();
      NothingLostYet(w0, localBefore, keep, false, applied);
      if * {
        return false; // the folder is missing, or empty though rows say it should not be
      }
      var link := ROOT_LINK;
      if dir != "" && dir != "." {
        var row := db.GetNode(dir);
        if row.None? || !row.value.isDir {
          TrackedHasRow(w0, dir);
          return true;
        }
        link := row.value.link;
      }
      ok := RefreshFolder(link, FolderOf(dir));
    }

    method RefreshFolder(link: Link, ghost dir: Path) returns (ok: bool)
      requires Tree(folder.disk) && Naming(keep)
      modifies this`localBefore, this`conflicts, this`warnings, this`applied, this`relisted, this`log, this`faults,
               this`floor, this`start, this`replayed, folder, db
      ensures Tree(folder.disk) && faults >= old(faults) && db.cursor == old(db.cursor)
      ensures NoBytesLost(old(View()), View(), localBefore, keep, false, applied)
      ensures ok && warnings == old(warnings) && Calm(old(View()), keep, cfg.cap, cfg.exclude)
              && FolderTracked(old(View()), link, dir)
              ==> Refreshed(old(View()), localBefore, keep, link, dir, View())
      ensures faults == old(faults) && AtRest(old(View()), cfg.exclude, cfg.cap) ==> View() == old(View())
      ensures faults == old(faults) && Quiet(old(View()), cfg.exclude) ==> Quiet(View(), cfg.exclude)
      ensures faults == old(faults) && Mirrored(old(View())) && SteadyAccount(old(View()), old(d.used), cfg.exclude)
              ==> Mirrored(View()) && SteadyAccount(View(), d.used, cfg.exclude)
    {
      hide *;
      ghost var w0, warned := View(), warnings;
      ScanHashed();
      BeginPull([]);
      ghost var clean := warnings == warned && Calm(w0, keep, cfg.cap, cfg.exclude) && FolderTracked(w0, link, dir);
      ok := RelistKnown(link, dir, w0, clean);
      PullClaims(w0, View());
      DeletesNothingAtAll(w0.remote);
      TrackedIsApart();
      SameLocalNow(View());
      SavedThroughPush(w0, View(), View(), localBefore, keep, false, applied, cfg.exclude);
    }

    /** Re-list the folder, if it is known. */
    method RelistKnown(link: Link, ghost dir: Path, ghost w0: World, ghost clean: bool) returns (ok: bool)
      requires Tree(folder.disk) && Naming(keep) && Tracked() && w0 == View() && applied == []
      requires SafeState(w0, View(), localBefore, keep, applied)
      requires clean ==> Calm(w0, keep, cfg.cap, cfg.exclude) && FolderTracked(w0, link, dir)
                         && Scanned(w0, localBefore, cfg.exclude)
      modifies this`conflicts, this`warnings, this`applied, this`log, this`faults, folder, db
      ensures Tree(folder.disk) && db.cursor == old(db.cursor) && warnings >= old(warnings)
      ensures Tracked() && SafeState(w0, View(), localBefore, keep, applied)
      ensures ok && clean && warnings == old(warnings) ==> Refreshed(w0, localBefore, keep, link, dir, View())
    {
      hide Unmoved, Tracked, Tree, SafeState, Naming, Ordinary, ExactState, Calm, Scanned;
      var known, prefix := FolderPath(link);
      if !known {
        if clean { TrackedIsKnown(w0, link, dir); }
        return true;
      }
      if clean {
        CalmIsOrdinary(w0, localBefore, keep, cfg.cap, cfg.exclude);
        RefreshIsNew(w0, localBefore, keep, cfg.cap, cfg.exclude, link, dir, prefix);
      }
      assert Members(applied) == {};
      RefreshStarts(w0, localBefore, keep, cfg.cap, cfg.exclude, clean);
      ghost var mid;
      ok, mid := RelistFolder(link, prefix, w0, w0, clean);
      if ok && clean && warnings == old(warnings) {
        assert Members(applied) == Children(w0.remote, link);
        RefreshEnds(w0, localBefore, keep, cfg.cap, cfg.exclude, link, dir, mid, View());
      }
    }

    /** Download a file that is a placeholder so far. */
    method Materialize(p: Path) returns (ok: bool)
      requires Tree(folder.disk) && p != ""
      modifies this`faults, folder, db`nodes
      ensures Tree(folder.disk) && faults >= old(faults)
      ensures ok ==> p in old(db.nodes) && !old(db.nodes)[p].isDir && !old(db.nodes)[p].materialized
      ensures ok ==> IsFile(folder.disk, p) && p !in folder.stubs && p in db.nodes && db.nodes[p].materialized
                     && db.nodes[p].hash == Sum(folder.disk[p].content)
      ensures ok ==> exists q :: q in d.nodes && d.nodes[q].link == old(db.nodes)[p].link
                                 && folder.disk[p].content == d.nodes[q].content
      ensures faults == old(faults) && Mirrored(old(View())) ==> Mirrored(View())
      ensures faults == old(faults) && Mirrored(old(View())) && SteadyAccount(old(View()), d.used, cfg.exclude)
              ==> SteadyAccount(View(), d.used, cfg.exclude)
    {
      hide Mirrored, SteadyAccount, Tree;
      ghost var w0 := View();
      var row := db.GetNode(p);
      if row.None? || row.value.isDir || row.value.materialized {
        return false;
      }
      var content, entry;
      ghost var parents;
      ok, content, entry, parents := Place(p, row.value);
      ghost var placed := ok;
      if ok {
        if * {
          ok := false; // the new file could not be examined
        } else {
          ok := db.PutNode(p, row.value.(hash := Sum(content), size := |content|, mtime := entry.mtime,
                                         inode := entry.inode, materialized := true));
        }
      }
      faults := if placed && !ok then faults + 1 else faults;
      if ok || !placed {
        PlacedIsMirrored(w0, View(), p, entry, parents, placed);
        if Mirrored(w0) && SteadyAccount(w0, d.used, cfg.exclude) {
          SteadyPlaced(w0, View(), d.used, cfg.exclude, p, entry, parents, placed);
        }
      }
    }

    /** Fetch the content and put it in the placeholder's stead. */
    method Place(p: Path, row: Row) returns (ok: bool, content: Content, entry: Entry, ghost parents: bool)
      requires Tree(folder.disk) && p != ""
      modifies folder`disk, folder`stubs
      ensures Tree(folder.disk)
      ensures ok ==> parents && entry.File? && entry.content == content
      ensures parents ==> !Blocked(old(folder.disk), ParentOf(p))
      ensures var disk1 := if parents then WithDirs(old(folder.disk), ParentOf(p)) else old(folder.disk);
        folder.disk == if ok then disk1[p := entry] else disk1
      ensures folder.stubs == if ok then old(folder.stubs) - {p} else old(folder.stubs)
      ensures ok ==> exists q :: q in d.nodes && d.nodes[q].link == row.link && content == d.nodes[q].content
    {
      ghost var disk0 := folder.disk;
      entry, parents := Dir, false;
      ghost var at;
      ok, content, at := d.Download(row.link);
      if !ok {
        return;
      }
      var made;
      ok, made := folder.StageDownload(p);
      parents := made;
      WithDirsTreeIfFree(disk0, ParentOf(p));
      if !ok {
        return;
      }
      var placed, e := folder.CommitStaged(p, content, row.mtime);
      ok := placed;
      if ok {
        LandTree(WithDirs(disk0, ParentOf(p)), p, e);
        entry := e;
        folder.RemoveStub(p);
      }
    }
  }

  /** Unless a name was taken, a replay came after a tracked node had moved in the account, or size
  and time lied, every scanned file's bytes are where they were, in the copy or in the trash, or
  were the agreed content that a remote revision replaced. */
  ghost predicate NoBytesLost(w0: World, w: World, before: Scan, keep: Namer, walks: bool, applied: seq<Path>) {
    StatAccurate(w0) && TakenOnce(w0, keep, walks, applied) && (forall p :: FreshName(w0.disk, keep, p)) ==>
      forall p | p in before && IsFile(w0.disk, p) :: Survives(w0, w, keep, Members(applied), p)
  }

  /** What makes a pass exact: calm circumstances and, if it replays a delta, that the delta
  tells everything and that nothing lies in a folder without a row, or the order of the
  re-listings reached it all the same. */
  ghost predicate PassIsExact(w: World, keep: Namer, cfg: Config, cursor: string, feed: Delta, relisted: seq<Link>) {
    && Calm(w, keep, cfg.cap, cfg.exclude)
    && (Walks(cursor, feed)
        || (BaseTree(w.base) && Covers(w, feed.changes) && (ParentsMet(w) || Reaches(w, relisted))))
  }

  /** The pull has no position to replay from, or a void one. */
  predicate Walks(cursor: string, feed: Delta) { cursor == "" || feed.refresh }

  lemma NothingLostYet(w: World, before: Scan, keep: Namer, walks: bool, applied: seq<Path>)
    ensures NoBytesLost(w, w, before, keep, walks, applied)
  {
  }

  /** The root is asked for as "" or ".". */
  function FolderOf(dir: Path): Path { if dir == "." then "" else dir }

  function LinkOf(base: Base, dir: Path): Link {
    if FolderOf(dir) == "" || dir !in base then ROOT_LINK else base[dir].link
  }

  ghost predicate IsTracked(w: World, dir: Path) {
    FolderTracked(w, LinkOf(w.base, dir), FolderOf(dir))
  }

  lemma TrackedHasRow(w: World, dir: Path)
    requires FolderOf(dir) != ""
    ensures IsTracked(w, dir) ==> dir in w.base && w.base[dir].isDir
  {
  }

  lemma DeletesNothingAtAll(remote: Account)
    ensures DeletesNothing(remote, [])
  {
  }

  lemma SameLocalNow(w: World)
    ensures SameLocal(w, w)
  {
  }

  lemma CalmIsHonest(w: World, keep: Namer, cfg: Config, cursor: string, feed: Delta, relisted: seq<Link>)
    requires PassIsExact(w, keep, cfg, cursor, feed, relisted)
    ensures forall p, c :: HonestAt(w, p, c)
  {
  }

  lemma ExactPassPulls(w: World, before: Scan, keep: Namer, cfg: Config, cursor: string, feed: Delta,
          relisted: seq<Link>)
    requires PassIsExact(w, keep, cfg, cursor, feed, relisted) && Scanned(w, before, cfg.exclude)
    ensures PullIsExact(w, before, keep, cfg, cursor, feed, relisted) && Ordinary(w, before, keep, cfg.cap, cfg.exclude)
  {
    CalmIsOrdinary(w, before, keep, cfg.cap, cfg.exclude);
  }

  /** The bytes that a pull kept safe, a push leaves alone. */
  lemma SavedThroughPush(w0: World, w1: World, w: World, before: Scan, keep: Namer, walks: bool,
          applied: seq<Path>, exclude: seq<string>)
    requires SafeState(w0, w1, before, keep, applied) && SameLocal(w1, w) && Naming(keep)
    requires forall p | p in before :: Visible(p, exclude) && Hashed(w0, p, before[p])
    requires Apart(w0, w1, applied) && (walks ==> NoRepeats(applied) && Members(applied) <= w0.remote.Keys)
    ensures NoBytesLost(w0, w, before, keep, walks, applied)
  {
    hide Visible, Apart, TakenOnce;
    if StatAccurate(w0) && TakenOnce(w0, keep, walks, applied) && (forall p :: FreshName(w0.disk, keep, p)) {
      ApartIsOnce(w0, w1, keep, walks, applied);
      ScanIsTrue(w0, before);
      forall p | p in before && IsFile(w0.disk, p) ensures Survives(w0, w, keep, Members(applied), p) {
        assert SafeAt(w0, w1, before, keep, Members(applied), p);
      }
    }
  }

  lemma ExactPushSyncs(w0: World, before: Scan, keep: Namer, cap: nat, exclude: seq<string>, w1: World, w: World)
    requires Ordinary(w0, before, keep, cap, exclude) && Pulled(w0, before, keep, w1) && SameLocal(w1, w)
    requires (forall p, c :: HonestAt(w0, p, c)) && (Pushable(w1, exclude) ==> Agreed(w, exclude))
    ensures SyncedFrom(w0, before, keep, exclude, w)
  {
    PulledIsPushable(w0, before, keep, cap, exclude, w1);
    assert PulledTo(w0, before, keep, w1, w);
  }

  /** What makes this pull exact: the full walk needs ordinary circumstances, a replay also
  needs a delta that tells everything, and nothing in a folder without a row or an order that
  reached it all the same. */
  ghost predicate PullIsExact(w: World, before: Scan, keep: Namer, cfg: Config, cursor: string, feed: Delta,
                              relisted: seq<Link>) {
    if Walks(cursor, feed) then Ordinary(w, before, keep, cfg.cap, cfg.exclude)
    else Replayable(w, before, keep, cfg.cap, cfg.exclude, feed.changes) && (ParentsMet(w) || Reaches(w, relisted))
  }
}
