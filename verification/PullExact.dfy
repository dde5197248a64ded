/** What a failure-free pull leaves, path by path, as a function of the three trees it
started from. Both the full walk and the event replay are shown to reach it. */
module PullExact {
  import opened Types
  import opened Paths
  import opened Names
  import opened SubtreePattern
  import opened World
  import opened Survival

  function NodeOf(remote: Account, p: Path): Node
    requires p in remote
  {
    var r := remote[p];
    Node(p, r.link, r.parent, r.isDir, r.size, r.modified, r.digest)
  }

  /** The circumstances of an ordinary pass, at one path: a remote file reports its true
  digest and size, is not over the size cap, and has a name the scanner also sees; a
  tracked path is still the same node; no path is a file in one tree and a folder in
  another; no name looks like a copy. */
  ghost predicate CalmAt(w: World, keep: Namer, cap: nat, exclude: seq<string>, p: Path) {
    && (p in w.remote ==> var r := w.remote[p];
          && Visible(p, exclude) && !WantStub(NodeOf(w.remote, p), cap)
          && (!r.isDir ==> r.digest == Sum(r.content) && r.size == |r.content|)
          && (p in w.disk ==> (r.isDir <==> w.disk[p].Dir?))
          && (p in w.base ==> w.base[p].link == r.link && w.base[p].parent == r.parent
                              && w.base[p].isDir == r.isDir))
    && (p in w.base ==> p != "" && w.base[p].materialized && (w.base[p].isDir || w.base[p].hash.Sum?)
                        && (p in w.disk ==> (w.base[p].isDir <==> w.disk[p].Dir?)))
    && (p in w.disk || p in w.base || p in w.remote ==> NoCopy(keep, p))
  }

  /** The scan before the pull is complete and true. */
  predicate ScanAt(w: World, before: Scan, exclude: seq<string>, p: Path) {
    && (p in w.disk ==> (p in before <==> Visible(p, exclude)))
    && ScannedTrue(w.disk, before, p)
  }

  ghost predicate OrdinaryAt(w: World, before: Scan, keep: Namer, cap: nat, exclude: seq<string>, p: Path) {
    CalmAt(w, keep, cap, exclude, p) && ScanAt(w, before, exclude, p)
  }

  ghost predicate CalmTrees(w: World, keep: Namer) {
    && Tree(w.disk) && AccountTree(w.remote) && Naming(keep) && w.stubs == {}
    && CaseClear(w.base.Keys + w.remote.Keys, w.base.Keys + w.remote.Keys + w.disk.Keys)
  }

  ghost predicate Ordinary(w: World, before: Scan, keep: Namer, cap: nat, exclude: seq<string>) {
    CalmTrees(w, keep) && forall p :: OrdinaryAt(w, before, keep, cap, exclude, p)
  }

  // ----- the target

  /** The pull downloads `p`. */
  predicate Fetches(w: World, p: Path) {
    && p in w.remote && !w.remote[p].isDir
    && !SameAsBase(w.base, NodeOf(w.remote, p)) && !AlreadyThere(w, NodeOf(w.remote, p))
  }

  /** The pull downloads `p` over a local version that must be kept. */
  predicate Clashes(w: World, before: Scan, p: Path) {
    Fetches(w, p) && MustKeep(w, before, p, w.remote[p].content)
  }

  /** `p` was tracked, or lay in a tracked folder, that is no longer in the account. */
  predicate Gone(w: World, p: Path) {
    exists d :: d in w.base && d !in w.remote && AtOrUnder(p, d)
  }

  /** `p` is a folder above something tracked that is no longer in the account. */
  predicate Hollow(w: World, p: Path) {
    exists d :: d in w.base && d !in w.remote && Under(d, p)
  }

  /** `p` is the copy of a clash among the nodes of `done`. */
  ghost predicate IsCopy(w: World, before: Scan, keep: Namer, done: set<Path>, p: Path) {
    exists q :: q in done && Clashes(w, before, q) && keep(q) == p
  }

  /** The row of a remote path afterwards, up to the local stat columns of a download. */
  predicate RowAfter(w: World, p: Path, row: Row)
    requires p in w.remote
  {
    var r := w.remote[p];
    if r.isDir then row == DirRow(r.link, r.parent)
    else if Fetches(w, p) then row == FileRow(NodeOf(w.remote, p), r.content, row.mtime, row.inode)
    else p in w.base && row == w.base[p]
  }

  /** One path, after the nodes of `done` have been applied without failure: its row, its
  file, its conflict copy and its kind. */
  ghost predicate PathInv(w0: World, before: Scan, keep: Namer, done: set<Path>, w: World, p: Path) {
    && PathRow(w0, done, w, p) && PathFile(w0, before, keep, done, w, p)
    && PathCopy(w0, before, keep, done, w, p) && PathKind(w0, w, p) && PathMade(w0, before, keep, done, w, p)
  }

  /** A conflict is recorded for `p` once if there was one. */
  predicate PathMade(w0: World, before: Scan, keep: Namer, done: set<Path>, w: World, p: Path) {
    w.conflicts[(p, keep(p))] == w0.conflicts[(p, keep(p))] + if p in done && Clashes(w0, before, p) then 1 else 0
  }

  predicate PathRow(w0: World, done: set<Path>, w: World, p: Path) {
    && (p in w.base <==> p in w0.base || p in done)
    && (p in done && p in w0.remote ==> RowAfter(w0, p, w.base[p]))
    && (p !in done && p in w.base ==> w.base[p] == w0.base[p])
  }

  ghost predicate PathFile(w0: World, before: Scan, keep: Namer, done: set<Path>, w: World, p: Path) {
    if p in done && Fetches(w0, p) then FileAt(w.disk, p) == Some(w0.remote[p].content)
    else IsCopy(w0, before, keep, done, p) || EntryAt(w.disk, p) == EntryAt(w0.disk, p)
  }

  predicate PathCopy(w0: World, before: Scan, keep: Namer, done: set<Path>, w: World, p: Path) {
    if p in done && Clashes(w0, before, p) then EntryAt(w.disk, keep(p)) == EntryAt(w0.disk, p)
    else keep(p) !in w.disk
  }

  predicate PathKind(w0: World, w: World, p: Path) {
    && (p in w.disk && p in w0.remote ==> (w0.remote[p].isDir <==> w.disk[p].Dir?))
    && (IsDir(w.disk, p) ==> IsDir(w0.disk, p) || p in w0.remote)
    && (p in w0.disk ==> p in w.disk)
  }

  ghost predicate WalkInv(w0: World, before: Scan, keep: Namer, done: set<Path>, w: World) {
    && done <= w0.remote.Keys
    && w.remote == w0.remote && w.stubs == {} && Tree(w.disk) && w.trash == w0.trash
    && forall p :: PathInv(w0, before, keep, done, w, p)
  }

  /** An outcome without any failure, in which what arrived is what the account holds. */
  predicate Clean(remote: Account, n: Node, o: Outcome) {
    match o
    case MadeDir(recorded) => recorded
    case Skipped => true
    case Stubbed(recorded) => recorded
    case Landed(got, _, recorded, _, _) => recorded && n.path in remote && got == remote[n.path].content
    case _ => false
  }

  /** The same, judged by the outcome alone. */
  predicate Succeeded(o: Outcome) {
    o.Skipped? || ((o.MadeDir? || o.Stubbed? || o.Landed?) && o.recorded)
  }

  lemma SuccessIsClean(remote: Account, p: Path, o: Outcome, got: Path)
    requires AccountTree(remote) && p in remote && Succeeded(o)
    requires o.Landed? ==> got in remote && remote[got].link == remote[p].link && o.got == remote[got].content
    ensures Clean(remote, NodeOf(remote, p), o)
  {
  }

  lemma WalkInvStart(w0: World, before: Scan, keep: Namer, cap: nat, exclude: seq<string>)
    requires Ordinary(w0, before, keep, cap, exclude)
    ensures WalkInv(w0, before, keep, {}, w0)
  {
    forall p ensures PathInv(w0, before, keep, {}, w0, p) {
      assert OrdinaryAt(w0, before, keep, cap, exclude, p);
      assert OrdinaryAt(w0, before, keep, cap, exclude, keep(p));
    }
  }

  /** The decision at an unprocessed path is the one that the starting point dictates. */
  lemma SameDecision(w0: World, before: Scan, keep: Namer,
                     done: set<Path>, w: World, p: Path)
    requires NoCopy(keep, p) && WalkInv(w0, before, keep, done, w)
    requires p in w0.remote && p !in done
    ensures Fetches(w, p) == Fetches(w0, p)
    ensures MustKeep(w, before, p, w.remote[p].content) == MustKeep(w0, before, p, w0.remote[p].content)
    ensures EntryAt(w.disk, p) == EntryAt(w0.disk, p)
  {
    assert PathInv(w0, before, keep, done, w, p);
    assert NoCopy(keep, p);
    assert !IsCopy(w0, before, keep, done, p);
  }

  lemma RemoteChain(remote: Account, p: Path)
    requires AccountTree(remote) && p in remote
    ensures forall q | q in Chain(p) :: q in remote && (q != p ==> remote[q].isDir)
    ensures forall q | q in Chain(ParentOf(p)) :: q in remote && remote[q].isDir && q != p
  {
    forall q | q in Chain(p) ensures q in remote && (q != p ==> remote[q].isDir) {
      if q != p { AboveIsRemoteDir(remote, p, q); }
    }
    forall q | q in Chain(ParentOf(p)) ensures q in remote && remote[q].isDir && q != p {
      if ParentOf(p) != "" {
        ParentAbove(p);
        UnderTransitive(p, ParentOf(p), q);
      }
      assert q in Chain(p);
    }
  }

  lemma DirStepAt(w0: World, before: Scan, keep: Namer, cap: nat, exclude: seq<string>,
                  done: set<Path>, w: World, p: Path, q: Path)
    requires AccountTree(w0.remote) && w.remote == w0.remote && p in w0.remote
    requires PathInv(w0, before, keep, done, w, q)
    requires w0.remote[p].isDir && p !in done
    requires forall c | c in Chain(p) :: c in w0.remote && w0.remote[c].isDir && NoCopy(keep, c)
    ensures PathInv(w0, before, keep, done + {p}, Effect(w, NodeOf(w.remote, p), keep(p), MadeDir(true)), q)
  {
    var w' := Effect(w, NodeOf(w.remote, p), keep(p), MadeDir(true));
    assert IsCopy(w0, before, keep, done + {p}, q) <==> IsCopy(w0, before, keep, done, q);
    assert EntryAt(w'.disk, q) == EntryAt(w.disk, q);
  }

  lemma ChainOrdinary(w: World, before: Scan, keep: Namer, cap: nat, exclude: seq<string>, p: Path)
    requires Ordinary(w, before, keep, cap, exclude) && p in w.remote
    ensures forall c | c in Chain(p) || c in Chain(ParentOf(p)) :: c in w.remote && NoCopy(keep, c)
    ensures forall c | c in Chain(p) :: c != p ==> w.remote[c].isDir
    ensures forall c | c in Chain(ParentOf(p)) :: w.remote[c].isDir && c != p
  {
    RemoteChain(w.remote, p);
    forall c | c in Chain(p) || c in Chain(ParentOf(p)) ensures NoCopy(keep, c) {
      assert OrdinaryAt(w, before, keep, cap, exclude, c);
    }
  }

  /** No file stands where a remote folder has to be created. */
  lemma NeverBlocked(w0: World, before: Scan, keep: Namer, cap: nat, exclude: seq<string>,
                     done: set<Path>, w: World, p: Path)
    requires Ordinary(w0, before, keep, cap, exclude) && WalkInv(w0, before, keep, done, w)
    requires p in w0.remote
    ensures !Blocked(w.disk, ParentOf(p))
    ensures w0.remote[p].isDir ==> !Blocked(w.disk, p)
    ensures !w0.remote[p].isDir ==> !IsDir(w.disk, p)
  {
    RemoteChain(w0.remote, p);
    assert PathInv(w0, before, keep, done, w, p);
    forall c | c in Chain(ParentOf(p)) || (c in Chain(p) && w0.remote[p].isDir)
      ensures !IsFile(w.disk, c)
    {
      assert PathInv(w0, before, keep, done, w, c);
    }
  }

  /** Applying one more remote folder. */
  lemma DirStep(w0: World, before: Scan, keep: Namer, cap: nat, exclude: seq<string>,
                done: set<Path>, w: World, p: Path)
    requires Ordinary(w0, before, keep, cap, exclude) && WalkInv(w0, before, keep, done, w)
    requires p in w0.remote && p !in done && w0.remote[p].isDir
    ensures WalkInv(w0, before, keep, done + {p}, Effect(w, NodeOf(w.remote, p), keep(p), MadeDir(true)))
  {
    ChainOrdinary(w0, before, keep, cap, exclude, p);
    NeverBlocked(w0, before, keep, cap, exclude, done, w, p);
    WithDirsTree(w.disk, p);
    forall q ensures PathInv(w0, before, keep, done + {p}, Effect(w, NodeOf(w.remote, p), keep(p), MadeDir(true)), q) {
      assert PathInv(w0, before, keep, done, w, q);
      DirStepAt(w0, before, keep, cap, exclude, done, w, p, q);
    }
  }

  /** Passing over one more remote file. */
  lemma SkipStep(w0: World, before: Scan, keep: Namer, done: set<Path>, w: World, p: Path)
    requires WalkInv(w0, before, keep, done, w)
    requires p in w0.remote && p !in done && !w0.remote[p].isDir && !Fetches(w0, p)
    ensures WalkInv(w0, before, keep, done + {p}, w)
  {
    forall q ensures PathInv(w0, before, keep, done + {p}, w, q) {
      assert PathInv(w0, before, keep, done, w, q);
      assert IsCopy(w0, before, keep, done + {p}, q) <==> IsCopy(w0, before, keep, done, q);
    }
  }

  function Fetched(w0: World, before: Scan, p: Path, mtime: Time, inode: nat): Outcome
    requires p in w0.remote
  {
    Landed(w0.remote[p].content, Clashes(w0, before, p), true, mtime, inode)
  }

  /** Where a download changes files: at the path and at its copy. */
  lemma LandElsewhere(w: World, n: Node, copy: Path, o: Outcome, q: Path)
    requires o.Landed? && q != n.path && q != copy
    ensures EntryAt(Effect(w, n, copy, o).disk, q) == EntryAt(w.disk, q)
    ensures q in w.disk ==> q in Effect(w, n, copy, o).disk
    ensures q in Effect(w, n, copy, o).disk && q !in w.disk ==> q in Chain(ParentOf(n.path))
    ensures IsDir(Effect(w, n, copy, o).disk, q) ==> IsDir(w.disk, q) || q in Chain(ParentOf(n.path))
  {
  }

  lemma LandFile(w0: World, before: Scan, keep: Namer, done: set<Path>, w: World, p: Path, q: Path,
                 mtime: Time, inode: nat)
    requires Naming(keep) && p in w0.remote && Fetches(w0, p) && p !in done
    requires PathFile(w0, before, keep, done, w, q) && keep(p) !in w.disk
    requires forall c | c in Chain(ParentOf(p)) :: NoCopy(keep, c)
    requires q in w0.remote ==> NoCopy(keep, q)
    requires w.remote == w0.remote
    ensures PathFile(w0, before, keep, done + {p},
                     Effect(w, NodeOf(w.remote, p), keep(p), Fetched(w0, before, p, mtime, inode)), q)
  {
    var o := Fetched(w0, before, p, mtime, inode);
    if q == keep(p) {
      if o.kept { assert IsCopy(w0, before, keep, done + {p}, q); }
    } else if q != p {
      LandElsewhere(w, NodeOf(w.remote, p), keep(p), o, q);
      assert IsCopy(w0, before, keep, done, q) ==> IsCopy(w0, before, keep, done + {p}, q);
    }
  }

  lemma LandCopy(w0: World, before: Scan, keep: Namer, done: set<Path>, w: World, p: Path, q: Path,
                 mtime: Time, inode: nat)
    requires Naming(keep) && NoCopy(keep, p) && p in w0.remote && Fetches(w0, p) && p !in done
    requires PathCopy(w0, before, keep, done, w, q) && keep(p) !in w.disk
    requires EntryAt(w.disk, p) == EntryAt(w0.disk, p)
    requires forall c | c in Chain(ParentOf(p)) :: NoCopy(keep, c)
    requires w.remote == w0.remote
    ensures PathCopy(w0, before, keep, done + {p},
                     Effect(w, NodeOf(w.remote, p), keep(p), Fetched(w0, before, p, mtime, inode)), q)
  {
    var o := Fetched(w0, before, p, mtime, inode);
    if q != p {
      LandElsewhere(w, NodeOf(w.remote, p), keep(p), o, keep(q));
    } else if o.kept {
      AsideContent(WithDirs(w.disk, ParentOf(p)), p, keep(p), true);
    }
  }

  lemma LandKind(w0: World, before: Scan, keep: Namer, w: World, p: Path, q: Path,
                 mtime: Time, inode: nat)
    requires Naming(keep) && p in w0.remote && Fetches(w0, p) && w.remote == w0.remote && !IsDir(w.disk, p)
    requires PathKind(w0, w, q) && (q in w0.remote ==> NoCopy(keep, q)) && keep(p) !in w.disk
    requires forall c | c in Chain(ParentOf(p)) :: c in w0.remote && w0.remote[c].isDir && c != p && NoCopy(keep, c)
    ensures PathKind(w0, Effect(w, NodeOf(w.remote, p), keep(p), Fetched(w0, before, p, mtime, inode)), q)
  {
    var o := Fetched(w0, before, p, mtime, inode);
    if q == keep(p) {
      AsideCopy(WithDirs(w.disk, ParentOf(p)), p, keep(p), o.kept);
    } else if q != p {
      LandElsewhere(w, NodeOf(w.remote, p), keep(p), o, q);
    }
  }

  lemma AsideCopy(disk: Disk, p: Path, copy: Path, kept: bool)
    requires copy !in disk && !IsDir(disk, p)
    ensures !IsDir(Aside(disk, p, copy, kept), copy)
  {
  }

  lemma LandRow(w0: World, before: Scan, keep: Namer, done: set<Path>, w: World, p: Path, q: Path,
                mtime: Time, inode: nat)
    requires Naming(keep) && p in w0.remote && Fetches(w0, p) && w.remote == w0.remote && p !in done
    requires PathRow(w0, done, w, q) && PathMade(w0, before, keep, done, w, q)
    ensures var w' := Effect(w, NodeOf(w.remote, p), keep(p), Fetched(w0, before, p, mtime, inode));
      PathRow(w0, done + {p}, w', q) && PathMade(w0, before, keep, done + {p}, w', q)
  {
  }

  /** Downloading one more remote file. */
  lemma LandStep(w0: World, before: Scan, keep: Namer, cap: nat, exclude: seq<string>,
                 done: set<Path>, w: World, p: Path, mtime: Time, inode: nat)
    requires Ordinary(w0, before, keep, cap, exclude) && WalkInv(w0, before, keep, done, w)
    requires p !in done && Fetches(w0, p)
    ensures WalkInv(w0, before, keep, done + {p},
                    Effect(w, NodeOf(w.remote, p), keep(p), Fetched(w0, before, p, mtime, inode)))
  {
    var o := Fetched(w0, before, p, mtime, inode);
    assert OrdinaryAt(w0, before, keep, cap, exclude, p);
    ChainOrdinary(w0, before, keep, cap, exclude, p);
    SameDecision(w0, before, keep, done, w, p);
    NeverBlocked(w0, before, keep, cap, exclude, done, w, p);
    assert PathInv(w0, before, keep, done, w, p);
    EffectTree(w, before, cap, NodeOf(w.remote, p), keep(p), o);
    hide PathFile, PathCopy, PathRow, PathMade, Clashes, Fetches;
    forall q ensures PathInv(w0, before, keep, done + {p}, Effect(w, NodeOf(w.remote, p), keep(p), o), q) {
      assert PathInv(w0, before, keep, done, w, q);
      assert OrdinaryAt(w0, before, keep, cap, exclude, q);
      LandFile(w0, before, keep, done, w, p, q, mtime, inode);
      LandCopy(w0, before, keep, done, w, p, q, mtime, inode);
      LandKind(w0, before, keep, w, p, q, mtime, inode);
      LandRow(w0, before, keep, done, w, p, q, mtime, inode);
    }
  }

  /** Applying one more remote node, with any outcome that reports no failure, takes the
  pull one step closer to its target. */
  lemma ApplyExact(w0: World, before: Scan, keep: Namer, cap: nat, exclude: seq<string>,
                   done: set<Path>, w: World, p: Path, o: Outcome)
    requires Ordinary(w0, before, keep, cap, exclude) && WalkInv(w0, before, keep, done, w)
    requires p in w0.remote && p !in done
    requires Allowed(w, before, cap, NodeOf(w.remote, p), o) && Clean(w.remote, NodeOf(w.remote, p), o)
    ensures WalkInv(w0, before, keep, done + {p}, Effect(w, NodeOf(w.remote, p), keep(p), o))
  {
    assert OrdinaryAt(w0, before, keep, cap, exclude, p);
    SameDecision(w0, before, keep, done, w, p);
    match o
    case MadeDir(_) => DirStep(w0, before, keep, cap, exclude, done, w, p);
    case Skipped => SkipStep(w0, before, keep, done, w, p);
    case Stubbed(_) => assert false;
    case Landed(_, _, _, mtime, inode) =>
      LandStep(w0, before, keep, cap, exclude, done, w, p, mtime, inode);
  }

  // ----- dropping what the account no longer holds

  /** A path at or below something that has been dropped. */
  predicate Dropped(dropped: set<Path>, p: Path) {
    exists d :: d in dropped && AtOrUnder(p, d)
  }

  /** A folder above something that has been dropped; it may have been pruned. */
  predicate Emptied(dropped: set<Path>, p: Path) {
    exists d :: d in dropped && Under(d, p)
  }

  /** One path, after the rows of `dropped` have been removed without failure. */
  predicate ReapAt(w1: World, dropped: set<Path>, w: World, p: Path) {
    && (p in w.base <==> p in w1.base && p !in dropped)
    && (p in w.base ==> w.base[p] == w1.base[p])
    && EntryAt(w.disk, p) == (if Dropped(dropped, p) then None else EntryAt(w1.disk, p))
    && (p in w.disk ==> p in w1.disk && w.disk[p] == w1.disk[p])
    && (p in w1.disk && p !in w.disk ==> Dropped(dropped, p) || Emptied(dropped, p))
    && (IsFile(w1.disk, p) && Dropped(dropped, p) ==> (p, w1.disk[p].content) in w.trash)
  }

  ghost predicate ReapInv(w1: World, dropped: set<Path>, w: World) {
    && dropped <= w1.base.Keys - w1.remote.Keys
    && w.remote == w1.remote && w.stubs == {} && Tree(w.disk) && w.conflicts == w1.conflicts
    && forall p :: ReapAt(w1, dropped, w, p)
  }

  lemma ReapStart(w1: World)
    requires Tree(w1.disk) && w1.stubs == {}
    ensures ReapInv(w1, {}, w1)
  {
    forall p ensures ReapAt(w1, {}, w1, p) {
    }
  }

  /** Rows go one by one when the longest path goes first. */
  lemma ForgetOne(w1: World, dropped: set<Path>, w: World, p: Path, q: Path)
    requires AccountTree(w1.remote) && CaseClear(w1.base.Keys, w1.base.Keys)
    requires p in w1.base && p !in w1.remote && p !in dropped && p in w.base && p != ""
    requires forall c | c in w1.base && c !in w1.remote && c !in dropped :: |c| <= |p|
    requires q in w.base && q in w1.base && q !in dropped
    ensures q in Forget(w.base, p, w.base[p].isDir) <==> q != p
  {
    if w.base[p].isDir && q != p && Selected(p, q) {
      SubtreePatternExact(p, q);
      if q in w1.remote {
        AboveIsRemoteDir(w1.remote, q, p);
      }
      assert false;
    }
  }

  lemma RemovedEntries(w: World, w': World, p: Path, isDir: bool, q: Path)
    requires Removed(w, w', p, isDir)
    ensures EntryAt(w'.disk, q) == if AtOrUnder(q, p) then None else EntryAt(w.disk, q)
    ensures q in w'.disk ==> q in w.disk && w'.disk[q] == w.disk[q]
    ensures q in w.disk && q !in w'.disk ==> AtOrUnder(q, p) || Under(p, q)
    ensures w.trash <= w'.trash && (IsFile(w.disk, q) && AtOrUnder(q, p) ==> (q, w.disk[q].content) in w'.trash)
  {
    var t := AfterTrash(w, p);
    assert IsFile(w.disk, q) && AtOrUnder(q, p) ==> (q, w.disk[q].content) in FilesAt(w.disk, p);
    assert q in w.disk && !AtOrUnder(q, p) ==> q in t.disk;
  }

  lemma ReapStep(w1: World, dropped: set<Path>, w: World, w': World, p: Path)
    requires AccountTree(w1.remote) && CaseClear(w1.base.Keys, w1.base.Keys) && ReapInv(w1, dropped, w)
    requires p in w1.base && p !in w1.remote && p !in dropped && p != ""
    requires forall c | c in w1.base && c !in w1.remote && c !in dropped :: |c| <= |p|
    requires p in w.base && Removed(w, w', p, w.base[p].isDir)
    ensures ReapInv(w1, dropped + {p}, w')
  {
    RemovedTree(w, w', p, w.base[p].isDir);
    forall q ensures ReapAt(w1, dropped + {p}, w', q) {
      assert ReapAt(w1, dropped, w, q);
      RemovedEntries(w, w', p, w.base[p].isDir, q);
      assert Dropped(dropped + {p}, q) <==> Dropped(dropped, q) || AtOrUnder(q, p);
      assert Emptied(dropped + {p}, q) <==> Emptied(dropped, q) || Under(p, q);
      if q in w.base {
        ForgetOne(w1, dropped, w, p, q);
      }
    }
  }

  /** The rows can be dropped one by one. */
  ghost predicate Reapable(w: World) {
    && AccountTree(w.remote) && Tree(w.disk) && w.stubs == {} && "" !in w.base
    && CaseClear(w.base.Keys, w.base.Keys)
  }

  // ----- the finished pull

  /** One path of a finished pull. */
  ghost predicate PulledAt(w0: World, before: Scan, keep: Namer, w: World, p: Path) {
    && (p in w.base <==> p in w0.remote)
    && (p in w0.remote ==> RowAfter(w0, p, w.base[p]))
    && (if Fetches(w0, p) then FileAt(w.disk, p) == Some(w0.remote[p].content)
        else if p in w0.remote then EntryAt(w.disk, p) == EntryAt(w0.disk, p)
        else IsCopy(w0, before, keep, w0.remote.Keys, p)
             || EntryAt(w.disk, p) == if Gone(w0, p) then None else EntryAt(w0.disk, p))
    && (Clashes(w0, before, p) ==> EntryAt(w.disk, keep(p)) == EntryAt(w0.disk, p))
    && (p in w.disk && p in w0.remote ==> (w0.remote[p].isDir <==> w.disk[p].Dir?))
    && (IsDir(w.disk, p) ==> IsDir(w0.disk, p) || p in w0.remote)
    && (p in w0.disk && p !in w.disk ==> Gone(w0, p) || Hollow(w0, p))
    && (IsFile(w0.disk, p) && Gone(w0, p) && p !in w0.remote && !IsCopy(w0, before, keep, w0.remote.Keys, p)
        ==> (p, w0.disk[p].content) in w.trash)
    && w.conflicts[(p, keep(p))] == w0.conflicts[(p, keep(p))] + if Clashes(w0, before, p) then 1 else 0
  }

  ghost predicate Pulled(w0: World, before: Scan, keep: Namer, w: World) {
    && w.remote == w0.remote && w.stubs == {} && Tree(w.disk)
    && forall p :: PulledAt(w0, before, keep, w, p)
  }

  /** Neither a remote path nor the copy of one is below something that is gone. */
  lemma NotGone(w: World, keep: Namer, p: Path)
    requires AccountTree(w.remote) && Naming(keep) && p in w.remote
    requires forall d | d in w.base :: d != "" && NoCopy(keep, d)
    ensures !Gone(w, p) && !Gone(w, keep(p))
  {
    forall d | d in w.base && d !in w.remote ensures !AtOrUnder(p, d) && !AtOrUnder(keep(p), d) {
      if Under(p, d) { AboveIsRemoteDir(w.remote, p, d); }
      if Under(keep(p), d) {
        UnderViaParent(keep(p), d);
        UnderViaParent(p, d);
        AboveIsRemoteDir(w.remote, p, d);
      }
    }
  }

  lemma BaseIsOrdinary(w: World, before: Scan, keep: Namer, cap: nat, exclude: seq<string>)
    requires Ordinary(w, before, keep, cap, exclude)
    ensures forall d | d in w.base :: d != "" && NoCopy(keep, d)
  {
    forall d | d in w.base ensures d != "" && NoCopy(keep, d) {
      assert OrdinaryAt(w, before, keep, cap, exclude, d);
    }
  }

  lemma PullDoneAt(w0: World, before: Scan, keep: Namer, cap: nat, exclude: seq<string>,
                   w1: World, dropped: set<Path>, w: World, p: Path)
    requires AccountTree(w0.remote) && Naming(keep) && w1.remote == w0.remote
    requires forall d | d in w0.base :: d != "" && NoCopy(keep, d)
    requires PathInv(w0, before, keep, w0.remote.Keys, w1, p)
    requires p in w0.remote ==> NoCopy(keep, p)
    requires dropped == w0.base.Keys - w0.remote.Keys
    requires ReapAt(w1, dropped, w, p) && ReapAt(w1, dropped, w, keep(p)) && w.conflicts == w1.conflicts
    ensures PulledAt(w0, before, keep, w, p)
  {
    assert Dropped(dropped, p) <==> Gone(w0, p);
    assert Emptied(dropped, p) <==> Hollow(w0, p);
    assert Dropped(dropped, keep(p)) <==> Gone(w0, keep(p));
    if p in w0.remote {
      NotGone(w0, keep, p);
      assert !IsCopy(w0, before, keep, w0.remote.Keys, p);
    }
  }

  /** Walking every remote node and then dropping every row the walk did not see, all
  without failure, reaches the target. */
  lemma PullDone(w0: World, before: Scan, keep: Namer, cap: nat, exclude: seq<string>,
                 w1: World, dropped: set<Path>, w: World)
    requires Ordinary(w0, before, keep, cap, exclude)
    requires WalkInv(w0, before, keep, w0.remote.Keys, w1)
    requires dropped == w0.base.Keys - w0.remote.Keys && ReapInv(w1, dropped, w)
    ensures Pulled(w0, before, keep, w)
  {
    BaseIsOrdinary(w0, before, keep, cap, exclude);
    forall p ensures PulledAt(w0, before, keep, w, p) {
      assert PathInv(w0, before, keep, w0.remote.Keys, w1, p);
      assert OrdinaryAt(w0, before, keep, cap, exclude, p);
      assert ReapAt(w1, dropped, w, p);
      assert ReapAt(w1, dropped, w, keep(p));
      PullDoneAt(w0, before, keep, cap, exclude, w1, dropped, w, p);
    }
  }

  // ----- one run of a pull

  /** As long as nothing has failed, the pull is on its way to the target. */
  ghost predicate ExactState(w0: World, w: World, before: Scan, keep: Namer, cap: nat,
                             exclude: seq<string>, done: set<Path>, clean: bool) {
    clean && Ordinary(w0, before, keep, cap, exclude) ==> WalkInv(w0, before, keep, done, w)
  }

  lemma ExactStart(w0: World, before: Scan, keep: Namer, cap: nat, exclude: seq<string>)
    ensures ExactState(w0, w0, before, keep, cap, exclude, {}, true)
  {
    if Ordinary(w0, before, keep, cap, exclude) {
      WalkInvStart(w0, before, keep, cap, exclude);
    }
  }

  lemma ExactStep(w0: World, w: World, before: Scan, keep: Namer, cap: nat, exclude: seq<string>,
                  done: set<Path>, n: Node, o: Outcome, got: Path, clean: bool)
    requires ExactState(w0, w, before, keep, cap, exclude, done, clean) && w.remote == w0.remote
    requires n.path in w.remote && n == NodeOf(w.remote, n.path) && n.path !in done
    requires Allowed(w, before, cap, n, o)
    requires o.Landed? ==> got in w.remote && w.remote[got].link == n.link && o.got == w.remote[got].content
    ensures ExactState(w0, Effect(w, n, keep(n.path), o), before, keep, cap, exclude,
                       done + {n.path}, clean && Succeeded(o))
  {
    if clean && Succeeded(o) && Ordinary(w0, before, keep, cap, exclude) {
      SuccessIsClean(w.remote, n.path, o, got);
      ApplyExact(w0, before, keep, cap, exclude, done, w, n.path, o);
    }
  }

  /** A failure ends the claim, not the pull. */
  lemma ExactFailed(w0: World, w: World, before: Scan, keep: Namer, cap: nat, exclude: seq<string>,
                    done: set<Path>, clean: bool, clean': bool)
    requires ExactState(w0, w, before, keep, cap, exclude, done, clean) && (clean' ==> clean)
    ensures ExactState(w0, w, before, keep, cap, exclude, done, clean')
  {
  }

  lemma OrdinaryNamesAreSafe(w: World, before: Scan, keep: Namer, cap: nat, exclude: seq<string>)
    requires Ordinary(w, before, keep, cap, exclude)
    ensures forall p | p in w.remote :: ValidPath(p)
  {
    forall p | p in w.remote ensures ValidPath(p) {
      assert OrdinaryAt(w, before, keep, cap, exclude, p);
    }
  }

  lemma WalkedIsReapable(w0: World, before: Scan, keep: Namer, cap: nat, exclude: seq<string>, w1: World)
    requires Ordinary(w0, before, keep, cap, exclude) && WalkInv(w0, before, keep, w0.remote.Keys, w1)
    ensures Reapable(w1) && w1.base.Keys - w1.remote.Keys == w0.base.Keys - w0.remote.Keys
  {
    forall p ensures p in w1.base <==> p in w0.base || p in w0.remote {
      assert PathInv(w0, before, keep, w0.remote.Keys, w1, p);
    }
    assert OrdinaryAt(w0, before, keep, cap, exclude, "");
    assert "" !in w0.remote by { assert ParentOf("") == ""; }
  }

  /** A finished walk followed by a finished reaping is a finished pull. */
  lemma FinishPull(w0: World, before: Scan, keep: Namer, cap: nat, exclude: seq<string>,
                   w1: World, seen: set<Path>, w: World)
    requires ExactState(w0, w1, before, keep, cap, exclude, seen, true)
    requires w1.remote == w0.remote && seen <= w0.remote.Keys
    requires forall p | p in w0.remote && p !in seen :: !ValidPath(p)
    requires Reapable(w1) && seen == w1.remote.Keys ==> ReapInv(w1, w1.base.Keys - seen, w)
    ensures Ordinary(w0, before, keep, cap, exclude) ==> Pulled(w0, before, keep, w)
  {
    if Ordinary(w0, before, keep, cap, exclude) {
      OrdinaryNamesAreSafe(w0, before, keep, cap, exclude);
      assert seen == w0.remote.Keys;
      WalkedIsReapable(w0, before, keep, cap, exclude, w1);
      PullDone(w0, before, keep, cap, exclude, w1, w0.base.Keys - w0.remote.Keys, w);
    }
  }
}
