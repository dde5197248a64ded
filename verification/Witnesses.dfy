/** Inputs at which pDrive does not do what its documentation says, or departs from the
specification. The exact conditions stand beside the steps that they concern. */
module Witnesses {
  import opened Types
  import opened Paths
  import opened Names
  import opened SubtreePattern
  import opened Guards
  import opened World
  import opened Survival
  import opened MoveDetection
  import opened PullExact
  import opened EventReplay
  import opened PushSteps
  import opened PushRun
  import opened RowLinks
  import opened PushJob
  import opened Passes
  import opened Reconciliation
  import opened Remotes
  import opened Runs
  import opened Claims
  import opened Aftermath

  // ----- names

  lemma LetterIsNotIgnored(c: char)
    requires c != '~'
    ensures !Ignored([c])
  {
    forall s | s in IGNORED_SUFFIXES ensures !HasSuffix([c], s) {
      assert |s| > 1 || s == "~";
    }
    forall s | s in IGNORED_PREFIXES ensures !(s <= [c]) {
      assert |s| > 1;
    }
    assert [c] !in IGNORED_NAMES;
  }

  lemma LetterIsPart(c: char)
    requires c !in "/.~\0"
    ensures LastIndex([c], '/') == -1 && ParentOf([c]) == "" && BaseName([c]) == [c] && ValidPart([c])
  {
    assert forall x | x in [c] :: x == c;
  }

  /** A name of one letter is one that a scan sees. */
  lemma LetterIsVisible(c: char)
    requires c !in "/.~\0"
    ensures Visible([c], []) && ParentOf([c]) == ""
  {
    hide Ignored, ValidPart, LastIndex;
    LetterIsNotIgnored(c);
    LetterIsPart(c);
    assert ValidPath([c]);
  }

  lemma NestedIsVisible()
    ensures Visible("d", []) && ParentOf("d") == ""
    ensures Visible("d/x", []) && ParentOf("d/x") == "d" && Under("d/x", "d")
  {
    LetterIsVisible('d');
    NestedSplit();
    NestedIsValid();
    VisibleBelow("d/x");
  }

  lemma NestedIsValid()
    ensures ValidPath("d/x") && !Ignored(BaseName("d/x"))
  {
    hide Ignored, ValidPart, LastIndex, BaseName;
    LetterIsNotIgnored('x');
    LetterIsPart('x');
    LetterIsPart('d');
    NestedSplit();
    assert "d/x"[..1] == "d";
    assert ValidPath("d");
  }

  lemma VisibleBelow(p: Path)
    requires ValidPath(p) && !Ignored(BaseName(p)) && Visible(ParentOf(p), [])
    ensures Visible(p, [])
  {
    hide Ignored, ValidPart, LastIndex, BaseName, ParentOf, ValidPath;
  }

  lemma NestedSplit()
    ensures LastIndex("d/x", '/') == 1 && ParentOf("d/x") == "d" && BaseName("d/x") == "x" && Under("d/x", "d")
  {
    assert "d/x"[1] == '/' && "d/x"[2] == 'x';
    assert "d/x"[..1] == "d" && "d/x"[2..] == "x";
  }

  // ----- an unreadable folder

  const SYNCED := World(
    map["d" := Dir, "d/x" := File([7], 0, 3)], {},
    map["d" := DirRow("1", ROOT_LINK), "d/x" := Row("2", "1", false, Sum([7]), 1, 0, 3, true)],
    map["d" := RemoteDir("1", ROOT_LINK), "d/x" := RemoteFile("2", "1", [7], 0)],
    {}, multiset{})

  lemma SyncedAgrees()
    ensures Agreed(SYNCED, [])
  {
    hide Visible, ParentOf;
    NestedIsVisible();
    forall p ensures AgreedAt(SYNCED, [], p) {
    }
  }

  /** Folder, baseline and account agree, and then `d` cannot be listed. The file below it looks
  deleted, and any push that follows has the account trash it, though it is on disk. */
  lemma UnreadableFolderIsTrashed(used1: set<Link>, calls1: seq<Call>, w: World, used: set<Link>, calls: seq<Call>,
                                  moves: map<Path, Path>, granted: set<Path>, clean: bool, limit: int)
    ensures Agreed(SYNCED, [])
    ensures var local: Scan := map["d" := Describe(Dir)];
      && ReportedBy(SYNCED.disk, [], {"d"}, {}, local.Keys)
      && Vanished(SYNCED.base, local, SYNCED.stubs) == {"d/x"} && CliffAllows(1, |SYNCED.base|, limit)
      && (Pairing(SYNCED.base, SYNCED.disk, Candidates(SYNCED.base, local), {"d/x"}, moves) ==> moves == map[])
      && (Pushed(SYNCED, used1, calls1, w, used, calls, [], local, map[], granted, clean) ==>
            |calls1| <= |calls| && CallTrash("d/x", "2") in calls[|calls1|..])
  {
    hide Visible, ParentOf, Agreed, Pushed;
    var local: Scan := map["d" := Describe(Dir)];
    SyncedAgrees();
    NestedIsVisible();
    assert !Hidden({"d"}, "d");
    assert Hidden({"d"}, "d/x");
    assert ReportedBy(SYNCED.disk, [], {"d"}, {}, local.Keys);
    assert Candidates(SYNCED.base, local) == {};
    if Pairing(SYNCED.base, SYNCED.disk, Candidates(SYNCED.base, local), {"d/x"}, moves) {
      assert moves.Keys == {};
    }
    if Pushed(SYNCED, used1, calls1, w, used, calls, [], local, map[], granted, clean) {
      TrashedIffVanished(SYNCED, used1, calls1, w, used, calls, [], local, map[], granted, clean, "d/x");
    }
  }

  // ----- a placeholder that is lost

  /** One file of the account, over a cap that has been lifted since, and its placeholder. */
  const HELD_BACK := World(
    map[], {"a"}, map["a" := Row("1", ROOT_LINK, false, Unknown, 1, 0, 0, false)],
    map["a" := RemoteFile("1", ROOT_LINK, [7], 0)], {}, multiset{})

  lemma HeldBackIsQuiet()
    ensures Quiet(HELD_BACK, []) && Mirrored(HELD_BACK)
  {
    hide Visible;
    LetterIsVisible('a');
    forall p ensures QuietAt(HELD_BACK, [], p) {
    }
  }

  /** The file arrives and its placeholder is removed, but it cannot be put in place. Neither side
  has touched it; but it looks deleted here, and the push of the same pass has the account trash
  it. */
  lemma LostPlaceholderIsTrashed(copy: Path, used1: set<Link>, calls1: seq<Call>, w: World, used: set<Link>,
                                 calls: seq<Call>, granted: set<Path>, clean: bool, limit: int)
    ensures Quiet(HELD_BACK, []) && Mirrored(HELD_BACK)
    ensures var n, o := NodeOf(HELD_BACK.remote, "a"), NotCommitted([7], false);
      var w1 := Effect(HELD_BACK, n, copy, o);
      && Allowed(HELD_BACK, map[], 0, n, o) && w1.remote == HELD_BACK.remote
      && Complete(w1.disk, map[], []) && Vanished(w1.base, map[], w1.stubs) == {"a"} && CliffAllows(1, |w1.base|, limit)
      && (Pushed(w1, used1, calls1, w, used, calls, [], map[], map[], granted, clean) ==>
            |calls1| <= |calls| && CallTrash("a", "1") in calls[|calls1|..])
  {
    hide Visible, Quiet, Mirrored, Pushed;
    HeldBackIsQuiet();
    LetterIsVisible('a');
    var n, o := NodeOf(HELD_BACK.remote, "a"), NotCommitted([7], false);
    var w1 := Effect(HELD_BACK, n, copy, o);
    assert w1 == HELD_BACK.(stubs := {});
    if Pushed(w1, used1, calls1, w, used, calls, [], map[], map[], granted, clean) {
      TrashedIffVanished(w1, used1, calls1, w, used, calls, [], map[], map[], granted, clean, "a");
    }
  }

  // ----- an edit that does not beat a deletion

  lemma GoneWith(w: World, d: Path, p: Path)
    requires d in w.base && d !in w.remote && AtOrUnder(p, d)
    ensures Gone(w, p)
  {
  }

  /** A file that was edited here after the last agreement, and deleted by another device. */
  const EDITED := World(
    map["a" := File([2], 2_000_000_000, 3)], {},
    map["a" := Row("1", ROOT_LINK, false, Sum([1]), 1, 1_000_000_000, 3, true)], map[], {}, multiset{})

  const EDITED_SCAN: Scan := map["a" := LocalNode(false, 1, 2_000_000_000, 3, Sum([2]))]

  /** The file is gone everywhere, and in the local trash. */
  const TRASHED := World(map[], {}, map[], map[], {("a", [2])}, multiset{})

  /** The names that a pass gives to copies are longer than any of these. */
  lemma CopiesHaveOtherNames(stamp: string, host: string, p: Path)
    requires PlainClock(stamp, host) && |p| <= 3
    ensures Naming(p => ConflictName(p, stamp, host)) && NoCopy(p => ConflictName(p, stamp, host), p)
  {
    ConflictNamesAreNaming(stamp, host);
    var keep: Namer := p => ConflictName(p, stamp, host);
    forall q ensures keep(q) != p {
      assert |ConflictName(q, stamp, host)| >= |Marker(stamp, host)| > 3;
    }
  }

  lemma EditedIsCalm(keep: Namer)
    requires Naming(keep) && NoCopy(keep, "a")
    ensures Calm(EDITED, keep, 0, []) && Scanned(EDITED, EDITED_SCAN, [])
  {
    hide Visible;
    LetterIsVisible('a');
    assert 2_000_000_000 / 1_000_000_000 == 2;
    forall p ensures CalmAt(EDITED, keep, 0, [], p) && StatTrue(EDITED, p) {
    }
    forall p, c ensures HonestAt(EDITED, p, c) {
    }
  }

  lemma EditedIsPulled(keep: Namer)
    requires Naming(keep) && NoCopy(keep, "a")
    ensures Pulled(EDITED, EDITED_SCAN, keep, TRASHED)
  {
    assert EDITED.base.Keys == {"a"};
    forall p ensures PulledAt(EDITED, EDITED_SCAN, keep, TRASHED, p) {
      GoneWith(EDITED, "a", "a");
    }
  }

  /** The specification asks for an upload; the engine, in calm circumstances and without any
  failure, moves the edited file to the trash. */
  lemma EditDoesNotBeatDeletion(keep: Namer)
    requires Naming(keep) && NoCopy(keep, "a")
    ensures Calm(EDITED, keep, 0, []) && Scanned(EDITED, EDITED_SCAN, []) && FilePath(EDITED, [], "a")
    ensures SyncedFrom(EDITED, EDITED_SCAN, keep, [], TRASHED)
    ensures var c := CellOf(EDITED, "a");
      && Departs(EDITED, "a") && Reconcile(FactsOf(c)) == ActUpload && Settled(c).local == Some([2])
      && !AllHold(TRASHED, "a", Settled(c).local) && AllHold(TRASHED, "a", None) && ("a", [2]) in TRASHED.trash
  {
    hide Visible, Calm, Scanned, Pulled;
    LetterIsVisible('a');
    EditedIsCalm(keep);
    EditedIsPulled(keep);
    forall p ensures AgreedAt(TRASHED, [], p) {
    }
    assert PulledTo(EDITED, EDITED_SCAN, keep, TRASHED, TRASHED);
    GoneWith(EDITED, "a", "a");
  }

  // ----- a new file in a folder that was deleted elsewhere

  /** The folder was agreed on and deleted by another device; the file in it is new here. */
  const NEW_INSIDE := World(
    map["d" := Dir, "d/x" := File([2], 0, 3)], {}, map["d" := DirRow("1", ROOT_LINK)], map[], {}, multiset{})

  const NEW_SCAN: Scan := map["d" := LocalNode(true, 0, 0, 0, Unknown), "d/x" := LocalNode(false, 1, 0, 3, Sum([2]))]

  /** Folder and file are gone everywhere, and the file is in the local trash. */
  const SWEPT := World(map[], {}, map[], map[], {("d/x", [2])}, multiset{})

  lemma NewInsideIsCalm(keep: Namer)
    requires Naming(keep) && NoCopy(keep, "d") && NoCopy(keep, "d/x")
    ensures Calm(NEW_INSIDE, keep, 0, []) && Scanned(NEW_INSIDE, NEW_SCAN, [])
  {
    hide Visible, ParentOf;
    NestedIsVisible();
    CaseIsClear();
    forall p ensures CalmAt(NEW_INSIDE, keep, 0, [], p) && StatTrue(NEW_INSIDE, p) {
    }
    forall p, c ensures HonestAt(NEW_INSIDE, p, c) {
    }
  }

  lemma CaseIsClear()
    ensures CaseClear({"d"}, {"d", "d/x"})
  {
    NestedSplit();
  }

  lemma NewInsideIsPulled(keep: Namer)
    requires Naming(keep) && NoCopy(keep, "d") && NoCopy(keep, "d/x")
    ensures Pulled(NEW_INSIDE, NEW_SCAN, keep, SWEPT)
  {
    NestedSplit();
    forall p ensures PulledAt(NEW_INSIDE, NEW_SCAN, keep, SWEPT, p) {
      GoneWith(NEW_INSIDE, "d", "d");
      GoneWith(NEW_INSIDE, "d", "d/x");
    }
  }

  /** The specification uploads a file that is new here; the engine moves it to the trash with
  the folder, and it is never uploaded. */
  lemma NewFileGoesWithItsFolder(keep: Namer)
    requires Naming(keep) && NoCopy(keep, "d") && NoCopy(keep, "d/x")
    ensures Calm(NEW_INSIDE, keep, 0, []) && Scanned(NEW_INSIDE, NEW_SCAN, []) && FilePath(NEW_INSIDE, [], "d/x")
    ensures SyncedFrom(NEW_INSIDE, NEW_SCAN, keep, [], SWEPT)
    ensures var c := CellOf(NEW_INSIDE, "d/x");
      && c.base.None? && Departs(NEW_INSIDE, "d/x")
      && Reconcile(FactsOf(c)) == ActUpload && Settled(c).local == Some([2])
      && !AllHold(SWEPT, "d/x", Settled(c).local) && AllHold(SWEPT, "d/x", None) && ("d/x", [2]) in SWEPT.trash
  {
    hide Visible, Calm, Scanned, Pulled;
    NestedIsVisible();
    NewInsideIsCalm(keep);
    NewInsideIsPulled(keep);
    forall p ensures AgreedAt(SWEPT, [], p) {
    }
    assert PulledTo(NEW_INSIDE, NEW_SCAN, keep, SWEPT, SWEPT);
    GoneWith(NEW_INSIDE, "d", "d/x");
  }

  // ----- a new folder that is re-listed before the one it lies in

  /** Another device has made a folder with a file in it; the delta tells of both. */
  const NEW_TREE := World(
    map[], {}, map[], map["d" := RemoteDir("1", ROOT_LINK), "d/x" := RemoteFile("2", "1", [7], 0)], {}, multiset{})

  const BOTH_TOLD := [Upsert("1", Some(ROOT_LINK)), Upsert("2", Some("1"))]

  lemma NewTreeIsReplayable(keep: Namer)
    requires Naming(keep) && NoCopy(keep, "d") && NoCopy(keep, "d/x")
    ensures Replayable(NEW_TREE, map[], keep, 0, [], BOTH_TOLD)
  {
    hide Visible, ParentOf;
    NestedIsVisible();
    CaseIsClear();
    forall p ensures OrdinaryAt(NEW_TREE, map[], keep, 0, [], p) {
    }
    forall p ensures CoversAt(NEW_TREE, BOTH_TOLD, p) {
      assert NamesFolder(BOTH_TOLD[0], NEW_TREE.remote, ROOT_LINK) && NamesFolder(BOTH_TOLD[1], NEW_TREE.remote, "1");
    }
  }

  /** A replay may re-list the two folders in either order. If the new one comes first, it is
  passed over as unknown, and its file gets neither a row nor a place on disk. */
  lemma ChildFirstStaysAway(keep: Namer, w: World, done: set<Path>)
    requires Naming(keep) && NoCopy(keep, "d") && NoCopy(keep, "d/x")
    ensures Replayable(NEW_TREE, map[], keep, 0, [], BOTH_TOLD) && !ParentsMet(NEW_TREE)
    ensures forall link :: Announces(BOTH_TOLD, NEW_TREE.remote, link) <==> link in {ROOT_LINK, "1"}
    ensures OrderOf(["1", ROOT_LINK], {ROOT_LINK, "1"}) && OrderOf([ROOT_LINK, "1"], {ROOT_LINK, "1"})
    ensures Reaches(NEW_TREE, [ROOT_LINK, "1"]) && !Reaches(NEW_TREE, ["1", ROOT_LINK])
    ensures RelistInv(NEW_TREE, w, map[], keep, 0, [], ["1", ROOT_LINK], done, true) ==>
              w.base.Keys == {"d"} && "d/x" !in w.disk && w.remote == NEW_TREE.remote
  {
    hide NoCopy;
    NewTreeIsReplayable(keep);
    NestedSplit();
    NewTreeOrders();
    assert NamesFolder(BOTH_TOLD[0], NEW_TREE.remote, ROOT_LINK) && NamesFolder(BOTH_TOLD[1], NEW_TREE.remote, "1");
    if RelistInv(NEW_TREE, w, map[], keep, 0, [], ["1", ROOT_LINK], done, true) {
      ChildFirstLeaves(keep, w, done);
    }
  }

  lemma NewTreeOrders()
    ensures OrderOf(["1", ROOT_LINK], {ROOT_LINK, "1"}) && OrderOf([ROOT_LINK, "1"], {ROOT_LINK, "1"})
    ensures Reaches(NEW_TREE, [ROOT_LINK, "1"]) && !Reaches(NEW_TREE, ["1", ROOT_LINK])
    ensures Heard(NEW_TREE.remote, {}, ["1", ROOT_LINK]) == {"d"}
  {
    var remote := NEW_TREE.remote;
    assert Heard(remote, {}, []) == {} && Remaining(NEW_TREE) == {};
    assert ["1", ROOT_LINK][..1] == ["1"] && [ROOT_LINK, "1"][..1] == [ROOT_LINK];
    assert Children(remote, ROOT_LINK) == {"d"} && Children(remote, "1") == {"d/x"};
    assert Heard(remote, {}, ["1"]) == {} && Heard(remote, {}, [ROOT_LINK]) == {"d"};
    assert Heard(remote, {}, ["1", ROOT_LINK]) == {"d"};
  }

  lemma ChildFirstLeaves(keep: Namer, w: World, done: set<Path>)
    requires Replayable(NEW_TREE, map[], keep, 0, [], BOTH_TOLD)
    requires RelistInv(NEW_TREE, w, map[], keep, 0, [], ["1", ROOT_LINK], done, true)
    ensures w.base.Keys == {"d"} && "d/x" !in w.disk && w.remote == NEW_TREE.remote
  {
    hide CalmAt, ScanAt, Visible, Heard, CoversAt, CaseClear, AccountTree;
    NewTreeOrders();
    assert NEW_TREE.base.Keys == {};
    assert Still(map[], NEW_TREE.disk) == map[];
    RelistBase(keep, w, done);
    assert PathInv(NEW_TREE, map[], keep, done, w, "d/x");
  }

  lemma RelistBase(keep: Namer, w: World, done: set<Path>)
    requires Ordinary(NEW_TREE, map[], keep, 0, []) && WalkInv(NEW_TREE, map[], keep, done, w) && done == {"d"}
    ensures w.base.Keys == {"d"}
  {
    forall p ensures p in w.base <==> p == "d" { assert PathInv(NEW_TREE, map[], keep, done, w, p); }
  }

  /** The same account, walked. The folder could not be made, its file then arrived, and made the
  folder on the way: nobody touched anything here, and the push asks for the folder. */
  lemma MissedFolderIsSent(copy: Path, used1: set<Link>, calls1: seq<Call>, w: World, used: set<Link>, calls: seq<Call>,
                           local: Scan, moves: map<Path, Path>, granted: set<Path>)
    ensures QuietPass(NEW_TREE, map[], [])
    ensures var remote, landed := NEW_TREE.remote, Landed([7], false, true, 0, 3);
      var w1 := Effect(NEW_TREE, NodeOf(remote, "d/x"), copy, landed);
      && Allowed(NEW_TREE, map[], 0, NodeOf(remote, "d"), Failed(false))
      && Fault(NEW_TREE, NodeOf(remote, "d"), Failed(false))
      && Effect(NEW_TREE, NodeOf(remote, "d"), copy, Failed(false)) == NEW_TREE
      && Allowed(NEW_TREE, map[], 0, NodeOf(remote, "d/x"), landed) && w1.base.Keys == {"d/x"}
      && (Pushed(w1, used1, calls1, w, used, calls, [], local, moves, granted, true) && SameLocal(w1, w)
          && Rescanned(w1.disk, local, []) && Complete(w1.disk, local, []) && MovesToNew(w1.base, local, moves)
          ==> Requested("d", true, calls1, calls))
  {
    hide Visible, Pushed, Requested, Rescanned, Complete, MovesToNew;
    NestedIsVisible();
    NestedSplit();
    NewTreeIsQuiet();
    var o := Landed([7], false, true, 0, 3);
    var w1 := Effect(NEW_TREE, NodeOf(NEW_TREE.remote, "d/x"), copy, o);
    assert "d/x" in w1.disk;
    if Pushed(w1, used1, calls1, w, used, calls, [], local, moves, granted, true) && SameLocal(w1, w)
       && Rescanned(w1.disk, local, []) && Complete(w1.disk, local, []) && MovesToNew(w1.base, local, moves) {
      OrphanIsAskedFor(NEW_TREE, map[], 0, copy, "d/x", o, used1, calls1, w, used, calls, [], local, moves, granted);
    }
  }

  lemma NewTreeIsQuiet()
    ensures QuietPass(NEW_TREE, map[], [])
  {
    hide Visible, ParentOf;
    NestedIsVisible();
    forall p ensures QuietAt(NEW_TREE, [], p) {
    }
  }

  // ----- another device's revision that is lost

  /** A file that another device has revised, and that was edited here as well. */
  const REVISED := World(
    map["a" := File([3], 0, 3)], {}, map["a" := Row("1", ROOT_LINK, false, Sum([1]), 1, 0, 3, true)],
    map["a" := RemoteFile("1", ROOT_LINK, [2, 2], 0)], {}, multiset{})

  /** Two ways in which the pull leaves it so: the download fails, or the revision is over the
  size cap, and then nothing fails. The push uploads the edit over the revision. */
  lemma RevisionIsOverwritten(copy: Path, used1: set<Link>, calls1: seq<Call>, w: World, used: set<Link>,
                              calls: seq<Call>, local: Scan, moves: map<Path, Path>, granted: set<Path>)
    ensures Revised(REVISED, "a") && ChangedHere(REVISED, "a")
    ensures var n := NodeOf(REVISED.remote, "a");
      && Allowed(REVISED, map[], 0, n, Failed(false)) && Effect(REVISED, n, copy, Failed(false)) == REVISED
      && Allowed(REVISED, map[], 1, n, Skipped) && Effect(REVISED, n, copy, Skipped) == REVISED
      && Succeeded(Skipped)
    ensures Pushed(REVISED, used1, calls1, w, used, calls, [], local, moves, granted, true)
            && Rescanned(REVISED.disk, local, []) && Complete(REVISED.disk, local, [])
            && MovesToNew(REVISED.base, local, moves) && "a" !in moves
            ==> Requested("a", false, calls1, calls)
  {
    hide Visible, Pushed, Requested;
    LetterIsVisible('a');
    if Pushed(REVISED, used1, calls1, w, used, calls, [], local, moves, granted, true)
       && Rescanned(REVISED.disk, local, []) && Complete(REVISED.disk, local, [])
       && MovesToNew(REVISED.base, local, moves) && "a" !in moves {
      UploadedIffChanged(REVISED, used1, calls1, w, used, calls, [], local, moves, granted, true, "a");
    }
  }

  /** If it was deleted here and the download fails, the push has the account trash the revision. */
  lemma RevisionIsTrashed(copy: Path, used1: set<Link>, calls1: seq<Call>, w: World, used: set<Link>, calls: seq<Call>,
                          granted: set<Path>, clean: bool)
    ensures var w0 := REVISED.(disk := map[]);
      && Revised(w0, "a") && ChangedHere(w0, "a")
      && Allowed(w0, map[], 0, NodeOf(w0.remote, "a"), Failed(false))
      && Effect(w0, NodeOf(w0.remote, "a"), copy, Failed(false)) == w0
      && (Pushed(w0, used1, calls1, w, used, calls, [], map[], map[], granted, clean)
          ==> |calls1| <= |calls| && CallTrash("a", "1") in calls[|calls1|..])
  {
    hide Pushed;
    var w0 := REVISED.(disk := map[]);
    if Pushed(w0, used1, calls1, w, used, calls, [], map[], map[], granted, clean) {
      TrashedIffVanished(w0, used1, calls1, w, used, calls, [], map[], map[], granted, clean, "a");
    }
  }

  // ----- a path taken up twice, and an edit that is lost

  /** Another device has renamed the folder `d` to `e` and made a new `d`; both hold an `x` that is
  new, and here `d/x` was edited. */
  const CROSSED := World(
    map["d" := Dir, "d/x" := File([3], 0, 5)], {},
    map["d" := DirRow("1", ROOT_LINK), "d/x" := Row("2", "1", false, Sum([1]), 1, 0, 5, true)],
    map["d" := RemoteDir("3", ROOT_LINK), "d/x" := RemoteFile("4", "3", [5], 0),
        "e" := RemoteDir("1", ROOT_LINK), "e/x" := RemoteFile("2", "1", [2], 0)], {}, multiset{})

  const CROSSED_SCAN: Scan :=
    map["d" := LocalNode(true, 0, 0, 0, Unknown), "d/x" := LocalNode(false, 1, 0, 5, Sum([3]))]

  /** After the renamed folder was re-listed, and after the new one was recorded. */
  function CrossedOnce(copy: Path): World {
    World(map["d" := Dir, copy := File([3], 0, 5), "d/x" := File([2], 0, 6)], {},
          CROSSED.base["d/x" := Row("2", "1", false, Sum([2]), 1, 0, 6, true)], CROSSED.remote, {},
          multiset{("d/x", copy)})
  }

  function CrossedTwice(copy: Path): World {
    CrossedOnce(copy).(base := CrossedOnce(copy).base["d" := DirRow("3", ROOT_LINK)])
  }

  const RENAMED_X := Node("d/x", "2", "1", false, 1, 0, Sum([2]))

  const NEW_X := Node("d/x", "4", "3", false, 1, 0, Sum([5]))

  lemma BelowLetter(c: char)
    requires c !in "/.~\0"
    ensures ParentOf([c]) == "" && ParentOf([c] + "/x") == [c] && BaseName([c] + "/x") == "x"
    ensures Chain([c]) == {[c]} && Chain([c] + "/x") == {[c] + "/x", [c]}
  {
    LetterIsPart(c);
    var p := [c] + "/x";
    assert p[1] == '/' && p[2] == 'x';
    assert LastIndex(p, '/') == 1;
    assert p[..1] == [c] && p[2..] == "x";
    assert Chain("") == {};
  }

  lemma CrossedPaths()
    ensures ParentOf("d") == "" && ParentOf("d/x") == "d" && BaseName("d/x") == "x" && Join("d", "x") == "d/x"
    ensures ParentOf("e") == "" && ParentOf("e/x") == "e" && BaseName("e/x") == "x"
    ensures Chain("d") == {"d"} && Chain("d/x") == {"d/x", "d"} && Chain("e") == {"e"} && Chain("e/x") == {"e/x", "e"}
  {
    BelowLetter('d');
    BelowLetter('e');
    assert ['d'] == "d" && ['d'] + "/x" == "d/x" && ['e'] == "e" && ['e'] + "/x" == "e/x";
    assert "d" + "/" + "x" == "d/x";
  }

  lemma CrossedNodes()
    ensures ChildNode("d", "e/x", CROSSED.remote["e/x"]) == RENAMED_X
    ensures ChildNode("d", "d/x", CROSSED.remote["d/x"]) == NodeOf(CROSSED.remote, "d/x") == NEW_X
    ensures FolderKnown(CROSSED.base, "1", "d") && !StableLink(CROSSED, "d", "e")
  {
    hide ParentOf, BaseName, Join;
    CrossedPaths();
  }

  lemma CrossedFirst(copy: Path)
    requires copy !in {"d", "d/x"}
    ensures Allowed(CROSSED, CROSSED_SCAN, 0, RENAMED_X, Landed([2], true, true, 0, 6))
    ensures Effect(CROSSED, RENAMED_X, copy, Landed([2], true, true, 0, 6)) == CrossedOnce(copy)
  {
    hide ParentOf, Chain;
    CrossedPaths();
    assert WithDirs(CROSSED.disk, "d") == CROSSED.disk;
    assert (CROSSED.disk - {"d/x"})[copy := File([3], 0, 5)]["d/x" := File([2], 0, 6)] == CrossedOnce(copy).disk;
  }

  lemma CrossedSecond(copy: Path)
    requires copy !in {"d", "d/x"}
    ensures Allowed(CrossedOnce(copy), CROSSED_SCAN, 0, NodeOf(CROSSED.remote, "d"), MadeDir(true))
    ensures Effect(CrossedOnce(copy), NodeOf(CROSSED.remote, "d"), copy, MadeDir(true)) == CrossedTwice(copy)
  {
    hide ParentOf, Chain;
    CrossedPaths();
    assert WithDirs(CrossedOnce(copy).disk, "d") == CrossedOnce(copy).disk;
  }

  lemma CrossedThird(copy: Path)
    requires copy !in {"d", "d/x"}
    ensures Allowed(CrossedTwice(copy), CROSSED_SCAN, 0, NEW_X, Landed([5], true, true, 0, 7))
    ensures var w := Effect(CrossedTwice(copy), NEW_X, copy, Landed([5], true, true, 0, 7));
      (forall p :: FileAt(w.disk, p) != Some([3])) && w.trash == {}
  {
    hide ParentOf, Chain;
    CrossedPaths();
    assert WithDirs(CrossedTwice(copy).disk, "d") == CrossedTwice(copy).disk;
  }

  lemma CrossedIsOrdinary(keep: Namer)
    requires Naming(keep) && NoCopy(keep, "d") && NoCopy(keep, "d/x") && NoCopy(keep, "e") && NoCopy(keep, "e/x")
    ensures StatAccurate(CROSSED) && ScanTrue(CROSSED, CROSSED_SCAN) && AccountTree(CROSSED.remote)
    ensures (forall p :: FreshName(CROSSED.disk, keep, p)) && (forall p | p in CROSSED.remote :: Listed(keep, p))
  {
    hide ParentOf, Chain, AccountTree, Listed, FreshName;
    CrossedNames(keep);
    CrossedTree();
    forall p ensures StatTrue(CROSSED, p) && ScannedTrue(CROSSED.disk, CROSSED_SCAN, p) {
    }
  }

  lemma CrossedTree()
    ensures AccountTree(CROSSED.remote)
  {
    hide ParentOf;
    CrossedPaths();
  }

  lemma CrossedNames(keep: Namer)
    requires NoCopy(keep, "d") && NoCopy(keep, "d/x") && NoCopy(keep, "e") && NoCopy(keep, "e/x")
    ensures (forall p :: FreshName(CROSSED.disk, keep, p)) && (forall p | p in CROSSED.remote :: Listed(keep, p))
  {
    hide ParentOf, Chain, NoCopy;
    CrossedPaths();
  }

  /** The renamed folder is re-listed while its row still says `d`, so its `x` lands on `d/x`, and
  the edit is renamed aside. Then the new `d` comes, and its own `x`: by the scan before the pull
  the file at `d/x` is still the edit, so it is renamed aside as well, onto the only copy of it. */
  lemma EditIsOverwritten(keep: Namer)
    requires Naming(keep) && NoCopy(keep, "d") && NoCopy(keep, "d/x") && NoCopy(keep, "e") && NoCopy(keep, "e/x")
    ensures StatAccurate(CROSSED) && ScanTrue(CROSSED, CROSSED_SCAN) && AccountTree(CROSSED.remote)
    ensures (forall p :: FreshName(CROSSED.disk, keep, p)) && (forall p | p in CROSSED.remote :: Listed(keep, p))
    ensures var r, copy, first, second := CROSSED.remote, keep("d/x"), Landed([2], true, true, 0, 6),
                                          Landed([5], true, true, 0, 7);
      && FolderKnown(CROSSED.base, "1", "d") && ChildNode("d", "e/x", r["e/x"]) == RENAMED_X
      && !StableLink(CROSSED, "d", "e") && Allowed(CROSSED, CROSSED_SCAN, 0, RENAMED_X, first)
      && Effect(CROSSED, RENAMED_X, copy, first) == CrossedOnce(copy)
      && Allowed(CrossedOnce(copy), CROSSED_SCAN, 0, NodeOf(r, "d"), MadeDir(true))
      && Effect(CrossedOnce(copy), NodeOf(r, "d"), copy, MadeDir(true)) == CrossedTwice(copy)
      && FolderKnown(CrossedTwice(copy).base, "3", "d") && ChildNode("d", "d/x", r["d/x"]) == NEW_X
      && Allowed(CrossedTwice(copy), CROSSED_SCAN, 0, NEW_X, second)
      && var w := Effect(CrossedTwice(copy), NEW_X, copy, second);
         (forall p :: FileAt(w.disk, p) != Some([3])) && w.trash == {}
  {
    hide Allowed, Effect, ChildNode, AccountTree, Listed, FreshName;
    CrossedIsOrdinary(keep);
    CrossedNodes();
    CrossedFirst(keep("d/x"));
    CrossedSecond(keep("d/x"));
    CrossedThird(keep("d/x"));
  }

  // ----- a moved node that is trashed after all

  /** After a move whose old row could not be forgotten, and a pull, two rows carry one link: `a`
  and `d`. Both files are gone by now, and `x` has the inode of the first. */
  const TWO_ROWS: Base := map["a" := Row("1", ROOT_LINK, false, Sum([7]), 1, 0, 3, true),
                              "d" := Row("1", ROOT_LINK, false, Sum([7]), 1, 0, 4, true)]

  /** The account has moved the node from `a` to `x`; what is left to do is to trash `d`. */
  const MOVED_ONE := World(
    map["x" := File([7], 0, 3)], {}, map["d" := TWO_ROWS["d"], "x" := TWO_ROWS["a"]],
    map["x" := RemoteFile("1", ROOT_LINK, [7], 0)], {}, multiset{})

  /** The row that is still due takes the moved node along: it carries the same link. */
  lemma TwinRowTakesMovedNode()
    ensures var plan := Plan(TWO_ROWS, {"d"}, map["a" := "x"], {}, {});
      && Matches(TWO_ROWS, MOVED_ONE.disk, {}, "a", "x") && Linked(MOVED_ONE, {"1"}, []) && !plan.OwnLink("a")
      && TrashOutcome(MOVED_ONE, MOVED_ONE.(remote := Without(MOVED_ONE.remote, "x"),
                                            base := Forget(MOVED_ONE.base, "d", false)), plan.base["d"], "d", "x", true)
      && "x" !in Without(MOVED_ONE.remote, "x")
  {
    hide Visible;
    LetterIsVisible('d');
    LetterIsVisible('x');
    assert TWO_ROWS["a"].link == TWO_ROWS["d"].link;
    forall p | p in MOVED_ONE.base ensures LinkedAt(MOVED_ONE, {"1"}, [], p) {
    }
  }
}
