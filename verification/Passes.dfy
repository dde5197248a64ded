/** What one whole pass achieves: pull and push together (internal/mirror/push.go), measured
against the per-path specification (internal/mirror/reconcile.go). */
module Passes {
  import opened Types
  import opened Paths
  import opened Names
  import opened SubtreePattern
  import opened World
  import opened Survival
  import opened PullExact
  import opened PushSteps
  import opened PushRun
  import opened Reconciliation

  // ----- where a pass starts

  /** A vanished file's inode is found only on the same content. */
  predicate HonestAt(w: World, p: Path, c: Path) {
    p in w.base && p !in w.disk && !w.base[p].isDir && w.base[p].inode != 0
    && IsFile(w.disk, c) && w.disk[c].inode == w.base[p].inode
    ==> w.base[p].hash == Sum(w.disk[c].content)
  }

  /** Ordinary circumstances, told from the trees alone. */
  ghost predicate Calm(w: World, keep: Namer, cap: nat, exclude: seq<string>) {
    && CalmTrees(w, keep) && StatAccurate(w)
    && (forall p :: CalmAt(w, keep, cap, exclude, p)) && (forall p, c :: HonestAt(w, p, c))
  }

  /** The scan before the pull saw everything and hashed it, or left a hash out. */
  ghost predicate Scanned(w: World, before: Scan, exclude: seq<string>) {
    && (forall p | p in before :: Visible(p, exclude) && Hashed(w, p, before[p]))
    && (forall p | Live(w.disk, exclude, p) :: p in before)
  }

  lemma ScanIsWhole(w: World, before: Scan, exclude: seq<string>)
    requires forall p | p in before :: Visible(p, exclude) && Hashed(w, p, before[p])
    requires forall p | p in w.disk && Visible(p, exclude) :: p in before
    ensures Scanned(w, before, exclude)
  {
    hide Visible;
  }

  lemma CalmIsOrdinary(w: World, before: Scan, keep: Namer, cap: nat, exclude: seq<string>)
    requires Calm(w, keep, cap, exclude) && Scanned(w, before, exclude)
    ensures Ordinary(w, before, keep, cap, exclude)
  {
    hide Visible;
    forall p ensures OrdinaryAt(w, before, keep, cap, exclude, p) {
      assert CalmAt(w, keep, cap, exclude, p);
      assert StatTrue(w, p);
      if p in before { assert Hashed(w, p, before[p]); }
    }
  }

  // ----- from the pull to the push

  lemma PulledRow(w0: World, before: Scan, keep: Namer, cap: nat, exclude: seq<string>, w: World, p: Path)
    requires OrdinaryAt(w0, before, keep, cap, exclude, p) && PulledAt(w0, before, keep, w, p)
    requires w.remote == w0.remote
    ensures PushAt(w, exclude, p)
  {
    hide Visible;
  }

  /** A file of the pulled folder is remote, or was there before, or is a conflict copy. */
  lemma PulledEntry(w0: World, before: Scan, keep: Namer, w: World, p: Path)
    requires PulledAt(w0, before, keep, w, p) && p in w.disk
    ensures p in w0.remote || p in w0.disk || IsCopy(w0, before, keep, w0.remote.Keys, p)
  {
  }

  lemma PulledCaseClear(w0: World, before: Scan, keep: Namer, cap: nat, exclude: seq<string>, w: World)
    requires Ordinary(w0, before, keep, cap, exclude) && Pulled(w0, before, keep, w)
    ensures CaseClear(w.base.Keys, w.base.Keys + w.disk.Keys)
  {
    forall p, d {:trigger FoldUnder(p, d)} | p in w.base.Keys + w.disk.Keys && d in w.base.Keys && FoldUnder(p, d)
      ensures Under(p, d)
    {
      assert PulledAt(w0, before, keep, w, d);
      assert PulledAt(w0, before, keep, w, p);
      if p !in w0.remote {
        PulledEntry(w0, before, keep, w, p);
        if p !in w0.disk {
          var q :| q in w0.remote.Keys && Clashes(w0, before, q) && keep(q) == p;
          NodeIsNamed(w0.remote, d);
          FoldUnderSibling(p, q, d);
        }
      }
    }
  }

  lemma PulledHonest(w0: World, before: Scan, keep: Namer, cap: nat, exclude: seq<string>, w: World, p: Path, c: Path)
    requires Ordinary(w0, before, keep, cap, exclude) && Pulled(w0, before, keep, w)
    requires forall q, x :: HonestAt(w0, q, x)
    requires p in w.base && p !in w.disk && !w.base[p].isDir && w.base[p].inode != 0
    requires IsFile(w.disk, c) && c !in w.base && w.disk[c].inode == w.base[p].inode
    ensures w.base[p].hash == Sum(w.disk[c].content)
  {
    assert OrdinaryAt(w0, before, keep, cap, exclude, p);
    assert PulledAt(w0, before, keep, w, p);
    assert PulledAt(w0, before, keep, w, c);
    assert HonestAt(w0, p, c);
    if EntryAt(w.disk, c) != EntryAt(w0.disk, c) {
      var q :| q in w0.remote.Keys && Clashes(w0, before, q) && keep(q) == c;
      assert PulledAt(w0, before, keep, w, q);
      assert HonestAt(w0, p, q);
      assert EntryAt(w.disk, c) == EntryAt(w0.disk, q);
    }
  }

  /** A finished pull leaves what an exact push can start from. */
  lemma PulledIsPushable(w0: World, before: Scan, keep: Namer, cap: nat, exclude: seq<string>, w: World)
    requires Ordinary(w0, before, keep, cap, exclude) && Pulled(w0, before, keep, w)
    requires forall p, c :: HonestAt(w0, p, c)
    ensures Pushable(w, exclude)
  {
    forall p ensures PushAt(w, exclude, p) {
      assert OrdinaryAt(w0, before, keep, cap, exclude, p);
      assert PulledAt(w0, before, keep, w, p);
      PulledRow(w0, before, keep, cap, exclude, w, p);
    }
    PulledCaseClear(w0, before, keep, cap, exclude, w);
    forall p, c | p in w.base && p !in w.disk && !w.base[p].isDir && w.base[p].inode != 0
                  && IsFile(w.disk, c) && c !in w.base && w.disk[c].inode == w.base[p].inode
      ensures w.base[p].hash == Sum(w.disk[c].content)
    {
      PulledHonest(w0, before, keep, cap, exclude, w, p, c);
    }
  }

  // ----- one pass against the specification

  /** The outcome of an exact pass: the folder is what the pull made of it, and baseline and
  account agree with it. */
  ghost predicate SyncedFrom(w0: World, before: Scan, keep: Namer, exclude: seq<string>, f: World) {
    Agreed(f, exclude) && exists w1 :: PulledTo(w0, before, keep, w1, f)
  }

  ghost predicate PulledTo(w0: World, before: Scan, keep: Namer, w1: World, f: World) {
    Pulled(w0, before, keep, w1) && SameLocal(w1, f)
  }

  function BaseContent(base: Base, p: Path): Option<Content> {
    if p in base && base[p].hash.Sum? then Some(base[p].hash.of) else None
  }

  function RemoteContent(remote: Account, p: Path): Option<Content> {
    if p in remote && !remote[p].isDir then Some(remote[p].content) else None
  }

  /** What the three sides hold at one path before the pass. */
  function CellOf(w: World, p: Path): Cell {
    Cell(BaseContent(w.base, p), FileAt(w.disk, p), RemoteContent(w.remote, p), None, None)
  }

  /** The three sides hold this content, or all hold nothing. */
  predicate AllHold(w: World, p: Path, c: Option<Content>) {
    BaseContent(w.base, p) == c && FileAt(w.disk, p) == c && RemoteContent(w.remote, p) == c
  }

  /** The cases in which the engine departs from the specification: a local version unlike the
  baseline that the account does not have, at or below a tracked path that is gone remotely. It
  was edited here and deleted there, or it is new in a folder that was deleted there. */
  predicate Departs(w: World, p: Path) {
    var c := CellOf(w, p);
    c.local.Some? && c.local != c.base && c.remote.None? && Gone(w, p)
  }

  /** `p` is a file wherever it exists. */
  ghost predicate FilePath(w: World, exclude: seq<string>, p: Path) {
    && Visible(p, exclude) && !IsDir(w.disk, p)
    && (p in w.base ==> !w.base[p].isDir) && (p in w.remote ==> !w.remote[p].isDir)
  }

  /** In an agreed state the three sides of a visible path hold the same. */
  lemma AgreedCell(f: World, exclude: seq<string>, p: Path)
    requires Agreed(f, exclude) && Visible(p, exclude)
    ensures AllHold(f, p, FileAt(f.disk, p))
  {
    hide Visible;
    assert AgreedAt(f, exclude, p);
  }

  /** What the pull leaves at a file's path is what the specification asks for, unless the
  engine departs from it; then nothing is left. */
  lemma PulledCell(w0: World, before: Scan, keep: Namer, cap: nat, exclude: seq<string>, w1: World, p: Path)
    requires OrdinaryAt(w0, before, keep, cap, exclude, p) && NoCopy(keep, p) && FilePath(w0, exclude, p)
    requires PulledAt(w0, before, keep, w1, p) && (p in w0.remote ==> !Gone(w0, p))
    ensures FileAt(w1.disk, p) == if Departs(w0, p) then None else Settled(CellOf(w0, p)).local
    ensures Departs(w0, p) ==> Settled(CellOf(w0, p)).local == FileAt(w0.disk, p)
  {
    hide Visible;
    assert !IsCopy(w0, before, keep, w0.remote.Keys, p);
    assert p in w0.base && p !in w0.remote ==> Gone(w0, p);
  }

  /** A conflict is recorded, and a copy kept, exactly where the specification has one. */
  lemma PulledConflict(w0: World, before: Scan, keep: Namer, cap: nat, exclude: seq<string>, w1: World, p: Path)
    requires OrdinaryAt(w0, before, keep, cap, exclude, p) && NoCopy(keep, p) && FilePath(w0, exclude, p)
    requires PulledAt(w0, before, keep, w1, p)
    ensures var s := Settled(CellOf(w0, p));
      && (s.copy.Some? ==> FileAt(w1.disk, keep(p)) == s.copy)
      && w1.conflicts[(p, keep(p))] == w0.conflicts[(p, keep(p))] + if s.copy.Some? then 1 else 0
  {
    hide Visible;
    assert Clashes(w0, before, p) <==> Settled(CellOf(w0, p)).copy.Some?;
  }

  /** A version that goes to the trash is there. */
  lemma PulledTrash(w0: World, before: Scan, keep: Namer, cap: nat, exclude: seq<string>, w1: World, p: Path)
    requires OrdinaryAt(w0, before, keep, cap, exclude, p) && NoCopy(keep, p) && FilePath(w0, exclude, p)
    requires PulledAt(w0, before, keep, w1, p)
    ensures p !in w0.remote && Gone(w0, p) && IsFile(w0.disk, p) ==> (p, w0.disk[p].content) in w1.trash
  {
    assert !IsCopy(w0, before, keep, w0.remote.Keys, p);
  }

  /** One failure-free pass has, at every file's path, exactly the net effect of the action
  that the specification decides on, if and only if the engine does not depart from it there:
  then the specification uploads the local version, and the engine moves it to the trash. */
  lemma EngineRefinesSpecification(w0: World, before: Scan, keep: Namer, cap: nat, exclude: seq<string>,
                                   f: World, p: Path)
    requires Ordinary(w0, before, keep, cap, exclude) && SyncedFrom(w0, before, keep, exclude, f)
    requires NoCopy(keep, p) && FilePath(w0, exclude, p)
    ensures var c := CellOf(w0, p); var s := Settled(c);
      && (AllHold(f, p, s.local) <==> !Departs(w0, p))
      && (Departs(w0, p) ==> s.local == c.local && AllHold(f, p, None))
      && (c.local.Some? && c.remote.None? && Gone(w0, p) ==> (p, c.local.value) in f.trash)
      && (s.copy.Some? ==> FileAt(f.disk, keep(p)) == s.copy)
      && f.conflicts[(p, keep(p))] == w0.conflicts[(p, keep(p))] + if s.copy.Some? then 1 else 0
  {
    hide Visible;
    var w1 :| PulledTo(w0, before, keep, w1, f);
    assert OrdinaryAt(w0, before, keep, cap, exclude, p);
    assert PulledAt(w0, before, keep, w1, p);
    BaseIsOrdinary(w0, before, keep, cap, exclude);
    if p in w0.remote { NotGone(w0, keep, p); }
    PulledCell(w0, before, keep, cap, exclude, w1, p);
    PulledConflict(w0, before, keep, cap, exclude, w1, p);
    PulledTrash(w0, before, keep, cap, exclude, w1, p);
    AgreedCell(f, exclude, p);
  }

  /** If base, local and remote are pairwise different, both versions end up on all three
  sides: the remote one at the path, the local one at the copy. */
  lemma ConflictComplete(w0: World, before: Scan, keep: Namer, cap: nat, exclude: seq<string>, f: World, p: Path)
    requires Ordinary(w0, before, keep, cap, exclude) && SyncedFrom(w0, before, keep, exclude, f)
    requires NoCopy(keep, p) && FilePath(w0, exclude, p) && Visible(keep(p), exclude)
    requires var c := CellOf(w0, p);
      && c.local.Some? && c.remote.Some? && c.base != c.local && c.base != c.remote && c.local != c.remote
    ensures AllHold(f, p, RemoteContent(w0.remote, p)) && AllHold(f, keep(p), FileAt(w0.disk, p))
    ensures f.conflicts[(p, keep(p))] == w0.conflicts[(p, keep(p))] + 1
  {
    hide Visible;
    EngineRefinesSpecification(w0, before, keep, cap, exclude, f, p);
    AgreedCell(f, exclude, keep(p));
  }
}
