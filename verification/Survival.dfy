/** No scanned file loses its bytes during a pull, whatever fails on the way. */
module Survival {
  import opened Types
  import opened Paths
  import opened Names
  import opened World

  /** How one pass names its conflict copies: `p => ConflictName(p, stamp, host)`. */
  type Namer = Path -> Path

  /** Copies are siblings of their originals, and no two share a name. */
  ghost predicate Naming(keep: Namer) {
    && (forall p :: ParentOf(keep(p)) == ParentOf(p) && keep(p) != p && keep(p) != "")
    && (forall p, q :: keep(p) == keep(q) ==> p == q)
  }

  /** `q` is not the name of any copy this pass could make. */
  ghost predicate NoCopy(keep: Namer, q: Path) { forall p :: keep(p) != q }

  lemma ConflictNamesAreNaming(stamp: string, host: string)
    requires PlainClock(stamp, host)
    ensures Naming(p => ConflictName(p, stamp, host))
  {
    var keep: Namer := p => ConflictName(p, stamp, host);
    forall p ensures ParentOf(keep(p)) == ParentOf(p) && keep(p) != p && keep(p) != "" {
      ConflictNameSibling(p, stamp, host);
    }
    forall p, q | keep(p) == keep(q) ensures p == q {
      ConflictNameInjective(p, q, stamp, stamp, host);
    }
  }

  /** What the scan recorded is true of the folder; an empty hash means "not computed". */
  ghost predicate ScanTrue(w: World, before: Scan) {
    forall p :: ScannedTrue(w.disk, before, p)
  }

  predicate ScannedTrue(disk: Disk, before: Scan, p: Path) {
    p in before ==>
      && p in disk && (before[p].isDir <==> disk[p].Dir?)
      && (disk[p].File? ==> before[p].hash.Unknown? || before[p].hash == Sum(disk[p].content))
  }

  /** `c`, once at `p`, is still there, in the conflict copy, or in the local trash. */
  predicate Saved(w: World, keep: Namer, p: Path, c: Content) {
    || FileAt(w.disk, p) == Some(c) || FileAt(w.disk, keep(p)) == Some(c)
    || (p, c) in w.trash || (keep(p), c) in w.trash
  }

  /** It is saved, or it was the agreed content and a remote revision replaced it. */
  predicate Survives(w0: World, w: World, keep: Namer, done: set<Path>, p: Path)
    requires IsFile(w0.disk, p)
  {
    var c := w0.disk[p].content;
    Saved(w, keep, p, c) || (p in done && p in w0.base && w0.base[p].hash == Sum(c))
  }

  /** One path during a pull that has applied the nodes of `done`: its bytes are safe, and
  as long as it is not in `done` neither its row nor its file nor its copy is touched. */
  ghost predicate SafeAt(w0: World, w: World, before: Scan, keep: Namer, done: set<Path>, p: Path) {
    && (p in before || p in done ==> NoCopy(keep, p))
    && (p in before && IsFile(w0.disk, p) ==> Survives(w0, w, keep, done, p))
    && (p !in done ==> UntouchedAt(w0, w, before, keep, p))
  }

  ghost predicate UntouchedAt(w0: World, w: World, before: Scan, keep: Namer, p: Path) {
    && (p in w.base ==> p in w0.base && w.base[p] == w0.base[p])
    && (p in before && IsFile(w0.disk, p) ==>
          if IsFile(w.disk, p) then w.disk[p].content == w0.disk[p].content
          else (p, w0.disk[p].content) in w.trash)
    && keep(p) !in w.disk
  }

  ghost predicate PullInv(w0: World, w: World, before: Scan, keep: Namer, done: set<Path>) {
    && Naming(keep) && ScanTrue(w0, before)
    && forall p :: SafeAt(w0, w, before, keep, done, p)
  }

  /** Where a pull can start: the scan is true, and nothing in the folder has a name that
  one of the pass's copies could take. */
  ghost predicate SafeStart(w: World, before: Scan, keep: Namer) {
    Naming(keep) && ScanTrue(w, before) && forall p :: FreshName(w.disk, keep, p)
  }

  ghost predicate FreshName(disk: Disk, keep: Namer, p: Path) {
    p in disk ==> NoCopy(keep, p)
  }

  /** Neither a listed path nor a folder above it has such a name. */
  ghost predicate Listed(keep: Namer, p: Path) {
    forall c | c in Chain(p) :: NoCopy(keep, c)
  }

  lemma PullInvStart(w0: World, before: Scan, keep: Namer)
    requires SafeStart(w0, before, keep)
    ensures PullInv(w0, w0, before, keep, {})
  {
    forall p ensures SafeAt(w0, w0, before, keep, {}, p) {
      assert FreshName(w0.disk, keep, p) && FreshName(w0.disk, keep, keep(p));
      assert ScannedTrue(w0.disk, before, p);
    }
  }

  /** Where an applied node changes files: at its path and at the copy's. */
  lemma EffectElsewhere(w: World, n: Node, copy: Path, o: Outcome, q: Path)
    requires q != n.path && q != copy
    ensures FileAt(Effect(w, n, copy, o).disk, q) == FileAt(w.disk, q)
    ensures q in w.disk ==> q in Effect(w, n, copy, o).disk
  {
  }

  lemma ApplyUntouched(w0: World, w: World, before: Scan, keep: Namer, done: set<Path>,
                       n: Node, cap: nat, o: Outcome, p: Path)
    requires Naming(keep) && SafeAt(w0, w, before, keep, done, p)
    requires Allowed(w, before, cap, n, o) && Listed(keep, n.path) && NoCopy(keep, n.path)
    requires p !in done && p != n.path
    ensures UntouchedAt(w0, Effect(w, n, keep(n.path), o), before, keep, p)
  {
    if p in before { EffectElsewhere(w, n, keep(n.path), o, p); }
    EffectElsewhere(w, n, keep(n.path), o, keep(p));
    ParentChain(n.path);
  }

  lemma ParentChain(p: Path)
    ensures forall q | q in Chain(ParentOf(p)) :: q in Chain(p) || p == ""
  {
  }

  /** Survival of the files other than the one being applied. */
  lemma ApplyOthersSurvive(w0: World, w: World, before: Scan, keep: Namer, done: set<Path>,
                           n: Node, o: Outcome, p: Path)
    requires Naming(keep) && SafeAt(w0, w, before, keep, done, p) && NoCopy(keep, n.path)
    requires p in before && IsFile(w0.disk, p) && p != n.path
    ensures Survives(w0, Effect(w, n, keep(n.path), o), keep, done + {n.path}, p)
  {
    EffectElsewhere(w, n, keep(n.path), o, p);
    EffectElsewhere(w, n, keep(n.path), o, keep(p));
  }

  /** Survival of the file being applied: replaced only after it was moved aside, or when
  it is what arrives, or when both sides had agreed on it. */
  lemma ApplyOwnSurvives(w0: World, w: World, before: Scan, keep: Namer, done: set<Path>,
                         n: Node, cap: nat, o: Outcome)
    requires Naming(keep) && ScannedTrue(w0.disk, before, n.path) && SafeAt(w0, w, before, keep, done, n.path)
    requires Allowed(w, before, cap, n, o) && n.path !in done
    requires n.path in before && IsFile(w0.disk, n.path)
    ensures Survives(w0, Effect(w, n, keep(n.path), o), keep, done + {n.path}, n.path)
  {
    var x, c := n.path, w0.disk[n.path].content;
    var w' := Effect(w, n, keep(x), o);
    if IsFile(w.disk, x) && (o.Landed? || o.NotCommitted?) {
      AsideContent(WithDirs(w.disk, ParentOf(x)), x, keep(x), o.kept);
      if o.Landed? && !o.kept {
        NotKeptIsAgreed(w0, w, before, x, o.got);
      }
    } else {
      assert FileAt(w.disk, x) == Some(c) || (x, c) in w.trash;
      assert w'.trash == w.trash;
    }
  }

  lemma AsideContent(disk: Disk, p: Path, copy: Path, kept: bool)
    requires IsFile(disk, p) && copy != p
    ensures EntryAt(Aside(disk, p, copy, kept), if kept then copy else p) == EntryAt(disk, p)
  {
  }

  /** A rename aside keeps the bytes of every file if and only if no other bytes stand under the
  name of the copy. Nothing looks whether they do. */
  lemma AsideKeepsAllIff(disk: Disk, p: Path, copy: Path)
    requires IsFile(disk, p) && copy != p
    ensures (forall q | IsFile(disk, q) ::
               FileAt(Aside(disk, p, copy, true), if q == p then copy else q) == FileAt(disk, q))
            <==> (IsFile(disk, copy) ==> FileAt(disk, copy) == FileAt(disk, p))
  {
    if IsFile(disk, copy) && FileAt(disk, copy) != FileAt(disk, p) {
      assert FileAt(Aside(disk, p, copy, true), copy) == FileAt(disk, p);
    }
  }

  lemma NotKeptIsAgreed(w0: World, w: World, before: Scan, p: Path, got: Content)
    requires ScannedTrue(w0.disk, before, p) && p in before && IsFile(w0.disk, p) && IsFile(w.disk, p)
    requires w.disk[p].content == w0.disk[p].content
    requires p in w.base ==> p in w0.base && w.base[p] == w0.base[p]
    requires !MustKeep(w, before, p, got)
    ensures w0.disk[p].content == got || (p in w0.base && w0.base[p].hash == Sum(w0.disk[p].content))
  {
  }

  /** Applying any listed node with any outcome keeps every scanned file's bytes. */
  lemma ApplyKeepsFiles(w0: World, w: World, before: Scan, keep: Namer, done: set<Path>,
                        n: Node, cap: nat, o: Outcome)
    requires PullInv(w0, w, before, keep, done)
    requires Allowed(w, before, cap, n, o) && n.path !in done
    requires NoCopy(keep, n.path) && Listed(keep, n.path)
    ensures PullInv(w0, Effect(w, n, keep(n.path), o), before, keep, done + {n.path})
  {
    var w' := Effect(w, n, keep(n.path), o);
    forall p ensures SafeAt(w0, w', before, keep, done + {n.path}, p) {
      assert SafeAt(w0, w, before, keep, done, p);
      assert ScannedTrue(w0.disk, before, p);
      if p == n.path {
        if p in before && IsFile(w0.disk, p) { ApplyOwnSurvives(w0, w, before, keep, done, n, cap, o); }
      } else {
        if p in before && IsFile(w0.disk, p) { ApplyOthersSurvive(w0, w, before, keep, done, n, o, p); }
        if p !in done { ApplyUntouched(w0, w, before, keep, done, n, cap, o, p); }
      }
    }
  }

  /** What leaves the folder through a removal is in the trash, finished or not. */
  lemma RemovalMovesToTrash(w: World, w': World, p: Path, isDir: bool, q: Path)
    requires Removed(w, w', p, isDir) || RemovalFailed(w, w', p)
    ensures IsFile(w.disk, q) ==> FileAt(w'.disk, q) == FileAt(w.disk, q) || (q, w.disk[q].content) in w'.trash
    ensures q in w'.disk ==> q in w.disk
    ensures w.trash <= w'.trash && (forall r | r in w'.base :: r in w.base && w'.base[r] == w.base[r])
  {
    var t := AfterTrash(w, p);
    if Removed(w, w', p, isDir) && IsFile(w.disk, q) {
      assert AtOrUnder(q, p) ==> (q, w.disk[q].content) in FilesAt(w.disk, p);
      assert !AtOrUnder(q, p) ==> q in t.disk;
    }
  }

  /** Removing any tracked node, finished or not, keeps every scanned file's bytes. */
  lemma RemovalKeepsFiles(w0: World, w: World, w': World, before: Scan, keep: Namer,
                          done: set<Path>, p: Path, isDir: bool)
    requires PullInv(w0, w, before, keep, done)
    requires Removed(w, w', p, isDir) || RemovalFailed(w, w', p)
    ensures PullInv(w0, w', before, keep, done)
  {
    forall q ensures SafeAt(w0, w', before, keep, done, q) {
      assert SafeAt(w0, w, before, keep, done, q);
      RemovalMovesToTrash(w, w', p, isDir, q);
      RemovalMovesToTrash(w, w', p, isDir, keep(q));
    }
  }

  // ----- the scan

  /** Size and time to the second are those of the baseline. */
  predicate ProvenUnchanged(n: LocalNode, base: Option<Row>) {
    base.Some? && base.value.hash.Sum? && base.value.size == n.size && SameSecond(base.value.mtime, n.mtime)
  }

  /** What a scan may record about an entry. */
  predicate Hashed(w: World, p: Path, n: LocalNode) {
    && p in w.disk && n == Describe(w.disk[p]).(hash := n.hash)
    && (n.hash.Unknown?
        || (w.disk[p].File? && n.hash == Sum(w.disk[p].content))
        || (w.disk[p].File? && p in w.base && ProvenUnchanged(n, Some(w.base[p])) && n.hash == w.base[p].hash))
  }

  /** Where size and time have not lied: a file that they prove unchanged is unchanged. */
  ghost predicate StatAccurate(w: World) {
    forall p :: StatTrue(w, p)
  }

  predicate StatTrue(w: World, p: Path) {
    p in w.base && IsFile(w.disk, p) && ProvenUnchanged(Describe(w.disk[p]), Some(w.base[p])) ==>
      w.base[p].hash == Sum(w.disk[p].content)
  }

  lemma ScanIsTrue(w: World, before: Scan)
    requires StatAccurate(w) && forall p | p in before :: Hashed(w, p, before[p])
    ensures ScanTrue(w, before)
  {
    forall p ensures ScannedTrue(w.disk, before, p) {
      assert StatTrue(w, p);
      if p in before { assert Hashed(w, p, before[p]); }
    }
  }

  // ----- one run of a pull

  predicate NoRepeats<T(==)>(log: seq<T>) {
    forall i, j | 0 <= i < j < |log| :: log[i] != log[j]
  }

  function Members<T>(log: seq<T>): set<T> {
    set x | x in log
  }

  lemma MembersMore<T>(log: seq<T>, x: T)
    ensures Members(log + [x]) == Members(log) + {x}
  {
  }

  /** Every path that the pass applied was applied once, under an ordinary name. */
  ghost predicate OnceEach(keep: Namer, log: seq<Path>) {
    NoRepeats(log) && forall p {:trigger Listed(keep, p)} | p in log :: Listed(keep, p)
  }

  /** The guarantee of a pull in progress, given the paths it has applied so far. */
  ghost predicate SafeState(w0: World, w: World, before: Scan, keep: Namer, log: seq<Path>) {
    OnceEach(keep, log) && SafeStart(w0, before, keep) ==> PullInv(w0, w, before, keep, Members(log))
  }

  lemma SafeStateStart(w0: World, before: Scan, keep: Namer)
    ensures SafeState(w0, w0, before, keep, [])
  {
    if SafeStart(w0, before, keep) {
      PullInvStart(w0, before, keep);
      assert Members<Path>([]) == {};
    }
  }

  lemma OneMore(keep: Namer, log: seq<Path>, p: Path)
    requires OnceEach(keep, log + [p])
    ensures OnceEach(keep, log) && p !in log && Listed(keep, p)
    ensures Members(log + [p]) == Members(log) + {p}
  {
    var more := log + [p];
    assert forall i | 0 <= i < |log| :: more[i] == log[i];
    assert more[|log|] == p;
    assert p in more;
    assert forall q | q in log :: q in more;
  }

  lemma SafeStep(w0: World, w: World, before: Scan, keep: Namer, log: seq<Path>, n: Node, cap: nat, o: Outcome)
    requires SafeState(w0, w, before, keep, log)
    requires Allowed(w, before, cap, n, o) && n.path != ""
    ensures SafeState(w0, Effect(w, n, keep(n.path), o), before, keep, log + [n.path])
  {
    if OnceEach(keep, log + [n.path]) && SafeStart(w0, before, keep) {
      OneMore(keep, log, n.path);
      assert n.path in Chain(n.path);
      assert NoCopy(keep, n.path);
      ApplyKeepsFiles(w0, w, before, keep, Members(log), n, cap, o);
    }
  }

  lemma SafeRemoval(w0: World, w: World, w': World, before: Scan, keep: Namer, log: seq<Path>,
                    p: Path, isDir: bool)
    requires SafeState(w0, w, before, keep, log)
    requires Removed(w, w', p, isDir) || RemovalFailed(w, w', p)
    ensures SafeState(w0, w', before, keep, log)
  {
    if OnceEach(keep, log) && SafeStart(w0, before, keep) {
      RemovalKeepsFiles(w0, w, w', before, keep, Members(log), p, isDir);
    }
  }
}
