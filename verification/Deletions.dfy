/** The deletion cliff bounds what is really removed (internal/mirror/guards.go, mirror.go,
push.go): no row goes that was not counted, and what is counted stays under the limit. */
module Deletions {
  import opened Paths
  import opened Names
  import opened SubtreePattern
  import opened Guards
  import opened World
  import opened PushRun

  /** The paths that a finished walk has seen. */
  function WalkedPaths(remote: Account): set<Path> {
    set p | p in remote && ValidPath(p)
  }

  lemma {:induction false} ValidAbove(p: Path, d: Path)
    requires ValidPath(p) && Under(p, d) && d != ""
    ensures ValidPath(d)
    decreases |p|
  {
    UnderViaParent(p, d);
    ValidStart(p);
    if ParentOf(p) != d { ValidAbove(ParentOf(p), d); }
  }

  /** From ten due deletions on and below 100 percent, what is lost stays under the limit. */
  predicate StaysUnder(lost: set<Path>, due: nat, tracked: nat, limit: int) {
    lost == {} || due < MIN_DELETIONS || limit >= 100 || |lost| * 100 < limit * tracked
  }

  /** Rows were only added or replaced, and those that were added are remote nodes'. */
  predicate RowsGrew(before: Base, after: Base, remote: Account) {
    before.Keys <= after.Keys <= before.Keys + remote.Keys
  }

  lemma RowsGrewNot(base: Base, remote: Account)
    ensures RowsGrew(base, base, remote)
  {
  }

  lemma RowsGrewThen(a: Base, b: Base, c: Base, remote: Account)
    requires RowsGrew(a, b, remote) && RowsGrew(b, c, remote)
    ensures RowsGrew(a, c, remote)
  {
  }

  lemma EffectRows(w: World, n: Node, copy: Path, o: Outcome, remote: Account)
    requires n.path in remote
    ensures RowsGrew(w.base, Effect(w, n, copy, o).base, remote)
  {
  }

  /** What is lost from the rows after a walk was not seen by it, and stays under the limit. */
  ghost predicate ReapedUnder(walked: Base, after: Base, remote: Account, limit: int) {
    AccountTree(remote) && CaseClear(walked.Keys, walked.Keys) && "" !in walked ==>
      && walked.Keys - after.Keys <= walked.Keys - WalkedPaths(remote)
      && StaysUnder(walked.Keys - after.Keys, |walked.Keys - WalkedPaths(remote)|, |walked|, limit)
  }

  /** A walk and its reaping: the walk only added rows, the guard let the reaping through if it
  came to its end, and what was lost from the walked rows stays under the limit. */
  ghost predicate ReapsWithin(before: Base, walked: Base, after: Base, remote: Account, limit: int, ok: bool) {
    && RowsGrew(before, walked, remote)
    && (ok ==> CliffAllows(|walked.Keys - WalkedPaths(remote)|, |walked|, limit))
    && ReapedUnder(walked, after, remote, limit)
  }

  lemma NothingReaped(walked: Base, remote: Account, limit: int)
    ensures ReapedUnder(walked, walked, remote, limit)
  {
  }

  /** Reaping after a walk drops no row that the walk met, and fewer rows than the limit. */
  lemma ReapingStaysUnderLimit(remote: Account, walked: Base, after: Base, limit: int)
    requires var due := walked.Keys - WalkedPaths(remote);
      RowsLost(walked, after, due) && CliffAllows(|due|, |walked|, limit)
    ensures ReapedUnder(walked, after, remote, limit)
  {
    var due := walked.Keys - WalkedPaths(remote);
    if AccountTree(remote) && CaseClear(walked.Keys, walked.Keys) && "" !in walked {
      forall p, q | p in due && q in walked && Under(q, p) ensures q in due {
        if q in WalkedPaths(remote) {
          AboveIsRemoteDir(remote, q, p);
          ValidAbove(q, p);
        }
      }
      CaseClearLess(walked.Keys, walked.Keys, due, walked.Keys);
      LostWasDue(walked, after, due);
      SubsetSize(due, walked.Keys);
      if |due| >= MIN_DELETIONS && limit < 100 {
        CliffBoundsRemovals(walked.Keys - after.Keys, due, |walked|, limit);
      }
    }
  }

  /** What a push takes off the baseline without having moved it was counted: the row had no
  local entry, and stood above none. */
  lemma TrashedWasDue(w: World, after: Base, exclude: seq<string>, local: Scan, moved: set<Path>)
    requires Tree(w.disk) && Rescanned(w.disk, local, exclude) && Complete(w.disk, local, exclude)
    requires CaseClear(w.base.Keys, w.base.Keys) && forall p | p in w.base :: p != "" && Visible(p, exclude)
    requires forall q | q in w.stubs :: ParentOf(q) == "" || IsDir(w.disk, ParentOf(q))
    requires RowsAccounted(w.base, after, moved, Vanished(w.base, local, w.stubs) - moved)
    ensures w.base.Keys - after.Keys - moved <= Vanished(w.base, local, w.stubs) - moved
  {
    hide Visible;
    var due := Vanished(w.base, local, w.stubs) - moved;
    forall q | q in w.base && q !in after && q !in moved ensures q in due {
      var p :| p in due && Selected(p, q);
      SubtreePatternExact(p, q);
      if q != p { NothingBelowVanished(w, exclude, local, p, q); }
    }
  }

  lemma NothingBelowVanished(w: World, exclude: seq<string>, local: Scan, p: Path, q: Path)
    requires Tree(w.disk) && Rescanned(w.disk, local, exclude) && Complete(w.disk, local, exclude)
    requires p != "" && Visible(p, exclude)
    requires forall r | r in w.stubs :: ParentOf(r) == "" || IsDir(w.disk, ParentOf(r))
    requires p in Vanished(w.base, local, w.stubs) && q in w.base && Under(q, p)
    ensures q in Vanished(w.base, local, w.stubs)
  {
    hide Visible;
    assert p in w.disk ==> Live(w.disk, exclude, p);
    UnderViaParent(q, p);
    if q in w.disk { AboveIsDir(w.disk, q, p); }
    if q in w.stubs && ParentOf(q) != p { AboveIsDir(w.disk, ParentOf(q), p); }
  }

  /** What counting deletions by rows relies on: names that a scan sees, none a case variant of
  another, and placeholders in folders that are there. */
  ghost predicate Countable(w: World, exclude: seq<string>) {
    && Tree(w.disk) && CaseClear(w.base.Keys, w.base.Keys) && (forall p | p in w.base :: p != "" && Visible(p, exclude))
    && forall q | q in w.stubs :: ParentOf(q) == "" || IsDir(w.disk, ParentOf(q))
  }

  /** A push trashes fewer rows than the limit. */
  lemma TrashingStaysUnderLimit(w: World, after: Base, exclude: seq<string>, local: Scan, moved: set<Path>, limit: int)
    requires Countable(w, exclude) && Rescanned(w.disk, local, exclude) && Complete(w.disk, local, exclude)
    requires var due := Vanished(w.base, local, w.stubs) - moved;
      RowsAccounted(w.base, after, moved, due) && CliffAllows(|due|, |w.base|, limit)
    ensures StaysUnder(w.base.Keys - after.Keys - moved, |Vanished(w.base, local, w.stubs) - moved|, |w.base|, limit)
  {
    hide Visible;
    var due := Vanished(w.base, local, w.stubs) - moved;
    TrashedWasDue(w, after, exclude, local, moved);
    SubsetSize(due, w.base.Keys);
    if |due| >= MIN_DELETIONS && limit < 100 {
      CliffBoundsRemovals(w.base.Keys - after.Keys - moved, due, |w.base|, limit);
    }
  }

  lemma NothingLost(w: World, exclude: seq<string>, local: Scan, moved: set<Path>, limit: int)
    ensures StaysUnder(w.base.Keys - w.base.Keys - moved, |Vanished(w.base, local, w.stubs) - moved|, |w.base|, limit)
  {
  }
}
