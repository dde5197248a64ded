/** What the push of a pass asks for after a pull in which something did not go through
(internal/mirror/mirror.go, push.go): another device's revision that was not fetched, and a new
folder that was missed. */
module Aftermath {
  import opened Types
  import opened Paths
  import opened Names
  import opened SubtreePattern
  import opened World
  import opened Survival
  import opened PullExact
  import opened PushRun
  import opened PushJob
  import opened Remotes
  import opened Runs
  import opened Claims

  // ----- another device's revision

  /** A downloaded file of which another device has made a revision since. */
  predicate Revised(w: World, p: Path) {
    && p in w.base && !w.base[p].isDir && w.base[p].materialized
    && p in w.remote && !w.remote[p].isDir && w.remote[p].link == w.base[p].link
    && w.remote[p].digest == Sum(w.remote[p].content) && w.remote[p].digest != w.base[p].hash
  }

  /** The user has edited or deleted the file. */
  predicate ChangedHere(w: World, p: Path)
    requires p in w.base
  {
    p !in w.disk || (IsFile(w.disk, p) && w.base[p].hash != Sum(w.disk[p].content))
  }

  /** The row now speaks of the revision: it was downloaded, or left as a placeholder. */
  predicate Received(o: Outcome) { o.Landed? || (o.Stubbed? && o.recorded) }

  /** The node at `p` is about to be trashed, or to get content other than `c`. */
  predicate AtRisk(w: World, p: Path, c: Content) {
    && p in w.base
    && if p in w.disk then w.disk[p].File? && w.base[p].materialized
                           && w.base[p].hash != Sum(w.disk[p].content) && w.disk[p].content != c
       else w.base[p].materialized || p !in w.stubs
  }

  /** What taking up the node itself means for its revision. */
  lemma StepDecides(w: World, before: Scan, cap: nat, copy: Path, p: Path, o: Outcome)
    requires Revised(w, p) && ScannedTrue(w.disk, before, p) && AccountTree(w.remote) && copy != p
    requires Allowed(w, before, cap, NodeOf(w.remote, p), o) && !Fault(w, NodeOf(w.remote, p), o)
    requires Genuine(w.remote, NodeOf(w.remote, p), o)
    ensures AtRisk(Effect(w, NodeOf(w.remote, p), copy, o), p, w.remote[p].content)
            <==> ChangedHere(w, p) && FileAt(w.disk, p) != Some(w.remote[p].content) && !Received(o)
  {
    if o.Landed? || o.NotCommitted? { GenuineContent(w.remote, p, o); }
  }

  /** The step takes up the node at `p`. */
  predicate TakesUp(m: Move, p: Path) { m.Applied? && m.n.path == p }

  /** The step leaves `p` alone unless it takes up its node: it does not stop half-way, makes no
  folder or copy of that name, and drops no row at, above or below it. */
  ghost predicate PassesBy(c: Context, m: Move, p: Path) {
    match m
    case Applied(_, n, _) => n.path == p || (c.keep(n.path) != p && !Under(n.path, p))
    case Took(_, d) => !AtOrUnder(p, d) && !Selected(d, p) && !Under(d, p)
    case Faulted(_) => false
  }

  lemma PassedBy(c: Context, w: World, m: Move, p: Path, sound: bool, whole: bool)
    requires StepOk(c, w, m, sound, whole) && PassesBy(c, m, p) && !TakesUp(m, p)
    ensures Same(w, m.after, p)
  {
    hide Allowed, Fault, Genuine, Reported, MayDrop, Effect, Removed, Same;
    match m
    case Applied(after, n, o) => AppliedPasses(w, n, c.keep(n.path), o, p);
    case Took(after, d) => DroppedPasses(w, after, d, p);
  }

  lemma AppliedPasses(w: World, n: Node, copy: Path, o: Outcome, p: Path)
    requires p != n.path && p != copy && !Under(n.path, p)
    ensures Same(w, Effect(w, n, copy, o), p)
  {
    assert p !in Chain(n.path);
    if p in Chain(ParentOf(n.path)) {
      ParentAbove(n.path);
      if p != ParentOf(n.path) { UnderTransitive(n.path, ParentOf(n.path), p); }
    }
  }

  lemma DroppedPasses(w: World, w': World, d: Path, p: Path)
    requires d in w.base && Removed(w, w', d, w.base[d].isDir) && !AtOrUnder(p, d) && !Selected(d, p) && !Under(d, p)
    ensures Same(w, w', p)
  {
    hide Selected, Under;
  }

  /** From the `k`-th step on, if no later one takes up the node. */
  lemma {:induction false} SameSince(c: Context, start: World, log: seq<Move>, p: Path, k: nat)
    requires Run(c, start, log) && k < |log|
    requires forall i | k < i < |log| :: PassesBy(c, log[i], p) && !TakesUp(log[i], p)
    ensures Same(log[k].after, EndOf(start, log), p)
    decreases |log|
  {
    hide StepOk, PassesBy;
    var init := log[..|log| - 1];
    if k < |init| {
      SameSince(c, start, init, p, k);
      PassedBy(c, EndOf(start, init), log[|log| - 1], p, Sound(init), Whole(init));
    }
  }

  /** Up to the `k`-th step, if none before it takes up the node. */
  lemma {:induction false} SameUntil(c: Context, start: World, log: seq<Move>, p: Path)
    requires Run(c, start, log)
    requires forall i | 0 <= i < |log| :: PassesBy(c, log[i], p) && !TakesUp(log[i], p)
    ensures Same(start, EndOf(start, log), p)
    decreases |log|
  {
    hide StepOk, PassesBy;
    if log != [] {
      var init := log[..|log| - 1];
      SameUntil(c, start, init, p);
      PassedBy(c, EndOf(start, init), log[|log| - 1], p, Sound(init), Whole(init));
    }
  }

  lemma {:induction false} RunPrefix(c: Context, start: World, log: seq<Move>, k: nat)
    requires Run(c, start, log) && k < |log|
    ensures Run(c, start, log[..k])
    ensures StepOk(c, EndOf(start, log[..k]), log[k], Sound(log[..k]), Whole(log[..k]))
    decreases |log|
  {
    hide StepOk;
    var init := log[..|log| - 1];
    if k < |init| {
      RunPrefix(c, start, init, k);
      assert init[..k] == log[..k];
    }
  }

  /** The node was taken up, and its revision received. */
  predicate Fetched(log: seq<Move>, p: Path) {
    exists i :: 0 <= i < |log| && TakesUp(log[i], p) && Received(log[i].o)
  }

  /** The node was taken up once at most, as the account has it, and otherwise left alone. */
  ghost predicate OnceAt(c: Context, remote: Account, log: seq<Move>, p: Path)
    requires p in remote
  {
    && (forall i | 0 <= i < |log| :: PassesBy(c, log[i], p) && (TakesUp(log[i], p) ==> log[i].n == NodeOf(remote, p)))
    && (forall i, j | 0 <= i < j < |log| :: !(TakesUp(log[i], p) && TakesUp(log[j], p)))
  }

  /** After the pull, a revision is at risk if and only if the file was changed here, into
  something else, and the revision was not received. */
  lemma AtRiskIffUnfetched(c: Context, w0: World, log: seq<Move>, p: Path)
    requires Run(c, w0, log) && AccountTree(w0.remote) && Revised(w0, p) && ScannedTrue(w0.disk, c.before, p)
    requires OnceAt(c, w0.remote, log, p) && c.keep(p) != p
    ensures AtRisk(EndOf(w0, log), p, w0.remote[p].content)
            <==> ChangedHere(w0, p) && FileAt(w0.disk, p) != Some(w0.remote[p].content) && !Fetched(log, p)
    ensures p in EndOf(w0, log).base && EndOf(w0, log).base[p].link == w0.base[p].link
  {
    hide StepOk, PassesBy, AccountTree, Run;
    if k :| 0 <= k < |log| && TakesUp(log[k], p) {
      RunPrefix(c, w0, log, k);
      SameUntil(c, w0, log[..k], p);
      RunKeepsRemote(c, w0, log[..k]);
      SameSince(c, w0, log, p, k);
      StepAt(c, w0, EndOf(w0, log[..k]), log[k], p, Sound(log[..k]), Whole(log[..k]));
      assert Fetched(log, p) <==> Received(log[k].o);
    } else {
      SameUntil(c, w0, log, p);
    }
  }

  lemma StepAt(c: Context, w0: World, w: World, m: Move, p: Path, sound: bool, whole: bool)
    requires StepOk(c, w, m, sound, whole) && TakesUp(m, p) && p in w0.remote && m.n == NodeOf(w0.remote, p)
    requires Same(w0, w, p) && w.remote == w0.remote && AccountTree(w0.remote) && Revised(w0, p)
    requires ScannedTrue(w0.disk, c.before, p) && c.keep(p) != p
    ensures AtRisk(m.after, p, w0.remote[p].content)
            <==> ChangedHere(w0, p) && FileAt(w0.disk, p) != Some(w0.remote[p].content) && !Received(m.o)
    ensures p in m.after.base && m.after.base[p].link == w0.base[p].link
  {
    hide Allowed, Genuine, AccountTree;
    StepDecides(w, c.before, c.cap, c.keep(p), p, m.o);
  }

  /** The requests of a push trash the node, or give it content other than `c`. */
  predicate Replaces(w1: World, p: Path, c: Content, before: seq<Call>, after: seq<Call>)
    requires p in w1.base && |before| <= |after|
  {
    || CallTrash(p, w1.base[p].link) in after[|before|..]
    || (Requested(p, false, before, after) && FileAt(w1.disk, p) != Some(c))
  }

  /** A complete push replaces or trashes exactly the revisions that are at risk. */
  lemma ReplacedIffAtRisk(w1: World, used1: set<Link>, calls1: seq<Call>, w: World, used: set<Link>, calls: seq<Call>,
                          exclude: seq<string>, local: Scan, moves: map<Path, Path>, granted: set<Path>, clean: bool,
                          p: Path, c: Content)
    requires Pushed(w1, used1, calls1, w, used, calls, exclude, local, moves, granted, clean)
    requires Rescanned(w1.disk, local, exclude) && Complete(w1.disk, local, exclude) && Visible(p, exclude)
    requires p in w1.base && p !in moves && p !in moves.Values
    ensures |calls1| <= |calls| && (Replaces(w1, p, c, calls1, calls) ==> AtRisk(w1, p, c))
    ensures clean && AtRisk(w1, p, c) ==> Replaces(w1, p, c, calls1, calls)
  {
    hide Pushed, Visible, Requested;
    TrashedIffVanished(w1, used1, calls1, w, used, calls, exclude, local, moves, granted, clean, p);
    UploadedIffChanged(w1, used1, calls1, w, used, calls, exclude, local, moves, granted, clean, p);
    assert p in local <==> p in w1.disk;
  }

  /** What a pass does to another device's revision: it is replaced by other content, or trashed,
  if and only if it was not received, and the file was changed here into something else. */
  lemma RevisionLostIffUnfetched(ctx: Context, w0: World, log: seq<Move>, used1: set<Link>, calls1: seq<Call>, w: World,
                                 used: set<Link>, calls: seq<Call>, exclude: seq<string>, local: Scan,
                                 moves: map<Path, Path>, granted: set<Path>, p: Path)
    requires Run(ctx, w0, log) && AccountTree(w0.remote) && Revised(w0, p) && ScannedTrue(w0.disk, ctx.before, p)
    requires OnceAt(ctx, w0.remote, log, p) && ctx.keep(p) != p
    requires var w1 := EndOf(w0, log);
      && Pushed(w1, used1, calls1, w, used, calls, exclude, local, moves, granted, true)
      && Rescanned(w1.disk, local, exclude) && Complete(w1.disk, local, exclude) && Visible(p, exclude)
    requires p !in moves && p !in moves.Values
    ensures p in EndOf(w0, log).base && |calls1| <= |calls|
    ensures Replaces(EndOf(w0, log), p, w0.remote[p].content, calls1, calls)
            <==> ChangedHere(w0, p) && FileAt(w0.disk, p) != Some(w0.remote[p].content) && !Fetched(log, p)
  {
    hide Pushed, Rescanned, Complete, Visible, Replaces, AtRisk, Run, OnceAt, AccountTree;
    AtRiskIffUnfetched(ctx, w0, log, p);
    ReplacedIffAtRisk(EndOf(w0, log), used1, calls1, w, used, calls, exclude, local, moves, granted, true, p,
                      w0.remote[p].content);
  }

  // ----- a new folder that could not be made

  /** When a node is taken up whose folder has no row, because the folder could not be made or
  was passed over, a quiet folder stays quiet if and only if nothing is done on disk. Otherwise
  the node's folder now stands there without a row. */
  lemma OrphanDisturbs(w: World, before: Scan, exclude: seq<string>, cap: nat, copy: Path, p: Path, o: Outcome)
    requires QuietPass(w, before, exclude) && p in w.remote && ParentOf(p) != "" && ParentOf(p) !in w.base
    requires Allowed(w, before, cap, NodeOf(w.remote, p), o)
    ensures var w', d := Effect(w, NodeOf(w.remote, p), copy, o), ParentOf(p);
      && (Quiet(w', exclude) <==> w'.disk == w.disk)
      && (w'.disk != w.disk ==> IsDir(w'.disk, d) && Visible(d, exclude) && d !in w'.base)
  {
    hide Visible;
    var w', d := Effect(w, NodeOf(w.remote, p), copy, o), ParentOf(p);
    assert QuietAt(w, exclude, p) && QuietAt(w, exclude, d);
    assert d !in w.disk && p !in w.disk;
    ParentAbove(p);
    if o.Skipped? || o == Failed(false) {
      assert w' == w;
    } else {
      assert d in Chain(d) && d in Chain(p);
      assert Live(w'.disk, exclude, d) && !QuietAt(w', exclude, d);
    }
  }

  /** And the push that follows asks for that folder, or for nothing at all. */
  lemma OrphanIsAskedFor(w: World, before: Scan, cap: nat, copy: Path, p: Path, o: Outcome, used1: set<Link>,
                         calls1: seq<Call>, w': World, used: set<Link>, calls: seq<Call>, exclude: seq<string>,
                         local: Scan, moves: map<Path, Path>, granted: set<Path>)
    requires QuietPass(w, before, exclude) && p in w.remote && ParentOf(p) != "" && ParentOf(p) !in w.base
    requires Allowed(w, before, cap, NodeOf(w.remote, p), o)
    requires var w1 := Effect(w, NodeOf(w.remote, p), copy, o);
      && Pushed(w1, used1, calls1, w', used, calls, exclude, local, moves, granted, true) && SameLocal(w1, w')
      && Rescanned(w1.disk, local, exclude) && Complete(w1.disk, local, exclude) && MovesToNew(w1.base, local, moves)
    ensures var w1 := Effect(w, NodeOf(w.remote, p), copy, o);
      if w1.disk == w.disk then w' == w1 && calls == calls1 else Requested(ParentOf(p), true, calls1, calls)
  {
    hide Pushed, QuietPass, Quiet, Allowed, Effect, SameLocal;
    var w1, d := Effect(w, NodeOf(w.remote, p), copy, o), ParentOf(p);
    OrphanDisturbs(w, before, exclude, cap, copy, p, o);
    if w1.disk == w.disk {
      ClaimsAfterPush(w1, used1, calls1, w', used, calls, exclude, cap, local, moves, granted, true);
    } else {
      PushedServes(w1, used1, calls1, w', used, calls, exclude, local, moves, granted);
      assert Live(w1.disk, exclude, d) && !InStep(w1, d, true);
      assert Served(w1, d, local[d].isDir, calls1, calls);
    }
  }

  lemma PushedServes(w1: World, used1: set<Link>, calls1: seq<Call>, w: World, used: set<Link>, calls: seq<Call>,
                     exclude: seq<string>, local: Scan, moves: map<Path, Path>, granted: set<Path>)
    requires Pushed(w1, used1, calls1, w, used, calls, exclude, local, moves, granted, true)
    ensures ServedBut(moves.Values, w1, local, calls1, calls)
  {
  }
}
