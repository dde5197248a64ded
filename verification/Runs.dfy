/** A pull as a run of steps. Whatever each step keeps, the pull keeps, in whatever order
the nodes come and whichever of its steps fail. */
module Runs {
  import opened Types
  import opened Paths
  import opened Names
  import opened World
  import opened Survival
  import opened PullExact
  import opened Remotes
  import opened EventReplay

  /** One step: a node applied, a row dropped, or a step that stopped half-way. */
  datatype Move =
    | Applied(after: World, n: Node, o: Outcome)
    | Took(after: World, p: Path)
    | Faulted(after: World)

  /** What the steps of one pull depend on. */
  datatype Context = Context(before: Scan, keep: Namer, cap: nat, changes: seq<Change>)

  function EndOf(start: World, log: seq<Move>): World {
    if log == [] then start else log[|log| - 1].after
  }

  /** A placeholder stands for the file at `p`. */
  predicate Stands(w: World, p: Path) {
    p in w.stubs && p in w.base && !w.base[p].materialized
  }

  /** A file was put in place or a new folder made, and that is not recorded; or a new folder,
  which later nodes need, could not be made. A download that fails is not such a step, unless
  it has already taken a placeholder away. */
  predicate Fault(w: World, n: Node, o: Outcome) {
    match o
    case MadeDir(recorded) => !recorded && n.path !in w.base
    case Stubbed(_) => false
    case Landed(_, _, recorded, _, _) => !recorded
    case NotCommitted(_, _) => Stands(w, n.path)
    case Failed(_) => n.isDir && n.path !in w.base
    case Skipped => false
  }

  /** The path under which a folder's link is known. */
  predicate FolderKnown(base: Base, link: Link, prefix: Path) {
    if link == ROOT_LINK then prefix == "" else prefix in base && base[prefix].link == link
  }

  /** The node is one of the account's, as a walk reports it or as the listing of a known
  folder does, and its folder has been met before. */
  ghost predicate Reported(w: World, n: Node) {
    ValidPath(n.path) && exists q, prefix :: ReportedAs(w, n, q, prefix)
  }

  predicate ReportedAs(w: World, n: Node, q: Path, prefix: Path) {
    && q in w.remote
    && if n.path == q && prefix == ParentOf(q) then n == NodeOf(w.remote, q) && (prefix == "" || prefix in w.base)
       else n == ChildNode(prefix, q, w.remote[q]) && FolderKnown(w.base, w.remote[q].parent, prefix)
  }

  /** What arrived is what the account holds under the link. */
  predicate Genuine(remote: Account, n: Node, o: Outcome) {
    o.Landed? || o.NotCommitted? ==> exists q :: q in remote && remote[q].link == n.link && o.got == remote[q].content
  }

  /** A row may be dropped: the account has no such node, or it is elsewhere, or reported
  under another path, or the delta removed it. */
  ghost predicate MayDrop(w: World, changes: seq<Change>, p: Path)
    requires p in w.base
  {
    || !ValidPath(p) || p !in w.remote || w.remote[p].parent != w.base[p].parent || Deletes(changes, w.base[p].link)
    || exists prefix :: FolderKnown(w.base, w.base[p].parent, prefix) && Join(prefix, BaseName(p)) != p
  }

  /** One step from `w`. `sound` says that no step before it stopped half-way, `whole` that
  none dropped a row either. */
  ghost predicate StepOk(c: Context, w: World, m: Move, sound: bool, whole: bool) {
    match m
    case Applied(after, n, o) =>
      && Allowed(w, c.before, c.cap, n, o) && !Fault(w, n, o) && Genuine(w.remote, n, o)
      && after == Effect(w, n, c.keep(n.path), o)
      && (sound && AccountTree(w.remote) ==> Reported(w, n))
    case Took(after, p) =>
      && p in w.base && Removed(w, after, p, w.base[p].isDir)
      && (whole && AccountTree(w.remote) ==> MayDrop(w, c.changes, p))
    case Faulted(after) => after.remote == w.remote
  }

  predicate Sound(log: seq<Move>) {
    forall i | 0 <= i < |log| :: !log[i].Faulted?
  }

  lemma SoundMore(log: seq<Move>, m: Move)
    ensures Sound(log + [m]) <==> Sound(log) && !m.Faulted?
  {
    assert forall i | 0 <= i < |log| :: (log + [m])[i] == log[i];
    assert (log + [m])[|log|] == m;
  }

  predicate Whole(log: seq<Move>) {
    forall i | 0 <= i < |log| :: log[i].Applied?
  }

  /** The steps of `log`, taken from `start`, are those of a pull. */
  ghost predicate Run(c: Context, start: World, log: seq<Move>)
    decreases |log|, 1
  {
    log == [] || LastStepOk(c, start, log)
  }

  ghost predicate LastStepOk(c: Context, start: World, log: seq<Move>)
    requires log != []
    decreases |log|, 0
  {
    var init := log[..|log| - 1];
    Run(c, start, init) && StepOk(c, EndOf(start, init), log[|log| - 1], Sound(init), Whole(init))
  }

  lemma RunMore(c: Context, start: World, log: seq<Move>, m: Move)
    requires Run(c, start, log) && StepOk(c, EndOf(start, log), m, Sound(log), Whole(log))
    ensures Run(c, start, log + [m]) && EndOf(start, log + [m]) == m.after
  {
    assert (log + [m])[..|log|] == log;
  }

  type Claim = World -> bool

  /** From a state that satisfies the claim, every step leads to one that does. A claim is
  `firm` if no row may be dropped in such a state. */
  ghost predicate Upheld(c: Context, claim: Claim, firm: bool) {
    forall w: World, m: Move :: UpheldBy(c, claim, firm, w, m)
  }

  ghost predicate UpheldBy(c: Context, claim: Claim, firm: bool, w: World, m: Move) {
    && (claim(w) ==> AccountTree(w.remote))
    && (claim(w) && !m.Faulted? && StepOk(c, w, m, true, firm) ==> claim(m.after) && (firm ==> m.Applied?))
  }

  lemma UpheldOnce(c: Context, claim: Claim, firm: bool, w: World, m: Move, whole: bool)
    requires UpheldBy(c, claim, firm, w, m) && claim(w) && !m.Faulted?
    requires StepOk(c, w, m, true, whole) && (firm ==> whole)
    ensures claim(m.after) && (firm ==> m.Applied?)
  {
  }

  /** A claim that every step upholds holds at the end of every run without half-way stops. */
  lemma {:induction false} UpheldAlong(c: Context, claim: Claim, firm: bool, start: World, log: seq<Move>)
    requires Upheld(c, claim, firm) && claim(start) && Run(c, start, log) && Sound(log)
    ensures claim(EndOf(start, log)) && (firm ==> Whole(log))
    decreases |log|
  {
    hide StepOk, AccountTree;
    if log != [] {
      var init, m := log[..|log| - 1], log[|log| - 1];
      UpheldAlong(c, claim, firm, start, init);
      assert UpheldBy(c, claim, firm, EndOf(start, init), m);
      UpheldOnce(c, claim, firm, EndOf(start, init), m, Whole(init));
    }
  }

  /** Nothing of the account changes in a pull. */
  lemma {:induction false} RunKeepsRemote(c: Context, start: World, log: seq<Move>)
    requires Run(c, start, log)
    ensures EndOf(start, log).remote == start.remote
    decreases |log|
  {
    if log != [] {
      RunKeepsRemote(c, start, log[..|log| - 1]);
    }
  }

  // ----- folders come before what they hold

  /** Unless a step stopped half-way, the folders that a walk has met have their rows. */
  predicate FoldersMet(log: seq<Move>, remote: Account, base: Base, seen: set<Path>) {
    Sound(log) ==> forall q | q in seen && q in remote && remote[q].isDir :: q in base
  }

  lemma NoneMet(log: seq<Move>, remote: Account, base: Base)
    ensures FoldersMet(log, remote, base, {})
  {
  }

  lemma OneMoreMet(log: seq<Move>, m: Move, remote: Account, w: World, n: Node, before: Scan, cap: nat, copy: Path,
                   o: Outcome, seen: set<Path>, p: Path)
    requires FoldersMet(log, remote, w.base, seen) && p in remote && n == NodeOf(remote, p)
    requires Allowed(w, before, cap, n, o) && (Fault(w, n, o) ==> m.Faulted?)
    ensures FoldersMet(log + [m], remote, Effect(w, n, copy, o).base, seen + {p})
  {
    if Sound(log + [m]) {
      assert forall i | 0 <= i < |log| :: (log + [m])[i] == log[i];
      assert !(log + [m])[|log|].Faulted?;
    }
  }

  /** A walk takes up a node only after the folder it lies in. */
  lemma ParentMet(log: seq<Move>, w: World, seen: set<Path>, todo: set<Path>, p: Path)
    requires FoldersMet(log, w.remote, w.base, seen) && p in w.remote && ValidPath(p)
    requires p == "" || ParentOf(p) !in todo
    requires forall q | q in w.remote && q !in seen && q !in todo :: !ValidPath(q)
    ensures Sound(log) && AccountTree(w.remote) ==> Reported(w, NodeOf(w.remote, p))
  {
    if Sound(log) && AccountTree(w.remote) {
      var d := ParentOf(p);
      if d != "" { assert ValidPath(d); }
      assert ReportedAs(w, NodeOf(w.remote, p), p, d);
    }
  }

  /** Every child that has a valid path, as the listing of its folder has it, was met. */
  predicate AllListed(remote: Account, link: Link, prefix: Path, seen: set<Path>) {
    forall q | q in Children(remote, link) && ValidPath(ChildNode(prefix, q, remote[q]).path) ::
      ChildNode(prefix, q, remote[q]).path in seen
  }

  lemma ChildReported(w: World, n: Node, q: Path, prefix: Path)
    requires q in w.remote && FolderKnown(w.base, w.remote[q].parent, prefix)
    requires n == ChildNode(prefix, q, w.remote[q]) && ValidPath(n.path)
    ensures Reported(w, n)
  {
    hide ValidPath;
    assert ReportedAs(w, n, q, prefix);
  }

  lemma ChildBelow(n: Node, q: Path, prefix: Path, r: Remote)
    requires n == ChildNode(prefix, q, r) && n.path != ""
    ensures n.path != prefix
  {
  }

  lemma FolderStaysKnown(w: World, n: Node, copy: Path, o: Outcome, link: Link, prefix: Path)
    requires FolderKnown(w.base, link, prefix) && n.path != prefix
    ensures FolderKnown(Effect(w, n, copy, o).base, link, prefix)
  {
  }

  lemma DeletedMayDrop(w: World, changes: seq<Change>, i: nat, p: Path)
    requires i < |changes| && p in w.base && changes[i] == Removal(w.base[p].link)
    ensures MayDrop(w, changes, p)
  {
    hide ValidPath, FolderKnown;
    assert Deletes(changes, w.base[p].link);
  }

  /** What a full listing did not report may be dropped. */
  lemma UnlistedMayDrop(w: World, changes: seq<Change>, link: Link, prefix: Path, seen: set<Path>, stale: set<Path>)
    requires FolderKnown(w.base, link, prefix) && AllListed(w.remote, link, prefix, seen)
    requires forall p | p in stale :: p in w.base && w.base[p].parent == link && p !in seen
    ensures forall p | p in stale :: MayDrop(w, changes, p)
  {
    hide ValidPath, Deletes;
    forall p | p in stale ensures MayDrop(w, changes, p) {
      assert p in w.remote && w.remote[p].parent == link ==> p in Children(w.remote, link);
    }
  }
}
