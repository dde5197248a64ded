/** Any number of passes in a row. */
module Sessions {
  import opened Types
  import opened Paths
  import opened Names
  import opened SubtreePattern
  import opened World
  import opened Local
  import opened State
  import opened Remotes
  import opened Claims
  import opened Steadiness
  import opened Sync

  /** What other devices may do between two passes: create and edit, under names that a scan
  sees. The event stream moves on as it likes, but reports no deletion of what is there. */
  method RemoteEdits(d: Source, exclude: seq<string>)
    modifies d`nodes, d`feed, d`latest
    ensures OnlyGrew(old(d.nodes), d.nodes)
    ensures d.nodes == old(d.nodes) || (AccountTree(d.nodes) && PlainNodes(d.nodes, exclude))
    ensures DeletesNothing(d.nodes, d.feed.changes)
  {
    hide Visible;
    var nodes: Account := *;
    if OnlyGrew(d.nodes, nodes) && AccountTree(nodes) && PlainNodes(nodes, exclude) {
      d.nodes := nodes;
    }
    var feed: Delta, latest: string := *, *;
    d.feed := if DeletesNothing(d.nodes, feed.changes) then feed else Delta(true, [], "");
    d.latest := latest;
  }

  predicate PlainNodes(nodes: Account, exclude: seq<string>) {
    forall p | p in nodes ::
      Visible(p, exclude) && (!nodes[p].isDir ==> nodes[p].digest == Sum(nodes[p].content))
  }

  /** As long as the user leaves the folder alone and other devices only create and edit, no
  run of passes ever asks the account to change anything, even when downloads fail. */
  method NeverEchoes(m: Mirror, stamps: seq<string>)
    requires Tree(m.folder.disk) && Quiet(m.View(), m.cfg.exclude)
    requires forall i | 0 <= i < |stamps| :: PlainClock(stamps[i], m.cfg.host)
    modifies m, m.folder, m.db, m.d
    ensures m.faults >= old(m.faults)
    ensures m.faults == old(m.faults) ==> m.d.calls == old(m.d.calls) && Quiet(m.View(), m.cfg.exclude)
  {
    hide Quiet, Visible, Tree;
    for i := 0 to |stamps|
      invariant Tree(m.folder.disk) && m.faults >= old(m.faults)
      invariant m.faults == old(m.faults) ==> m.d.calls == old(m.d.calls) && Quiet(m.View(), m.cfg.exclude)
    {
      ghost var w := m.View();
      RemoteEdits(m.d, m.cfg.exclude);
      if Quiet(w, m.cfg.exclude) { StillQuiet(w, m.d.nodes, m.cfg.exclude); }
      var ok := m.SyncBoth(stamps[i]);
    }
  }

  lemma StillQuiet(w: World, nodes: Account, exclude: seq<string>)
    requires Quiet(w, exclude) && OnlyGrew(w.remote, nodes)
    requires nodes == w.remote || (AccountTree(nodes) && PlainNodes(nodes, exclude))
    ensures Quiet(w.(remote := nodes), exclude)
  {
    hide Visible;
    if nodes != w.remote { QuietThroughRemoteEdits(w, nodes, exclude); }
  }

  // ----- placeholders

  /** What pDrive may be asked to do: a whole pass, one folder, one file; under the size cap and
  the guard's limit that are configured by then. */
  datatype Act = Pass(stamp: string) | Refresh(dir: Path, stamp: string) | Fetch(path: Path)

  datatype Turn = Turn(cap: nat, guardPercent: int, act: Act)

  predicate PlainTurn(turn: Turn, host: string) {
    !turn.act.Fetch? ==> PlainClock(turn.act.stamp, host)
  }

  function StateOf(folder: LocalFolder, db: StateDB, d: Source): World
    reads folder, db`nodes, d`nodes
  {
    World(folder.disk, folder.stubs, db.nodes, d.nodes, folder.trash, multiset{})
  }

  /** Files and placeholders are in step with the baseline, and the account is such that they
  can stay so. */
  ghost predicate InOrder(w: World, used: set<Link>, exclude: seq<string>) {
    Mirrored(w) && SteadyAccount(w, used, exclude)
  }

  lemma ConflictsAside(w: World, conflicts: Conflicts, used: set<Link>, exclude: seq<string>)
    ensures InOrder(w.(conflicts := conflicts), used, exclude) <==> InOrder(w, used, exclude)
  {
    hide Visible, CaseClear;
    var w' := w.(conflicts := conflicts);
    assert forall p :: KindAt(w', exclude, p) <==> KindAt(w, exclude, p);
    assert forall p, q :: StableLink(w', p, q) <==> StableLink(w, p, q);
    assert AllPaths(w') == AllPaths(w);
  }

  /** What other devices may do between two turns: create, edit and delete, in the peaceful
  ways of `Peaceful`. The event stream says what it likes. */
  method OthersAct(folder: LocalFolder, db: StateDB, d: Source, exclude: seq<string>)
    modifies d`nodes, d`used, d`feed, d`latest
    ensures InOrder(old(StateOf(folder, db, d)), old(d.used), exclude)
            ==> InOrder(StateOf(folder, db, d), d.used, exclude)
  {
    hide Visible, Mirrored, SteadyAccount, AccountTree, CaseClear;
    ghost var w, used := StateOf(folder, db, d), d.used;
    var nodes: Account := *;
    if Peaceful(StateOf(folder, db, d), d.used, exclude, nodes) {
      d.nodes, d.used := nodes, d.used + LinksOf(nodes);
      if InOrder(w, used, exclude) {
        SteadyThroughOthers(w, used, exclude, nodes);
        SameFiles(w, nodes);
      }
    }
    d.feed, d.latest := *, *;
  }

  lemma SameFiles(w: World, nodes: Account)
    requires Mirrored(w)
    ensures Mirrored(w.(remote := nodes))
  {
    assert forall p :: MirroredAt(w.disk, w.stubs, w.base, p);
  }

  /** One turn. The configuration may have changed, so pDrive comes anew. */
  method TakeTurn(folder: LocalFolder, db: StateDB, d: Source, exclude: seq<string>, host: string, turn: Turn)
    returns (ghost faults: nat)
    requires Tree(folder.disk) && PlainTurn(turn, host)
    modifies folder, db, d
    ensures Tree(folder.disk)
    ensures faults == 0 && InOrder(old(StateOf(folder, db, d)), old(d.used), exclude)
            ==> InOrder(StateOf(folder, db, d), d.used, exclude)
  {
    hide Mirrored, SteadyAccount, Tree;
    var m := new Mirror(folder, db, d, Config(turn.cap, turn.guardPercent, exclude, host));
    assert m.View() == StateOf(folder, db, d);
    match turn.act {
      case Pass(stamp) =>
        var ok := m.SyncBoth(stamp);
      case Refresh(dir, stamp) =>
        var ok := m.RefreshDir(dir, stamp);
      case Fetch(path) =>
        if path != "" {
          var ok := m.Materialize(path);
        }
    }
    faults := m.faults;
    ConflictsAside(StateOf(folder, db, d), m.conflicts, d.used, exclude);
  }

  /** Under any order of passes, refreshed folders, fetched files, changed caps and remote
  creations, edits and deletions, and whatever fails short of a fault, every tracked file is
  either downloaded, with the baseline's hash and no placeholder, or it is a placeholder. */
  method StaysMirrored(folder: LocalFolder, db: StateDB, d: Source, exclude: seq<string>, host: string,
                       turns: seq<Turn>)
    returns (ghost faults: nat)
    requires InOrder(StateOf(folder, db, d), d.used, exclude) && Tree(folder.disk)
    requires forall i | 0 <= i < |turns| :: PlainTurn(turns[i], host)
    modifies folder, db, d
    ensures faults == 0 ==> InOrder(StateOf(folder, db, d), d.used, exclude)
  {
    hide InOrder, Tree;
    faults := 0;
    for i := 0 to |turns|
      invariant Tree(folder.disk) && (faults == 0 ==> InOrder(StateOf(folder, db, d), d.used, exclude))
    {
      OthersAct(folder, db, d, exclude);
      ghost var more := TakeTurn(folder, db, d, exclude, host, turns[i]);
      faults := faults + more;
    }
  }
}
