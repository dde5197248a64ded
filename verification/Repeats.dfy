/** Why a pull takes up no path twice (internal/mirror/mirror.go), and so never renames a second
version onto a conflict copy: as long as no tracked node has moved in the account, a listing
reports every node under its own path. */
module Repeats {
  import opened Types
  import opened Paths
  import opened Names
  import opened SubtreePattern
  import opened World
  import opened Survival
  import opened PullExact
  import opened Remotes
  import opened EventReplay
  import opened Runs
  import opened Claims

  /** No row carries the link of a node that is elsewhere by now. */
  ghost predicate Unmoved(w: World) {
    && AccountTree(w.remote) && (forall p | p in w.remote :: ValidPath(p))
    && forall p, q :: StableLink(w, p, q)
  }

  /** A pull from `w0` that has taken up these paths: if nothing had moved in the account, each
  is that of a node, and none came twice. */
  ghost predicate Apart(w0: World, w: World, applied: seq<Path>) {
    Unmoved(w0) ==>
      && Unmoved(w) && w.remote == w0.remote
      && NoRepeats(applied) && forall p | p in applied :: p in w.remote
  }

  lemma ApartStart(w: World)
    ensures Apart(w, w, [])
  {
  }

  /** Rows were dropped, or left. */
  lemma ApartDropped(w0: World, w: World, w': World, applied: seq<Path>, p: Path, isDir: bool)
    requires Apart(w0, w, applied) && (Removed(w, w', p, isDir) || RemovalFailed(w, w', p))
    ensures Apart(w0, w', applied)
  {
    hide ValidPath, AccountTree, Pruned;
    if Unmoved(w0) {
      forall q, r ensures StableLink(w', q, r) { assert StableLink(w, q, r); }
    }
  }

  /** A node was taken up, under its own path and for the first time. */
  lemma ApartApplied(w0: World, w: World, applied: seq<Path>, n: Node, copy: Path, o: Outcome)
    requires Apart(w0, w, applied)
    requires Unmoved(w0) ==> n.path in w.remote && n == NodeOf(w.remote, n.path) && n.path !in applied
    ensures Apart(w0, Effect(w, n, copy, o), applied + [n.path])
  {
    hide ValidPath;
    if Unmoved(w0) {
      var w' := Effect(w, n, copy, o);
      forall q, r ensures StableLink(w', q, r) { assert StableLink(w, q, r); }
    }
  }

  /** The listing of a known folder reports each child under its own path. */
  lemma ApartChild(w0: World, w: World, applied: seq<Path>, q: Path, prefix: Path)
    requires Apart(w0, w, applied) && q in w.remote && FolderKnown(w.base, w.remote[q].parent, prefix)
    ensures Unmoved(w0) ==> ChildNode(prefix, q, w.remote[q]) == NodeOf(w.remote, q)
  {
    hide ValidPath, StableLink;
    if Unmoved(w0) {
      KnownIsParent(w, q, prefix);
      ValidStart(q);
      JoinSplit(q);
    }
  }

  /** Each path is taken up once, under an ordinary name. Before the pull that is known if it
  walks, or if nothing has moved in the account. */
  ghost predicate TakenOnce(w0: World, keep: Namer, walks: bool, applied: seq<Path>) {
    || ((walks || Unmoved(w0)) && forall p {:trigger Listed(keep, p)} | p in w0.remote :: Listed(keep, p))
    || OnceEach(keep, applied)
  }

  lemma ApartIsOnce(w0: World, w: World, keep: Namer, walks: bool, applied: seq<Path>)
    requires Apart(w0, w, applied) && TakenOnce(w0, keep, walks, applied)
    requires walks ==> NoRepeats(applied) && Members(applied) <= w0.remote.Keys
    ensures OnceEach(keep, applied)
  {
    hide Listed;
    assert forall p | p in applied :: p in Members(applied);
  }

  /** Every path taken up lies in one of these folders. */
  predicate ListedIn(remote: Account, applied: seq<Path>, order: seq<Link>) {
    forall p | p in applied :: p in remote && remote[p].parent in order
  }

  lemma NothingListed(remote: Account)
    ensures ListedIn(remote, [], [])
  {
  }

  /** A folder that was not listed yet has only children that were not taken up yet. */
  lemma NoneOfThese(remote: Account, applied: seq<Path>, order: seq<Link>, link: Link)
    requires ListedIn(remote, applied, order) && link !in order
    ensures forall q | q in Children(remote, link) :: q !in applied
  {
  }

  lemma OneMoreListed(remote: Account, applied: seq<Path>, applied': seq<Path>, order: seq<Link>, link: Link)
    requires ListedIn(remote, applied, order) && Members(applied') <= Members(applied) + Children(remote, link)
    ensures ListedIn(remote, applied', order + [link])
  {
    forall p | p in applied' ensures p in remote && remote[p].parent in order + [link] {
      assert p in Members(applied');
    }
  }
}
