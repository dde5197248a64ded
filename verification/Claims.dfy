/** Three claims that every pull upholds: an agreed state is a fixpoint, a folder that the
user never touches has nothing to send, and placeholders mirror what is not downloaded. */
module Claims {
  import opened Types
  import opened Paths
  import opened Names
  import opened SubtreePattern
  import opened World
  import opened Survival
  import opened PullExact
  import opened PushSteps
  import opened PushRun
  import opened Remotes
  import opened EventReplay
  import opened Runs

  // ----- names and links

  /** The row of a path carries the link, the parent and the kind of the account's node. */
  predicate NamesNode(w: World, p: Path) {
    p in w.base ==> p in w.remote && SameNode(w.base[p], w.remote[p])
  }

  /** A link in the baseline is the link of that path, if it is anyone's. */
  predicate StableLink(w: World, p: Path, q: Path) {
    p in w.base && q in w.remote && w.base[p].link == w.remote[q].link ==> p == q
  }

  /** Where links are stable, whatever a pull is handed is a node of the account, under its
  own path. */
  lemma ReportedIsNode(w: World, n: Node)
    requires AccountTree(w.remote) && Reported(w, n)
    requires forall p | p in w.remote :: ValidPath(p)
    requires forall p, q :: StableLink(w, p, q)
    ensures n.path in w.remote && n == NodeOf(w.remote, n.path)
    ensures ParentOf(n.path) == "" || ParentOf(n.path) in w.base
  {
    hide ValidPath;
    var q, prefix :| ReportedAs(w, n, q, prefix);
    if !(n.path == q && prefix == ParentOf(q)) {
      KnownIsParent(w, q, prefix);
      ValidStart(q);
      JoinSplit(q);
    }
  }

  lemma KnownIsParent(w: World, q: Path, prefix: Path)
    requires AccountTree(w.remote) && q in w.remote && FolderKnown(w.base, w.remote[q].parent, prefix)
    requires forall p, q :: StableLink(w, p, q)
    ensures prefix == ParentOf(q)
  {
    if ParentOf(q) != "" {
      NodeIsNamed(w.remote, ParentOf(q));
      assert StableLink(w, prefix, ParentOf(q));
    }
  }

  /** No deletion of the delta concerns a node that the account still has. */
  predicate DeletesNothing(remote: Account, changes: seq<Change>) {
    forall q | q in remote :: !Deletes(changes, remote[q].link)
  }

  /** A row that names its node is never dropped. */
  lemma NamedStays(w: World, changes: seq<Change>, p: Path)
    requires AccountTree(w.remote) && DeletesNothing(w.remote, changes)
    requires p in w.base && NamesNode(w, p) && ValidPath(p)
    requires forall p, q :: StableLink(w, p, q)
    ensures !MayDrop(w, changes, p)
  {
    ValidStart(p);
    JoinSplit(p);
    forall prefix | FolderKnown(w.base, w.base[p].parent, prefix) ensures Join(prefix, BaseName(p)) == p {
      KnownIsParent(w, p, prefix);
    }
  }

  lemma NamedIsStable(w: World, p: Path, q: Path)
    requires AccountTree(w.remote) && NamesNode(w, p)
    ensures StableLink(w, p, q)
  {
  }

  // ----- a state at rest is a fixpoint

  /** The account's file at `p` is over the cap, and its placeholder is here. */
  predicate StandsIn(w: World, exclude: seq<string>, cap: nat, p: Path)
    requires p in w.remote
  {
    && p in w.stubs && p !in w.disk && Visible(p, exclude) && !w.remote[p].isDir && WantStub(NodeOf(w.remote, p), cap)
    && p in w.base && w.base[p] == StubRow(NodeOf(w.remote, p))
  }

  predicate RestsAt(w: World, exclude: seq<string>, cap: nat, p: Path) {
    && (p in w.base <==> p in w.remote)
    && (Live(w.disk, exclude, p) <==> p in w.base && w.base[p].materialized)
    && (p in w.base ==> InSync(w, p) || StandsIn(w, exclude, cap, p))
    && (p in w.stubs ==> p in w.base && !w.base[p].materialized)
  }

  /** Folder, baseline and account are one tree, in which placeholders stand for the files
  over the cap that are not downloaded. */
  ghost predicate AtRest(w: World, exclude: seq<string>, cap: nat) {
    Tree(w.disk) && AccountTree(w.remote) && forall p :: RestsAt(w, exclude, cap, p)
  }

  /** Agreement is rest without placeholders, whatever the cap. */
  lemma AgreedIsAtRest(w: World, exclude: seq<string>, cap: nat)
    ensures Agreed(w, exclude) <==> AtRest(w, exclude, cap) && w.stubs == {}
  {
    hide Visible;
    forall p ensures w.stubs == {} ==> (AgreedAt(w, exclude, p) <==> RestsAt(w, exclude, cap, p)) {
    }
    if AtRest(w, exclude, cap) && w.stubs == {} {
      forall p ensures AgreedAt(w, exclude, p) { assert RestsAt(w, exclude, cap, p); }
    }
    if Agreed(w, exclude) {
      forall p ensures RestsAt(w, exclude, cap, p) { assert AgreedAt(w, exclude, p); }
    }
  }

  lemma RestNames(w: World, exclude: seq<string>, cap: nat)
    requires AtRest(w, exclude, cap)
    ensures forall p :: NamesNode(w, p)
    ensures forall p, q :: StableLink(w, p, q)
    ensures forall p | p in w.remote :: ValidPath(p)
  {
    forall p ensures NamesNode(w, p) && (p in w.remote ==> ValidPath(p)) {
      assert RestsAt(w, exclude, cap, p);
    }
    forall p, q ensures StableLink(w, p, q) {
      NamedIsStable(w, p, q);
    }
  }

  /** In such a state no node needs anything done, whatever the outcome. */
  lemma RestStep(w: World, exclude: seq<string>, before: Scan, cap: nat, copy: Path, p: Path, o: Outcome)
    requires AtRest(w, exclude, cap) && p in w.remote
    requires Allowed(w, before, cap, NodeOf(w.remote, p), o)
    ensures Effect(w, NodeOf(w.remote, p), copy, o) == w
  {
    hide Visible;
    assert RestsAt(w, exclude, cap, p);
    assert RestsAt(w, exclude, cap, ParentOf(p));
    WithDirsPresent(w.disk, ParentOf(p));
    assert w.base[p := w.base[p]] == w.base;
    if w.remote[p].isDir {
      WithDirsPresent(w.disk, p);
    } else if !w.base[p].materialized {
      assert w.stubs + {p} == w.stubs;
    }
  }

  ghost function Being(w0: World): Claim { w => w == w0 }

  /** From a state at rest, every step of a pull leads back to it. */
  lemma RestIsFixed(c: Context, w0: World, exclude: seq<string>)
    requires AtRest(w0, exclude, c.cap) && DeletesNothing(w0.remote, c.changes)
    ensures Upheld(c, Being(w0), true)
  {
    var claim := Being(w0);
    RestNames(w0, exclude, c.cap);
    forall w: World, m: Move ensures UpheldBy(c, claim, true, w, m) {
      if w == w0 && !m.Faulted? && StepOk(c, w, m, true, true) {
        RestMove(c, w0, exclude, m);
      }
    }
  }

  lemma RestMove(c: Context, w: World, exclude: seq<string>, m: Move)
    requires AtRest(w, exclude, c.cap) && DeletesNothing(w.remote, c.changes)
    requires !m.Faulted? && StepOk(c, w, m, true, true)
    ensures m.Applied? && m.after == w
  {
    RestNames(w, exclude, c.cap);
    match m
    case Applied(after, n, o) =>
      ReportedIsNode(w, n);
      RestStep(w, exclude, c.before, c.cap, c.keep(n.path), n.path, o);
    case Took(after, p) =>
      assert NamesNode(w, p);
      NamedStays(w, c.changes, p);
  }

  /** At rest there is nothing to push. */
  lemma RestHasNothingToPush(w: World, exclude: seq<string>, cap: nat, local: Scan)
    requires AtRest(w, exclude, cap) && Rescanned(w.disk, local, exclude) && Complete(w.disk, local, exclude)
    ensures NothingToPush(w, local)
  {
    hide Visible;
    forall p ensures p in Vanished(w.base, local, w.stubs) ==> p in local
      ensures p in local ==> InStep(w, p, local[p].isDir)
    {
      assert RestsAt(w, exclude, cap, p);
    }
  }

  // ----- a folder that the user never touches

  /** One path of such a folder: what is tracked is here as the baseline has it, or stands as
  a placeholder, and what is here is tracked. */
  ghost predicate QuietAt(w: World, exclude: seq<string>, p: Path) {
    && NamesNode(w, p)
    && (p in w.remote ==> Visible(p, exclude)
                          && (!w.remote[p].isDir ==> w.remote[p].digest == Sum(w.remote[p].content)))
    && (p in w.base ==>
          if w.base[p].isDir then IsDir(w.disk, p) && w.base[p].materialized
          else if w.base[p].materialized then IsFile(w.disk, p) && w.base[p].hash == Sum(w.disk[p].content)
          else p in w.stubs && p !in w.disk)
    && (Live(w.disk, exclude, p) ==> p in w.base)
  }

  ghost predicate Quiet(w: World, exclude: seq<string>) {
    Tree(w.disk) && AccountTree(w.remote) && forall p :: QuietAt(w, exclude, p)
  }

  /** The scan is true of a file, or the file was replaced since by what the account has. */
  predicate ScanHolds(w: World, before: Scan, p: Path) {
    p in before && before[p].hash.Sum? && IsFile(w.disk, p) ==>
      || before[p].hash == Sum(w.disk[p].content)
      || (p in w.base && p in w.remote && w.base[p].hash == w.remote[p].digest && w.base[p].hash.Sum?)
  }

  ghost predicate QuietPass(w: World, before: Scan, exclude: seq<string>) {
    Quiet(w, exclude) && forall p :: ScanHolds(w, before, p)
  }

  ghost function Quietly(c: Context, exclude: seq<string>): Claim {
    w => QuietPass(w, c.before, exclude) && DeletesNothing(w.remote, c.changes)
  }

  lemma QuietNames(w: World, exclude: seq<string>)
    requires Quiet(w, exclude)
    ensures forall p :: NamesNode(w, p)
    ensures forall p, q :: StableLink(w, p, q)
    ensures forall p | p in w.remote :: ValidPath(p)
  {
    forall p ensures NamesNode(w, p) && (p in w.remote ==> ValidPath(p)) {
      assert QuietAt(w, exclude, p);
    }
    forall p, q ensures StableLink(w, p, q) {
      NamedIsStable(w, p, q);
    }
  }

  /** The folder above a node that a pull takes up is on disk. */
  lemma QuietParent(w: World, exclude: seq<string>, p: Path)
    requires Quiet(w, exclude) && p in w.remote && (ParentOf(p) == "" || ParentOf(p) in w.base)
    ensures WithDirs(w.disk, ParentOf(p)) == w.disk && (ParentOf(p) == "" || IsDir(w.disk, ParentOf(p)))
  {
    if ParentOf(p) != "" { assert QuietAt(w, exclude, ParentOf(p)); }
    WithDirsPresent(w.disk, ParentOf(p));
  }

  /** No file differs from its row, so nothing is ever moved aside. */
  lemma QuietKeepsNothing(w: World, before: Scan, exclude: seq<string>, p: Path, got: Content)
    requires QuietAt(w, exclude, p) && ScanHolds(w, before, p)
    requires p in w.remote && !SameAsBase(w.base, NodeOf(w.remote, p))
    ensures !MustKeep(w, before, p, got)
  {
    hide Visible;
    assert p in w.disk ==> Live(w.disk, exclude, p);
  }

  /** What applying a node does to a quiet folder. */
  lemma QuietEffect(w: World, before: Scan, exclude: seq<string>, cap: nat, copy: Path, p: Path, o: Outcome)
    requires QuietPass(w, before, exclude) && p in w.remote && (ParentOf(p) == "" || ParentOf(p) in w.base)
    requires Allowed(w, before, cap, NodeOf(w.remote, p), o) && !Fault(w, NodeOf(w.remote, p), o)
    requires Genuine(w.remote, NodeOf(w.remote, p), o)
    ensures QuietAfter(w, Effect(w, NodeOf(w.remote, p), copy, o), before, exclude, p)
  {
    hide Quiet, QuietAt, QuietAfter, Allowed, Effect, Genuine, AccountTree;
    QuietParent(w, exclude, p);
    if o.MadeDir? {
      QuietMade(w, before, exclude, cap, copy, p, o);
    } else if o.Landed? {
      QuietLanded(w, before, exclude, cap, copy, p, o);
    } else if o.NotCommitted? {
      QuietRefused(w, before, exclude, cap, copy, p, o);
    } else {
      QuietPassedOver(w, before, exclude, cap, copy, p, o);
    }
  }

  lemma QuietMade(w: World, before: Scan, exclude: seq<string>, cap: nat, copy: Path, p: Path, o: Outcome)
    requires QuietPass(w, before, exclude) && p in w.remote && o.MadeDir? && (o.recorded || p in w.base)
    requires ParentOf(p) == "" || IsDir(w.disk, ParentOf(p))
    requires Allowed(w, before, cap, NodeOf(w.remote, p), o)
    ensures QuietAfter(w, Effect(w, NodeOf(w.remote, p), copy, o), before, exclude, p)
  {
    hide Visible;
    assert QuietAt(w, exclude, p) && ScanHolds(w, before, p);
    NodeIsNamed(w.remote, p);
    QuietMkdir(w, exclude, p);
    assert IsDir(w.disk, p) ==> Live(w.disk, exclude, p);
  }

  /** Nothing was done, or a placeholder was left. */
  lemma QuietPassedOver(w: World, before: Scan, exclude: seq<string>, cap: nat, copy: Path, p: Path, o: Outcome)
    requires QuietPass(w, before, exclude) && p in w.remote && (o.Skipped? || o.Failed? || o.Stubbed?)
    requires WithDirs(w.disk, ParentOf(p)) == w.disk
    requires Allowed(w, before, cap, NodeOf(w.remote, p), o) && !Fault(w, NodeOf(w.remote, p), o)
    ensures QuietAfter(w, Effect(w, NodeOf(w.remote, p), copy, o), before, exclude, p)
  {
    hide Visible, SameAsBase, AlreadyThere, WantStub;
    assert QuietAt(w, exclude, p) && ScanHolds(w, before, p);
    assert p in w.disk ==> Live(w.disk, exclude, p);
  }

  /** A download could not be put in place, and no placeholder stood there. */
  lemma QuietRefused(w: World, before: Scan, exclude: seq<string>, cap: nat, copy: Path, p: Path, o: Outcome)
    requires QuietPass(w, before, exclude) && p in w.remote && o.NotCommitted? && !Stands(w, p)
    requires WithDirs(w.disk, ParentOf(p)) == w.disk && Allowed(w, before, cap, NodeOf(w.remote, p), o)
    ensures QuietAfter(w, Effect(w, NodeOf(w.remote, p), copy, o), before, exclude, p)
  {
    hide Visible, Arrives, MustKeep;
    assert QuietAt(w, exclude, p) && ScanHolds(w, before, p);
    ArrivesUnblocked(w, cap, NodeOf(w.remote, p));
    QuietKeepsNothing(w, before, exclude, p, o.got);
  }

  ghost predicate QuietAfter(w: World, w': World, before: Scan, exclude: seq<string>, p: Path) {
    && Tree(w'.disk) && w'.remote == w.remote
    && (forall q | q != p :: Same(w, w', q))
    && QuietAt(w', exclude, p) && ScanHolds(w', before, p)
  }

  lemma QuietLanded(w: World, before: Scan, exclude: seq<string>, cap: nat, copy: Path, p: Path, o: Outcome)
    requires QuietPass(w, before, exclude) && p in w.remote && o.Landed? && o.recorded
    requires WithDirs(w.disk, ParentOf(p)) == w.disk && (ParentOf(p) == "" || IsDir(w.disk, ParentOf(p)))
    requires Allowed(w, before, cap, NodeOf(w.remote, p), o) && Genuine(w.remote, NodeOf(w.remote, p), o)
    ensures QuietAfter(w, Effect(w, NodeOf(w.remote, p), copy, o), before, exclude, p)
  {
    hide Visible, Arrives, MustKeep;
    assert QuietAt(w, exclude, p) && ScanHolds(w, before, p);
    NodeIsNamed(w.remote, p);
    ArrivesUnblocked(w, cap, NodeOf(w.remote, p));
    QuietKeepsNothing(w, before, exclude, p, o.got);
    GenuineContent(w.remote, p, o);
    LandTree(w.disk, p, File(o.got, o.mtime, o.inode));
  }

  /** Making a folder whose parent is there adds this folder and nothing else. */
  lemma QuietMkdir(w: World, exclude: seq<string>, p: Path)
    requires Tree(w.disk) && p != "" && (ParentOf(p) == "" || IsDir(w.disk, ParentOf(p))) && !Blocked(w.disk, p)
    ensures var disk' := WithDirs(w.disk, p);
      Tree(disk') && IsDir(disk', p) && forall q | q != p :: q in disk' <==> q in w.disk
  {
    WithDirsTree(w.disk, p);
    WithDirsPresent(w.disk, ParentOf(p));
    forall q | q in Chain(p) && q != p ensures q in w.disk {
      assert q in Chain(ParentOf(p));
      assert q in WithDirs(w.disk, ParentOf(p));
    }
  }

  /** Nothing at this path has changed. */
  predicate Same(w: World, w': World, q: Path) {
    && (q in w'.disk <==> q in w.disk) && (q in w.disk ==> w'.disk[q] == w.disk[q])
    && (q in w'.base <==> q in w.base) && (q in w.base ==> w'.base[q] == w.base[q])
    && (q in w'.stubs <==> q in w.stubs)
  }

  lemma QuietElsewhere(w: World, w': World, before: Scan, exclude: seq<string>, q: Path)
    requires Same(w, w', q) && w'.remote == w.remote && QuietAt(w, exclude, q) && ScanHolds(w, before, q)
    ensures QuietAt(w', exclude, q) && ScanHolds(w', before, q)
  {
    hide Visible;
  }

  /** A step is a fault exactly if it leaves a quiet folder with something to send. A new folder
  that could not be made is the one that does so later: with the next node taken up in it. */
  lemma FaultIffDisturbed(w: World, before: Scan, exclude: seq<string>, cap: nat, copy: Path, p: Path, o: Outcome)
    requires QuietPass(w, before, exclude) && p in w.remote && (ParentOf(p) == "" || ParentOf(p) in w.base)
    requires Allowed(w, before, cap, NodeOf(w.remote, p), o) && Genuine(w.remote, NodeOf(w.remote, p), o)
    requires o.Failed? ==> !Fault(w, NodeOf(w.remote, p), o)
    ensures Quiet(Effect(w, NodeOf(w.remote, p), copy, o), exclude) <==> !Fault(w, NodeOf(w.remote, p), o)
  {
    hide Visible, Allowed, Genuine, Effect;
    var n := NodeOf(w.remote, p);
    var w' := Effect(w, n, copy, o);
    if Fault(w, n, o) {
      FaultDisturbs(w, before, exclude, cap, copy, p, o);
    } else {
      QuietEffect(w, before, exclude, cap, copy, p, o);
      forall q ensures QuietAt(w', exclude, q) {
        assert QuietAt(w, exclude, q) && ScanHolds(w, before, q);
        if q != p { QuietElsewhere(w, w', before, exclude, q); }
      }
    }
  }

  lemma FaultDisturbs(w: World, before: Scan, exclude: seq<string>, cap: nat, copy: Path, p: Path, o: Outcome)
    requires QuietPass(w, before, exclude) && p in w.remote && !o.Failed? && Fault(w, NodeOf(w.remote, p), o)
    requires Allowed(w, before, cap, NodeOf(w.remote, p), o) && Genuine(w.remote, NodeOf(w.remote, p), o)
    ensures !QuietAt(Effect(w, NodeOf(w.remote, p), copy, o), exclude, p)
  {
    hide Visible, MustKeep;
    var w' := Effect(w, NodeOf(w.remote, p), copy, o);
    assert QuietAt(w, exclude, p);
    NodeIsNamed(w.remote, p);
    if o.MadeDir? {
      assert Live(w'.disk, exclude, p);
    } else if o.Landed? {
      GenuineContent(w.remote, p, o);
      assert Live(w'.disk, exclude, p);
    }
  }

  /** A download that could not be put in place does no harm to a quiet folder if and only if
  no placeholder stood for the file: otherwise the placeholder is gone, and to the next push
  the file looks deleted here. */
  lemma FailedCommit(w: World, before: Scan, exclude: seq<string>, cap: nat, copy: Path, p: Path, o: Outcome,
                     local: Scan)
    requires QuietPass(w, before, exclude) && p in w.remote && (ParentOf(p) == "" || ParentOf(p) in w.base)
    requires o.NotCommitted? && Allowed(w, before, cap, NodeOf(w.remote, p), o)
    requires var w' := Effect(w, NodeOf(w.remote, p), copy, o);
      Rescanned(w'.disk, local, exclude) && Complete(w'.disk, local, exclude)
    ensures var w' := Effect(w, NodeOf(w.remote, p), copy, o);
      && (Quiet(w', exclude) <==> !Stands(w, p))
      && Vanished(w'.base, local, w'.stubs) == if Stands(w, p) then {p} else {}
  {
    hide Visible;
    var w' := Effect(w, NodeOf(w.remote, p), copy, o);
    assert QuietAt(w, exclude, p) && ScanHolds(w, before, p);
    QuietParent(w, exclude, p);
    ArrivesUnblocked(w, cap, NodeOf(w.remote, p));
    QuietKeepsNothing(w, before, exclude, p, o.got);
    assert w' == w.(stubs := w.stubs - {p});
    forall q ensures q != p ==> QuietAt(w', exclude, q)
      ensures q in Vanished(w'.base, local, w'.stubs) <==> q == p && Stands(w, p)
    {
      assert QuietAt(w, exclude, q);
    }
    assert QuietAt(w', exclude, p) <==> !Stands(w, p);
  }

  lemma QuietMove(c: Context, w: World, exclude: seq<string>, m: Move)
    requires QuietPass(w, c.before, exclude) && DeletesNothing(w.remote, c.changes)
    requires !m.Faulted? && StepOk(c, w, m, true, true)
    ensures m.Applied? && QuietPass(m.after, c.before, exclude)
  {
    QuietNames(w, exclude);
    match m
    case Applied(after, n, o) =>
      ReportedIsNode(w, n);
      QuietEffect(w, c.before, exclude, c.cap, c.keep(n.path), n.path, o);
      forall q ensures QuietAt(after, exclude, q) && ScanHolds(after, c.before, q) {
        assert QuietAt(w, exclude, q) && ScanHolds(w, c.before, q);
        if q != n.path { QuietElsewhere(w, after, c.before, exclude, q); }
      }
    case Took(after, p) =>
      assert NamesNode(w, p);
      NamedStays(w, c.changes, p);
  }

  /** A pull leaves a quiet folder quiet, however many of its downloads fail. */
  lemma QuietIsUpheld(c: Context, exclude: seq<string>)
    ensures Upheld(c, Quietly(c, exclude), true)
  {
    var claim := Quietly(c, exclude);
    forall w: World, m: Move ensures UpheldBy(c, claim, true, w, m) {
      if claim(w) && !m.Faulted? && StepOk(c, w, m, true, true) {
        QuietMove(c, w, exclude, m);
      }
    }
  }

  /** A quiet folder has nothing to send. */
  lemma QuietHasNothingToPush(w: World, exclude: seq<string>, local: Scan)
    requires Quiet(w, exclude) && Rescanned(w.disk, local, exclude) && Complete(w.disk, local, exclude)
    ensures NothingToPush(w, local)
  {
    hide Visible;
    forall p ensures p in Vanished(w.base, local, w.stubs) ==> p in local
      ensures p in local ==> InStep(w, p, local[p].isDir)
    {
      assert QuietAt(w, exclude, p);
    }
  }

  /** In a quiet folder size and time never lie, and a scan of it holds. */
  lemma QuietScan(w: World, before: Scan, exclude: seq<string>)
    requires Quiet(w, exclude) && forall p | p in before :: Visible(p, exclude) && Hashed(w, p, before[p])
    ensures QuietPass(w, before, exclude)
  {
    hide Visible;
    forall p ensures ScanHolds(w, before, p) {
      assert QuietAt(w, exclude, p);
      if p in before { assert Hashed(w, p, before[p]); }
    }
  }

  /** Whatever was there is still there, as the same node; files may have other content. */
  predicate OnlyGrew(before: Account, after: Account) {
    forall p | p in before ::
      p in after && after[p].link == before[p].link && after[p].parent == before[p].parent
      && after[p].isDir == before[p].isDir
  }

  /** Remote creations and edits leave a quiet folder quiet. */
  lemma QuietThroughRemoteEdits(w: World, remote: Account, exclude: seq<string>)
    requires Quiet(w, exclude) && OnlyGrew(w.remote, remote) && AccountTree(remote)
    requires forall p | p in remote ::
               Visible(p, exclude) && (!remote[p].isDir ==> remote[p].digest == Sum(remote[p].content))
    ensures Quiet(w.(remote := remote), exclude)
  {
    hide Visible;
    forall p ensures QuietAt(w.(remote := remote), exclude, p) {
      assert QuietAt(w, exclude, p);
    }
  }

  // ----- placeholders

  /** One path of a folder in which every file is pDrive's: a tracked file is downloaded, with
  the baseline's content and no placeholder, or it is not, and only the placeholder is here. */
  predicate MirroredAt(disk: Disk, stubs: set<Path>, base: Base, p: Path) {
    && (p in base && !base[p].isDir ==>
          if base[p].materialized then IsFile(disk, p) && base[p].hash == Sum(disk[p].content) && p !in stubs
          else p in stubs && p !in disk)
    && (p in base ==> p != "")
    && (IsFile(disk, p) ==> p in base && !base[p].isDir && base[p].materialized)
    && (p in stubs ==> ParentOf(p) == "" || IsDir(disk, ParentOf(p)))
  }

  ghost predicate Mirrored(w: World) {
    Tree(w.disk) && forall p :: MirroredAt(w.disk, w.stubs, w.base, p)
  }

  /** What is asked of the account at one path: names are such as a scan sees, a file tells
  its digest, and a path stays the kind that it is here. */
  predicate KindAt(w: World, exclude: seq<string>, p: Path) {
    && (p in w.base ==> Visible(p, exclude) && (p in w.disk ==> (w.base[p].isDir <==> w.disk[p].Dir?)))
    && (p in w.remote ==>
          && Visible(p, exclude) && (!w.remote[p].isDir ==> w.remote[p].digest == Sum(w.remote[p].content))
          && (p in w.base ==> w.base[p].isDir == w.remote[p].isDir)
          && (p in w.disk ==> (w.remote[p].isDir <==> w.disk[p].Dir?)))
  }

  /** Every link there is has been handed out, the root's apart. */
  predicate LinksUsed(w: World, used: set<Link>) {
    && ROOT_LINK !in used
    && (forall p | p in w.base :: w.base[p].link in used) && forall p | p in w.remote :: w.remote[p].link in used
  }

  function AllPaths(w: World): set<Path> { w.base.Keys + w.remote.Keys + w.disk.Keys }

  ghost predicate SteadyAccount(w: World, used: set<Link>, exclude: seq<string>) {
    && AccountTree(w.remote) && (forall p :: KindAt(w, exclude, p)) && (forall p, q :: StableLink(w, p, q))
    && CaseClear(AllPaths(w), AllPaths(w)) && LinksUsed(w, used)
  }

  ghost predicate MirroredPass(w: World, before: Scan, used: set<Link>, exclude: seq<string>) {
    Mirrored(w) && SteadyAccount(w, used, exclude) && forall p :: ScanHolds(w, before, p)
  }

  ghost function Mirroring(before: Scan, used: set<Link>, exclude: seq<string>): Claim {
    w => MirroredPass(w, before, used, exclude)
  }

  /** Nothing is ever moved aside: files are as their rows say. */
  lemma MirroredKeepsNothing(w: World, before: Scan, p: Path, got: Content)
    requires MirroredAt(w.disk, w.stubs, w.base, p) && ScanHolds(w, before, p)
    requires p in w.remote && !SameAsBase(w.base, NodeOf(w.remote, p))
    ensures !MustKeep(w, before, p, got)
  {
  }

  /** Where an applied node changes things when nothing is moved aside: at its path, and by
  adding folders above it. */
  predicate OnlyAt(w: World, w': World, p: Path, q: Path) {
    && (q in w.disk ==> q in w'.disk && w'.disk[q] == w.disk[q])
    && (q in w'.disk && q !in w.disk ==> w'.disk[q] == Dir && q in Chain(p))
    && (q in w'.base <==> q in w.base) && (q in w.base ==> w'.base[q] == w.base[q])
    && (q in w'.stubs <==> q in w.stubs)
  }

  lemma AppliedOnlyAt(w: World, before: Scan, cap: nat, n: Node, copy: Path, o: Outcome, q: Path)
    requires Allowed(w, before, cap, n, o) && q != n.path
    requires o.NotCommitted? || o.Landed? ==> !o.kept
    ensures OnlyAt(w, Effect(w, n, copy, o), n.path, q)
  {
  }

  lemma OneElsewhere(w: World, w': World, before: Scan, exclude: seq<string>, p: Path, q: Path)
    requires w'.remote == w.remote && q != p && OnlyAt(w, w', p, q)
    requires ParentOf(q) != p ==> OnlyAt(w, w', p, ParentOf(q))
    requires ParentOf(q) == p && IsDir(w.disk, p) ==> IsDir(w'.disk, p)
    requires q in Chain(p) ==> q in w.remote && w.remote[q].isDir
    requires MirroredAt(w.disk, w.stubs, w.base, q) && KindAt(w, exclude, q) && ScanHolds(w, before, q)
    ensures MirroredAt(w'.disk, w'.stubs, w'.base, q) && KindAt(w', exclude, q) && ScanHolds(w', before, q)
  {
    hide Visible;
  }

  /** The path that is applied, if a folder is made there. */
  lemma MirroredMadeDir(w: World, before: Scan, exclude: seq<string>, cap: nat, copy: Path, p: Path, o: Outcome)
    requires Tree(w.disk) && p in w.remote && p != "" && o.MadeDir?
    requires MirroredAt(w.disk, w.stubs, w.base, p) && KindAt(w, exclude, p) && ScanHolds(w, before, p)
    requires Allowed(w, before, cap, NodeOf(w.remote, p), o) && !Fault(w, NodeOf(w.remote, p), o)
    ensures HereAfter(w, Effect(w, NodeOf(w.remote, p), copy, o), before, exclude, p)
  {
    hide Visible;
    WithDirsTree(w.disk, p);
  }

  /** The same, if neither a folder is made nor a file lands. */
  lemma MirroredHere(w: World, before: Scan, exclude: seq<string>, cap: nat, copy: Path, p: Path, o: Outcome)
    requires Tree(w.disk) && p in w.remote && p != "" && !o.Landed? && !o.MadeDir? && (o.NotCommitted? ==> !o.kept)
    requires MirroredAt(w.disk, w.stubs, w.base, p) && KindAt(w, exclude, p) && ScanHolds(w, before, p)
    requires Allowed(w, before, cap, NodeOf(w.remote, p), o) && !Fault(w, NodeOf(w.remote, p), o)
    ensures HereAfter(w, Effect(w, NodeOf(w.remote, p), copy, o), before, exclude, p)
  {
    hide Visible, SameAsBase, AlreadyThere, WantStub;
    WithDirsTreeIfFree(w.disk, ParentOf(p));
  }

  predicate HereAfter(w: World, w': World, before: Scan, exclude: seq<string>, p: Path)
    requires p in w.remote
  {
    && MirroredAt(w'.disk, w'.stubs, w'.base, p) && KindAt(w', exclude, p) && ScanHolds(w', before, p)
    && Tree(w'.disk) && (IsDir(w.disk, p) ==> IsDir(w'.disk, p))
    && (w'.base == w.base || (p in w'.base && w'.base[p].link == w.remote[p].link))
  }

  lemma MirroredLanded(w: World, before: Scan, exclude: seq<string>, cap: nat, copy: Path, p: Path, o: Outcome)
    requires Tree(w.disk) && p in w.remote && p != "" && o.Landed? && !o.kept && o.recorded
    requires MirroredAt(w.disk, w.stubs, w.base, p) && KindAt(w, exclude, p)
    requires Allowed(w, before, cap, NodeOf(w.remote, p), o) && o.got == w.remote[p].content
    ensures HereAfter(w, Effect(w, NodeOf(w.remote, p), copy, o), before, exclude, p)
  {
    hide Visible, Arrives, MustKeep;
    ArrivesUnblocked(w, cap, NodeOf(w.remote, p));
    WithDirsTree(w.disk, ParentOf(p));
    LandTree(WithDirs(w.disk, ParentOf(p)), p, File(o.got, o.mtime, o.inode));
  }

  lemma GenuineContent(remote: Account, p: Path, o: Outcome)
    requires AccountTree(remote) && p in remote
    requires (o.Landed? || o.NotCommitted?) && Genuine(remote, NodeOf(remote, p), o)
    ensures o.got == remote[p].content && p != ""
  {
    NodeIsNamed(remote, p);
    var q :| q in remote && remote[q].link == remote[p].link && o.got == remote[q].content;
    assert q == p;
  }

  lemma ArrivesUnblocked(w: World, cap: nat, n: Node)
    requires Arrives(w, cap, n)
    ensures !n.isDir && !Blocked(w.disk, ParentOf(n.path)) && !SameAsBase(w.base, n)
  {
  }

  /** What applying a node does at its own path. */
  lemma AppliedHere(w: World, before: Scan, used: set<Link>, exclude: seq<string>, cap: nat, copy: Path, p: Path,
                    o: Outcome)
    requires MirroredPass(w, before, used, exclude) && p in w.remote
    requires Allowed(w, before, cap, NodeOf(w.remote, p), o) && !Fault(w, NodeOf(w.remote, p), o)
    requires Genuine(w.remote, NodeOf(w.remote, p), o)
    ensures o.Landed? || o.NotCommitted? ==> !o.kept
    ensures HereAfter(w, Effect(w, NodeOf(w.remote, p), copy, o), before, exclude, p)
  {
    hide Arrives, MustKeep, HereAfter, Effect, CaseClear, StableLink, AllPaths, LinksUsed;
    assert MirroredAt(w.disk, w.stubs, w.base, p) && ScanHolds(w, before, p) && KindAt(w, exclude, p);
    NodeIsNamed(w.remote, p);
    if o.Landed? || o.NotCommitted? {
      ArrivesUnblocked(w, cap, NodeOf(w.remote, p));
      MirroredKeepsNothing(w, before, p, o.got);
    }
    if o.Landed? {
      GenuineContent(w.remote, p, o);
      MirroredLanded(w, before, exclude, cap, copy, p, o);
    } else if o.MadeDir? {
      MirroredMadeDir(w, before, exclude, cap, copy, p, o);
    } else {
      MirroredHere(w, before, exclude, cap, copy, p, o);
    }
  }

  lemma MirroredApplied(w: World, before: Scan, used: set<Link>, exclude: seq<string>, cap: nat, copy: Path, p: Path,
                        o: Outcome)
    requires MirroredPass(w, before, used, exclude) && p in w.remote
    requires Allowed(w, before, cap, NodeOf(w.remote, p), o) && !Fault(w, NodeOf(w.remote, p), o)
    requires Genuine(w.remote, NodeOf(w.remote, p), o)
    ensures MirroredPass(Effect(w, NodeOf(w.remote, p), copy, o), before, used, exclude)
  {
    hide MirroredPass, HereAfter, OnlyAt, Allowed, Genuine, Fault;
    var n := NodeOf(w.remote, p);
    var w' := Effect(w, n, copy, o);
    AppliedHere(w, before, used, exclude, cap, copy, p, o);
    forall q | q != p ensures OnlyAt(w, w', p, q) {
      AppliedOnlyAt(w, before, cap, n, copy, o, q);
    }
    MirroredStill(w, w', before, used, exclude, p);
  }

  /** One path is as it should be, and elsewhere only folders above it are new. */
  lemma MirroredStill(w: World, w': World, before: Scan, used: set<Link>, exclude: seq<string>, p: Path)
    requires MirroredPass(w, before, used, exclude) && p in w.remote && w'.remote == w.remote
    requires HereAfter(w, w', before, exclude, p) && forall q | q != p :: OnlyAt(w, w', p, q)
    ensures MirroredPass(w', before, used, exclude)
  {
    NodeIsNamed(w.remote, p);
    RemoteChain(w.remote, p);
    forall q ensures MirroredAt(w'.disk, w'.stubs, w'.base, q) && KindAt(w', exclude, q) && ScanHolds(w', before, q) {
      assert MirroredAt(w.disk, w.stubs, w.base, q) && KindAt(w, exclude, q) && ScanHolds(w, before, q);
      if q != p { OneElsewhere(w, w', before, exclude, p, q); }
    }
    StillSteady(w, w', used, exclude, p);
  }

  lemma StillSteady(w: World, w': World, used: set<Link>, exclude: seq<string>, p: Path)
    requires SteadyAccount(w, used, exclude) && p in w.remote && w'.remote == w.remote
    requires w'.base == w.base || (p in w'.base && w'.base[p].link == w.remote[p].link)
    requires forall q | q != p :: OnlyAt(w, w', p, q)
    ensures forall x, y :: StableLink(w', x, y)
    ensures CaseClear(AllPaths(w'), AllPaths(w')) && LinksUsed(w', used)
  {
    hide KindAt, CaseClear;
    RemoteChain(w.remote, p);
    forall x, y ensures StableLink(w', x, y) {
      assert StableLink(w, x, y);
      assert x != p ==> OnlyAt(w, w', p, x);
    }
    forall q | q in AllPaths(w') ensures q in AllPaths(w) {
      if q != p { assert OnlyAt(w, w', p, q); }
    }
    CaseClearLess(AllPaths(w), AllPaths(w), AllPaths(w'), AllPaths(w'));
    forall q | q in w'.base ensures w'.base[q].link in used {
      if q != p { assert OnlyAt(w, w', p, q); }
    }
  }

  /** A removal takes files, placeholders and rows away together. */
  lemma MirroredDropped(w: World, before: Scan, used: set<Link>, exclude: seq<string>, w': World, p: Path)
    requires MirroredPass(w, before, used, exclude) && p in w.base && Removed(w, w', p, w.base[p].isDir)
    ensures MirroredPass(w', before, used, exclude)
  {
    RemovedTree(w, w', p, w.base[p].isDir);
    assert MirroredAt(w.disk, w.stubs, w.base, p);
    CaseClearLess(AllPaths(w), AllPaths(w), w.base.Keys, w.base.Keys);
    CaseClearLess(AllPaths(w), AllPaths(w), AllPaths(w'), AllPaths(w'));
    forall q ensures MirroredAt(w'.disk, w'.stubs, w'.base, q) && KindAt(w', exclude, q) && ScanHolds(w', before, q) {
      assert MirroredAt(w.disk, w.stubs, w.base, q) && KindAt(w, exclude, q) && ScanHolds(w, before, q);
      RemovedHere(w, w', p, q);
    }
    forall x, y ensures StableLink(w', x, y) {
      assert StableLink(w, x, y);
    }
  }

  lemma RemovedHere(w: World, w': World, p: Path, q: Path)
    requires Mirrored(w) && p in w.base && p != "" && Removed(w, w', p, w.base[p].isDir)
    requires CaseClear(w.base.Keys, w.base.Keys)
    requires MirroredAt(w.disk, w.stubs, w.base, q)
    ensures MirroredAt(w'.disk, w'.stubs, w'.base, q)
    ensures q in w'.disk ==> q in w.disk && w'.disk[q] == w.disk[q]
    ensures q in w'.base ==> q in w.base && w'.base[q] == w.base[q]
  {
    var t := AfterTrash(w, p);
    assert MirroredAt(w.disk, w.stubs, w.base, p);
    SubtreePatternExact(p, q);
    if q in w.base && !w.base[q].isDir && Under(q, p) {
      UnderViaParent(q, p);
      if q in w.disk { AboveIsDir(w.disk, q, p); }
      if q in w.stubs && ParentOf(q) != p { AboveIsDir(w.disk, ParentOf(q), p); }
    }
  }

  lemma MirroredMove(c: Context, used: set<Link>, exclude: seq<string>, w: World, m: Move)
    requires MirroredPass(w, c.before, used, exclude) && !m.Faulted? && StepOk(c, w, m, true, false)
    ensures MirroredPass(m.after, c.before, used, exclude)
  {
    match m
    case Applied(after, n, o) =>
      forall p | p in w.remote ensures ValidPath(p) {
        assert KindAt(w, exclude, p);
      }
      ReportedIsNode(w, n);
      MirroredApplied(w, c.before, used, exclude, c.cap, c.keep(n.path), n.path, o);
    case Took(after, p) =>
      MirroredDropped(w, c.before, used, exclude, after, p);
  }

  /** A pull keeps files and placeholders in step with the baseline, whatever the size cap
  and whatever appears, changes or disappears remotely. */
  lemma MirroringIsUpheld(c: Context, used: set<Link>, exclude: seq<string>)
    ensures Upheld(c, Mirroring(c.before, used, exclude), false)
  {
    var claim := Mirroring(c.before, used, exclude);
    forall w: World, m: Move ensures UpheldBy(c, claim, false, w, m) {
      if claim(w) && !m.Faulted? && StepOk(c, w, m, true, false) {
        MirroredMove(c, used, exclude, w, m);
      }
    }
  }

  /** In such a folder size and time never lie, and a scan of it holds. */
  lemma MirroredScan(w: World, before: Scan)
    requires Mirrored(w) && forall p | p in before :: Hashed(w, p, before[p])
    ensures forall p :: ScanHolds(w, before, p)
  {
    forall p ensures ScanHolds(w, before, p) {
      assert MirroredAt(w.disk, w.stubs, w.base, p);
      if p in before { assert Hashed(w, p, before[p]); }
    }
  }

  /** Every file that a scan sees is as its row says, and none is new. */
  lemma MirroredFilesInStep(w: World, exclude: seq<string>, local: Scan)
    requires Mirrored(w) && Rescanned(w.disk, local, exclude)
    ensures FilesInStep(w, local)
    ensures forall p | p in local && !local[p].isDir :: p in w.base
  {
    hide Visible;
    forall p | p in local && !local[p].isDir ensures InStep(w, p, false) {
      assert MirroredAt(w.disk, w.stubs, w.base, p);
    }
  }

  /** No file's row falls with the rows that have no local entry: those are folders that
  became empty. */
  lemma MirroredLosesNoFile(w: World, used: set<Link>, exclude: seq<string>, local: Scan, q: Path)
    requires Mirrored(w) && SteadyAccount(w, used, exclude)
    requires Rescanned(w.disk, local, exclude) && Complete(w.disk, local, exclude)
    requires q in w.base && !w.base[q].isDir
    ensures !LostTo(Vanished(w.base, local, w.stubs), q)
  {
    hide Visible;
    assert MirroredAt(w.disk, w.stubs, w.base, q);
    forall p | p in Vanished(w.base, local, w.stubs) ensures !Selected(p, q) {
      assert MirroredAt(w.disk, w.stubs, w.base, p) && KindAt(w, exclude, p);
      assert p in w.disk ==> Live(w.disk, exclude, p);
      SubtreePatternExact(p, q);
      if Under(q, p) {
        UnderViaParent(q, p);
        if q in w.disk { AboveIsDir(w.disk, q, p); }
        if q in w.stubs && ParentOf(q) != p { AboveIsDir(w.disk, ParentOf(q), p); }
      }
    }
  }

  /** A push leaves files and placeholders in step with the baseline. */
  lemma MirroredThroughPush(w: World, w': World, used: set<Link>, exclude: seq<string>, local: Scan, due: set<Path>)
    requires Mirrored(w) && SteadyAccount(w, used, exclude) && SameLocal(w, w')
    requires Rescanned(w.disk, local, exclude) && Complete(w.disk, local, exclude)
    requires due <= Vanished(w.base, local, w.stubs) && RowsAccounted(w.base, w'.base, {}, due)
    requires OnlyFolderRows(w.base, w'.base, w.disk)
    ensures Mirrored(w')
  {
    hide Visible;
    forall p ensures MirroredAt(w'.disk, w'.stubs, w'.base, p) {
      assert MirroredAt(w.disk, w.stubs, w.base, p);
      if p in w.base && !w.base[p].isDir {
        MirroredLosesNoFile(w, used, exclude, local, p);
      }
      if p in w.disk { EntryIsNamed(w.disk, p); }
    }
  }

  // ----- one pass

  /** What the claims say at the end of a pull without half-way stops. */
  lemma AfterPull(c: Context, used: set<Link>, exclude: seq<string>, w0: World, log: seq<Move>, w1: World)
    requires Run(c, w0, log) && Sound(log) && EndOf(w0, log) == w1
    requires forall p | p in c.before :: Visible(p, exclude) && Hashed(w0, p, c.before[p])
    ensures AtRest(w0, exclude, c.cap) && DeletesNothing(w0.remote, c.changes) ==> w1 == w0
    ensures Quiet(w0, exclude) && DeletesNothing(w0.remote, c.changes) ==> Quiet(w1, exclude)
    ensures Mirrored(w0) && SteadyAccount(w0, used, exclude) ==> Mirrored(w1) && SteadyAccount(w1, used, exclude)
    ensures w1.remote == w0.remote
  {
    hide Visible, Run, Hashed, AccountTree, DeletesNothing, SteadyAccount, Mirrored, Upheld;
    RunKeepsRemote(c, w0, log);
    if AtRest(w0, exclude, c.cap) && DeletesNothing(w0.remote, c.changes) {
      RestIsFixed(c, w0, exclude);
      UpheldAlong(c, Being(w0), true, w0, log);
    }
    if Quiet(w0, exclude) && DeletesNothing(w0.remote, c.changes) {
      QuietScan(w0, c.before, exclude);
      QuietIsUpheld(c, exclude);
      UpheldAlong(c, Quietly(c, exclude), true, w0, log);
    }
    if Mirrored(w0) && SteadyAccount(w0, used, exclude) {
      MirroredScan(w0, c.before);
      MirroringIsUpheld(c, used, exclude);
      UpheldAlong(c, Mirroring(c.before, used, exclude), false, w0, log);
    }
  }

  /** What they say at the end of a push that saw every local entry. */
  lemma AfterPush(w: World, w': World, calls: seq<Call>, calls': seq<Call>, used: set<Link>, exclude: seq<string>,
                  cap: nat, local: Scan, moves: map<Path, Path>)
    requires Rescanned(w.disk, local, exclude) && Complete(w.disk, local, exclude) && SameLocal(w, w')
    requires NothingToPush(w, local) ==> w' == w && calls' == calls
    requires MovesToNew(w.base, local, moves)
    requires RowsAccounted(w.base, w'.base, moves.Keys, Vanished(w.base, local, w.stubs) - moves.Keys)
    requires FilesInStep(w, local) && moves == map[] ==> OnlyFolderRows(w.base, w'.base, w.disk)
    ensures AtRest(w, exclude, cap) || Quiet(w, exclude) ==> w' == w && calls' == calls
    ensures Mirrored(w) && SteadyAccount(w, used, exclude) ==> Mirrored(w') && moves == map[]
  {
    hide Visible, AtRest, Quiet, Mirrored, SteadyAccount, NothingToPush, FilesInStep, OnlyFolderRows, RowsAccounted;
    hide Vanished, Rescanned, Complete;
    if AtRest(w, exclude, cap) { RestHasNothingToPush(w, exclude, cap, local); }
    if Quiet(w, exclude) { QuietHasNothingToPush(w, exclude, local); }
    if Mirrored(w) && SteadyAccount(w, used, exclude) {
      MirroredFilesInStep(w, exclude, local);
      NoMoves(w.base, local, moves);
      assert Vanished(w.base, local, w.stubs) - moves.Keys == Vanished(w.base, local, w.stubs);
      MirroredThroughPush(w, w', used, exclude, local, Vanished(w.base, local, w.stubs));
    }
  }

  lemma NoMoves(base: Base, local: Scan, moves: map<Path, Path>)
    requires MovesToNew(base, local, moves) && forall p | p in local && !local[p].isDir :: p in base
    ensures moves == map[] && moves.Keys == {}
  {
  }

  /** A placeholder was replaced by its file, or nothing but folders came of it. */
  lemma PlacedIsMirrored(w: World, w': World, p: Path, f: Entry, parents: bool, placed: bool)
    requires p in w.base && !w.base[p].isDir && !w.base[p].materialized
    requires parents ==> !Blocked(w.disk, ParentOf(p))
    requires placed ==> parents && f.File?
    requires var disk1 := if parents then WithDirs(w.disk, ParentOf(p)) else w.disk;
      w'.disk == if placed then disk1[p := f] else disk1
    requires w'.stubs == if placed then w.stubs - {p} else w.stubs
    requires if placed then p in w'.base && w'.base == w.base[p := w'.base[p]] && !w'.base[p].isDir
                            && w'.base[p].materialized && w'.base[p].hash == Sum(f.content)
             else w'.base == w.base
    requires Tree(w'.disk)
    ensures Mirrored(w) ==> Mirrored(w')
  {
    if Mirrored(w) {
      assert MirroredAt(w.disk, w.stubs, w.base, p);
      forall q ensures MirroredAt(w'.disk, w'.stubs, w'.base, q) {
        assert MirroredAt(w.disk, w.stubs, w.base, q);
        if q in Chain(ParentOf(p)) && q !in w.disk { PlaceholderAbove(w, p, q); }
      }
    }
  }

  /** The folders above a placeholder are on disk already. */
  lemma PlaceholderAbove(w: World, p: Path, q: Path)
    requires Mirrored(w) && p in w.stubs && q in Chain(ParentOf(p))
    ensures IsDir(w.disk, q)
  {
    assert MirroredAt(w.disk, w.stubs, w.base, p);
    if q != ParentOf(p) { AboveIsDir(w.disk, ParentOf(p), q); }
  }
}
