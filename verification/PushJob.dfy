/** One push and what it may count on (internal/mirror/push.go): exactness while nothing has
failed, a linked baseline, an account that placeholders can rely on. */
module PushJob {
  import opened Types
  import opened Paths
  import opened Names
  import opened SubtreePattern
  import opened World
  import opened Survival
  import opened MoveDetection
  import opened PushSteps
  import opened PushRun
  import opened RowLinks
  import opened Remotes
  import opened Claims
  import opened Steadiness

  /** The plan is one for these rows and this folder: moves lead to local files, and no row is
  both moved and trashed. */
  ghost predicate Fits(job: Job, disk: Disk, exclude: seq<string>) {
    && Tree(disk) && job.w1.disk == disk && job.plan.base == job.w1.base
    && CoversFolders(job.plan, disk, exclude)
    && job.plan.due <= job.w1.base.Keys && job.plan.moves.Keys <= job.w1.base.Keys
    && job.plan.due !! job.plan.moves.Keys
    && (forall p | p in job.plan.moves :: Live(disk, exclude, job.plan.moves[p]))
    && (job.steady ==> job.plan.moves == map[])
  }

  lemma FitsFolder(job: Job, disk: Disk, exclude: seq<string>)
    requires Fits(job, disk, exclude)
    ensures Tree(disk) && job.w1.disk == disk && job.plan.base == job.w1.base && CoversFolders(job.plan, disk, exclude)
  {
  }

  lemma DueAreRows(job: Job, disk: Disk, exclude: seq<string>)
    requires Fits(job, disk, exclude)
    ensures forall p | p in job.plan.due :: p in job.w1.base
    ensures job.plan.due <= job.plan.base.Keys - job.plan.moves.Keys && job.plan.base == job.w1.base
  {
  }

  /** A push in progress: `pending` are the vanished rows and `todo` the local entries that have
  not had their turn, `granted` the moves that the account has granted. */
  ghost predicate Afoot(job: Job, w: World, used: set<Link>, exclude: seq<string>, granted: set<Path>,
                        pending: set<Path>, todo: set<Path>, exact: bool) {
    && granted <= job.plan.moves.Keys
    && (exact ==> PushState(job.w1, w, exclude, pending, todo))
    && (job.linked ==> Linked(w, used, exclude) && Relocated(w.remote, job.plan, granted))
    && (job.steady ==> SteadyAccount(w, used, exclude))
  }

  lemma MkdirEnds(job: Job, w: World, w': World, used: set<Link>, used': set<Link>, exclude: seq<string>,
                  granted: set<Path>, pending: set<Path>, todo: set<Path>, p: Path, link: Link, parent: Link, dir: Path,
                  made: bool, ok: bool, exact: bool)
    requires Afoot(job, w, used, exclude, granted, pending, todo, exact)
    requires IsDir(w.disk, p) && Visible(p, exclude) && ParentRow(w.base, p, parent) && (ok ==> made)
    requires if made then MkdirOutcome(w, w', p, link, parent, dir, ok) && MayGive(w.remote, used, p, dir, link)
                          && used' == used + {link}
             else w' == w && used' == used
    ensures Afoot(job, w', used', exclude, granted, pending, todo, exact && ok)
    ensures exact && ok ==> InSync(w', p)
  {
    hide PushState, Linked, SteadyAccount, Relocated, MkdirOutcome, ParentRow, Visible, InSync, MayGive, LinksKept;
    if made {
      MkdirGrows(w, w', p, link, parent, dir, ok);
      if job.linked {
        MkdirKept(w, w', used, exclude, p, link, parent, dir, ok);
        StillRelocated(w.remote, w'.remote, job.plan, granted);
      }
      if job.steady { SteadyMkdir(w, w', used, exclude, p, link, parent, dir, ok); }
      if ok && exact { MkdirDone(job.w1, w, w', exclude, pending, todo, p, link, parent, dir); }
    }
  }

  lemma UploadEnds(job: Job, w: World, w': World, used: set<Link>, used': set<Link>, exclude: seq<string>,
                   granted: set<Path>, pending: set<Path>, todo: set<Path>, p: Path, link: Link, parent: Link,
                   dir: Path, sent: bool, ok: bool, exact: bool)
    requires Afoot(job, w, used, exclude, granted, pending, todo, exact)
    requires IsFile(w.disk, p) && Visible(p, exclude) && ParentRow(w.base, p, parent) && (ok ==> sent)
    requires if sent then UploadOutcome(w, w', p, link, parent, dir, ok) && MayGive(w.remote, used, p, dir, link)
                          && used' == used + {link}
             else w' == w && used' == used
    ensures Afoot(job, w', used', exclude, granted, pending, todo - {p}, exact && ok)
  {
    hide PushState, Linked, SteadyAccount, Relocated, UploadOutcome, ParentRow, Visible, MayGive, LinksKept;
    if sent {
      UploadGrows(w, w', p, link, parent, dir, ok);
      if job.linked {
        UploadKept(w, w', used, exclude, p, link, parent, dir, ok);
        StillRelocated(w.remote, w'.remote, job.plan, granted);
      }
      if job.steady { SteadyUpload(w, w', used, exclude, p, link, parent, dir, ok); }
      if ok && exact { UploadDone(job.w1, w, w', exclude, pending, todo, p, link, parent, dir); }
    }
  }

  /** However far a move got. */
  lemma MoveEnds(job: Job, w: World, w': World, used: set<Link>, exclude: seq<string>, granted: set<Path>,
                 pending: set<Path>, todo: set<Path>, from: Path, at: Path, n: LocalNode, parent: Link, dir: Path,
                 sent: bool, forgotten: bool, ok: bool, exact: bool)
    requires Afoot(job, w, used, exclude, granted, pending, todo, exact) && Fits(job, w.disk, exclude)
    requires from in job.plan.moves && from !in granted && from in job.w1.base && !job.w1.base[from].isDir
    requires var to := job.plan.moves[from];
      && to !in job.w1.base && IsFile(w.disk, to) && Read(w.disk, to, n) && ParentRow(w.base, to, parent)
      && (if sent then MoveOutcome(w, w', job.w1.base[from], from, at, to, n, parent, dir, forgotten, ok) else w' == w)
      && (exact ==> from in pending && to in todo && Matches(job.w1.base, w.disk, {}, from, to))
    requires (ok ==> sent && forgotten) && (exact ==> HonestInodes(job.w1))
    requires job.linked ==> from in w.base && w.base[from] == job.w1.base[from]
    ensures Afoot(job, w', used, exclude, if sent then granted + {from} else granted, pending - {from},
                  todo - {job.plan.moves[from]}, exact && ok)
  {
    hide PushState, Linked, SteadyAccount, Relocated, MoveOutcome, ParentRow, Visible, Matches, CoversFolders,
         HonestInodes;
    hide Read;
    var to := job.plan.moves[from];
    if sent && job.linked {
      MoveKept(w, w', used, exclude, from, at, to, n, parent, dir, forgotten, ok);
      RelocatedByMove(w, w', used, exclude, job.plan, granted, from, at, n, parent, dir, forgotten, ok);
    }
    if ok && exact { MoveDone(job.w1, w, w', exclude, pending, todo, from, at, to, n, parent, dir); }
  }

  lemma TrashEnds(job: Job, w: World, w': World, used: set<Link>, exclude: seq<string>, granted: set<Path>,
                  pending: set<Path>, todo: set<Path>, p: Path, at: Path, sent: bool, ok: bool, exact: bool)
    requires Afoot(job, w, used, exclude, granted, pending, todo, exact) && Fits(job, w.disk, exclude)
    requires p in job.plan.due && p in job.w1.base && (ok ==> sent)
    requires if sent then TrashOutcome(w, w', job.w1.base[p], p, at, ok) else w' == w
    requires exact || job.linked ==> p in w.base && w.base[p] == job.w1.base[p] && !Live(w.disk, exclude, p)
    requires exact ==> CaseClear(job.w1.base.Keys, job.w1.base.Keys + job.w1.disk.Keys) && p in pending
    requires exact ==> forall q | q in pending :: |q| <= |p|
    ensures Afoot(job, w', used, exclude, granted, pending - {p}, todo, exact && ok)
  {
    hide PushState, Linked, SteadyAccount, Relocated, Live, CoversFolders, CaseClear;
    if sent && job.linked {
      TrashLinked(w, used, exclude, p, at, ok);
      RelocatedThroughTrash(w, w', used, exclude, job.plan, granted, p, at, ok);
    }
    if sent && job.steady { SteadyTrash(w, w', used, exclude, job.w1.base[p], p, at, ok); }
    if ok && exact { TrashDone(job.w1, w, w', exclude, pending, todo, p, at); }
  }

  /** An entry that is as its row says needs no request. */
  lemma NothingToSend(job: Job, w: World, used: set<Link>, exclude: seq<string>, granted: set<Path>,
                      pending: set<Path>, todo: set<Path>, p: Path, exact: bool)
    requires Afoot(job, w, used, exclude, granted, pending, todo, exact)
    requires p in todo && p in job.w1.base && p in w.disk
    requires IsFile(w.disk, p) ==> !job.w1.base[p].materialized || job.w1.base[p].hash == Sum(w.disk[p].content)
    ensures Afoot(job, w, used, exclude, granted, pending, todo - {p}, exact)
  {
    hide PushState, Linked, SteadyAccount, Relocated;
    if exact { NoRequest(job.w1, w, exclude, pending, todo, p); }
  }

  /** All entries had their turn, or the rest was given up and nothing exact is claimed. */
  lemma UploadsOver(job: Job, w: World, used: set<Link>, exclude: seq<string>, granted: set<Path>,
                    todo: set<Path>, targets: set<Path>, exact: bool)
    requires Afoot(job, w, used, exclude, granted, {}, todo - targets, exact)
    ensures Afoot(job, w, used, exclude, granted, {}, {}, exact && todo == {})
  {
    hide PushState, Linked, SteadyAccount, Relocated;
    if todo == {} { assert todo - targets == {}; }
  }

  /** An entry that is in sync has had its turn. */
  lemma NowInSync(job: Job, w: World, used: set<Link>, exclude: seq<string>, granted: set<Path>,
                  pending: set<Path>, todo: set<Path>, p: Path, exact: bool)
    requires Afoot(job, w, used, exclude, granted, pending, todo, exact) && (exact ==> InSync(w, p))
    ensures Afoot(job, w, used, exclude, granted, pending, todo - {p}, exact)
  {
    hide PushState, Linked, SteadyAccount, Relocated, InSync;
    if exact { DoneWith(job.w1, w, exclude, pending, todo, p); }
  }

  // ----- one whole push

  ghost function JobOf(w: World, used: set<Link>, local: Scan, moves: map<Path, Path>, exclude: seq<string>): Job {
    Job(w, PlanOf(w, local, moves, exclude), Linked(w, used, exclude) && Complete(w.disk, local, exclude),
        SteadyAccount(w, used, exclude) && moves == map[])
  }

  lemma JobFits(w: World, used: set<Link>, local: Scan, moves: map<Path, Path>, exclude: seq<string>)
    requires Tree(w.disk) && Rescanned(w.disk, local, exclude)
    requires Pairing(w.base, w.disk, Candidates(w.base, local), Vanished(w.base, local, w.stubs), moves)
    ensures Fits(JobOf(w, used, local, moves, exclude), w.disk, exclude)
  {
    hide Visible, Matches;
    PlanCovers(w, local, moves, exclude);
  }

  lemma JobIs(w: World, used: set<Link>, local: Scan, hashed: Scan, moves: map<Path, Path>, exclude: seq<string>)
    requires Rescanned(w.disk, hashed, exclude) && MoreHashes(local, hashed)
    requires Pairing(w.base, w.disk, Candidates(w.base, local), Vanished(w.base, local, w.stubs), moves)
    ensures var job := JobOf(w, used, local, moves, exclude);
      && job.w1 == w && job.plan == PlanOf(w, local, moves, exclude) && job.plan.moves == moves
      && job.plan.due == Vanished(w.base, local, w.stubs) - moves.Keys
      && (forall p | p in hashed && p !in moves.Values && IsFile(w.disk, p) && !InStep(w, p, false) ::
            p in job.plan.files)
      && (job.linked ==> Complete(w.disk, local, exclude))
    ensures Complete(w.disk, local, exclude) ==>
              forall p | p in Vanished(w.base, local, w.stubs) :: !Live(w.disk, exclude, p)
  {
    hide Pairing, Linked, SteadyAccount, Complete, Vanished, MoreHashes, Rescanned;
    PlanIs(w, local, hashed, moves, exclude);
  }

  /** Before anything was asked for. */
  lemma AtFirst(w: World, used: set<Link>, exclude: seq<string>, local: Scan, local': Scan, moves: map<Path, Path>,
                exact: bool)
    requires exact ==> Pushable(w, exclude) && Complete(w.disk, local, exclude)
    requires MoreHashes(local, local') && Rescanned(w.disk, local', exclude)
    ensures Afoot(JobOf(w, used, local, moves, exclude), w, used, exclude, {}, Vanished(w.base, local, w.stubs),
                  local'.Keys, exact)
  {
    hide PushState, Linked, SteadyAccount, Pushable, Rescanned, MoreHashes;
    if exact { ExactFromStart(w, exclude, local, local'); }
  }

  /** What a push that the guard let through leaves: from `w1` to `w`. `clean` says that it came
  to its end without a warning. */
  ghost predicate Pushed(w1: World, used1: set<Link>, calls1: seq<Call>, w: World, used: set<Link>, calls: seq<Call>,
                         exclude: seq<string>, local: Scan, moves: map<Path, Path>, granted: set<Path>, clean: bool) {
    var plan := PlanOf(w1, local, moves, exclude);
    // Without a warning the three trees agree.
    && (clean && Pushable(w1, exclude) && Complete(w1.disk, local, exclude) ==> Agreed(w, exclude))
    // Rows stay linked, and a node that the account moved is at its new place, whatever fails.
    && (Linked(w1, used1, exclude) && Complete(w1.disk, local, exclude)
        ==> Linked(w, used, exclude) && Relocated(w.remote, plan, granted))
    && granted <= moves.Keys && (clean ==> granted == moves.Keys)
    && (SteadyAccount(w1, used1, exclude) && moves == map[] ==> SteadyAccount(w, used, exclude))
    // What is asked for was planned, no path is asked for twice, and every due row is.
    && plan.Issued(calls1, calls, moves.Keys + plan.due + local.Keys) && AllAsked(w1.base, plan.due, calls1, calls)
    // Without a warning every entry is as its row says, was moved there, or was asked for.
    && (clean ==> ServedBut(moves.Values, w1, local, calls1, calls))
    // Rows go because they moved or were due.
    && RowsAccounted(w1.base, w.base, moves.Keys, plan.due)
    // With nothing to push nothing is asked for.
    && (NothingToPush(w1, local) ==> w == w1 && calls == calls1)
    && (FilesInStep(w1, local) && moves == map[] ==> OnlyFolderRows(w1.base, w.base, w1.disk))
  }

  /** Moves and deletions have led from `w1` to `mid`, with the requests up to `asked`. */
  ghost predicate HalfWay(w1: World, calls1: seq<Call>, mid: World, asked: seq<Call>, plan: Plan, gone: seq<Path>) {
    && plan.Issued(calls1, asked, plan.moves.Keys + plan.due) && AllAsked(plan.base, plan.due, calls1, asked)
    && RowsAccounted(w1.base, mid.base, plan.moves.Keys, plan.due)
    && (gone == [] && plan.moves == map[] ==> mid == w1 && asked == calls1)
    && (plan.moves == map[] ==> OnlyFolderRows(w1.base, mid.base, w1.disk))
  }

  lemma NowHalfWay(w1: World, calls1: seq<Call>, w2: World, calls2: seq<Call>, w: World, plan: Plan, gone: seq<Path>,
                   exclude: seq<string>)
    requires RowsKept(w1.base - plan.moves.Keys, w2.base, w1.disk, exclude) && RowsLost(w2.base, w.base, plan.due)
    requires plan.Issued(calls1, calls2, plan.moves.Keys) && NoRepeats(gone)
    requires plan.due == Members(gone) - plan.moves.Keys && plan.due <= plan.base.Keys
    requires plan.moves == map[] ==> w2 == w1 && calls2 == calls1
    requires gone == [] ==> w == w2
    ensures HalfWay(w1, calls1, w, calls2 + TrashCalls(plan.base, gone, plan.moves), plan, gone)
  {
    hide Live, Plan.Issued, AllAsked, RowsLost;
    AllAskedFor(plan, calls1, calls2, gone);
    RowsMovedOrTrashed(w1.base, w2.base, w.base, plan.moves.Keys, plan.due, w1.disk, exclude);
    LostRowsOnly(w2.base, w.base, plan.due, w1.disk);
    assert gone == [] ==> calls2 + TrashCalls(plan.base, gone, plan.moves) == calls2;
  }

  lemma PushOver(w1: World, used1: set<Link>, calls1: seq<Call>, w: World, used: set<Link>, calls: seq<Call>,
                 exclude: seq<string>, local: Scan, hashed: Scan, moves: map<Path, Path>, granted: set<Path>,
                 gone: seq<Path>, mid: World, asked: seq<Call>, clean: bool)
    requires Rescanned(w1.disk, hashed, exclude) && MoreHashes(local, hashed)
    requires Members(gone) == Vanished(w1.base, local, w1.stubs)
    requires Pairing(w1.base, w1.disk, Candidates(w1.base, local), Members(gone), moves)
    requires Afoot(JobOf(w1, used1, local, moves, exclude), w, used, exclude, granted, {}, {},
                   Pushable(w1, exclude) && Complete(w1.disk, local, exclude) && clean)
    requires HalfWay(w1, calls1, mid, asked, PlanOf(w1, local, moves, exclude), gone)
    requires Onward(PlanOf(w1, local, moves, exclude), w1.disk, exclude, Snap(mid.base, asked, mid.remote),
                    Snap(w.base, calls, w.remote), hashed.Keys)
    requires FilesInStep(w1, hashed) ==> OnlyFolderRows(mid.base, w.base, w1.disk)
    requires AllInStep(w1, hashed) ==> w == mid && calls == asked
    requires clean ==> granted == moves.Keys && ServedBut(moves.Values, w1, hashed, asked, calls)
    ensures Pushed(w1, used1, calls1, w, used, calls, exclude, local, moves, granted, clean)
  {
    hide Rescanned, MoreHashes, Pairing, Vanished, PushState, Linked, Relocated, SteadyAccount, Pushable, Complete,
         Agreed;
    hide Plan.Issued, AllAsked, RowsAccounted, Onward, FilesInStep, AllInStep, OnlyFolderRows, NothingToPush, PlanOf;
    hide Candidates;
    hide ServedBut;
    var plan := PlanOf(w1, local, moves, exclude);
    PlanIs(w1, local, hashed, moves, exclude);
    if clean {
      IssuedExtends(plan, calls1, asked, moves.Keys + plan.due);
      ServedFrom(moves.Values, w1, hashed, calls1, asked, calls);
      ServedHashed(moves.Values, w1, local, hashed, calls1, calls);
    }
    PushClaims(w1, local, hashed, moves, exclude, gone);
    UploadsFollow(plan, w1.disk, exclude, Snap(w1.base, calls1, w1.remote), Snap(mid.base, asked, mid.remote),
                  Snap(w.base, calls, w.remote), moves.Keys + plan.due, local.Keys, moves.Keys, plan.due);
    if FilesInStep(w1, local) && moves == map[] { OnlyFolderRowsTrans(w1.base, mid.base, w.base, w1.disk); }
    if Pushable(w1, exclude) && Complete(w1.disk, local, exclude) && clean { PushEnd(w1, w, exclude); }
  }

  /** The push went through, or the guard refused it and nothing was done. */
  ghost predicate PushEnded(w1: World, used1: set<Link>, calls1: seq<Call>, w: World, used: set<Link>, calls: seq<Call>,
                            exclude: seq<string>, local: Scan, moves: map<Path, Path>, granted: set<Path>,
                            clean: bool) {
    || Pushed(w1, used1, calls1, w, used, calls, exclude, local, moves, granted, clean)
    || (!clean && w == w1 && used == used1 && calls == calls1)
  }

  /** What the three claims say at the end of a push that saw every local entry. */
  lemma ClaimsAfterPush(w1: World, used1: set<Link>, calls1: seq<Call>, w: World, used: set<Link>, calls: seq<Call>,
                        exclude: seq<string>, cap: nat, local: Scan, moves: map<Path, Path>, granted: set<Path>,
                        clean: bool)
    requires PushEnded(w1, used1, calls1, w, used, calls, exclude, local, moves, granted, clean)
    requires Rescanned(w1.disk, local, exclude) && Complete(w1.disk, local, exclude) && SameLocal(w1, w)
    requires MovesToNew(w1.base, local, moves)
    ensures clean && Pushable(w1, exclude) ==> Agreed(w, exclude)
    ensures AtRest(w1, exclude, cap) || Quiet(w1, exclude) ==> w == w1 && calls == calls1
    ensures Mirrored(w1) && SteadyAccount(w1, used1, exclude) ==> Mirrored(w) && SteadyAccount(w, used, exclude)
  {
    hide Visible, AtRest, Quiet, Mirrored, SteadyAccount, NothingToPush, FilesInStep, OnlyFolderRows, RowsAccounted;
    hide Vanished, Rescanned, Complete, Linked, Relocated, Plan.Issued, AllAsked, Agreed, Pushable, MovesToNew;
    if Pushed(w1, used1, calls1, w, used, calls, exclude, local, moves, granted, clean) {
      AfterPush(w1, w, calls1, calls, used1, exclude, cap, local, moves);
    }
  }

  /** A push that the guard lets through asks the account to trash a row's node if and only if
  the row vanished and was not moved. */
  lemma TrashedIffVanished(w1: World, used1: set<Link>, calls1: seq<Call>, w: World, used: set<Link>, calls: seq<Call>,
                           exclude: seq<string>, local: Scan, moves: map<Path, Path>, granted: set<Path>, clean: bool,
                           p: Path)
    requires Pushed(w1, used1, calls1, w, used, calls, exclude, local, moves, granted, clean) && p in w1.base
    ensures |calls1| <= |calls|
    ensures CallTrash(p, w1.base[p].link) in calls[|calls1|..]
            <==> p in Vanished(w1.base, local, w1.stubs) && p !in moves
  {
    hide Linked, Relocated, SteadyAccount, Agreed, Pushable, Complete, RowsAccounted, NothingToPush, FilesInStep,
         OnlyFolderRows;
    hide Vanished;
    var plan, more := PlanOf(w1, local, moves, exclude), calls[|calls1|..];
    assert forall i | 0 <= i < |more| :: more[i] == calls[|calls1| + i] && plan.Foresees(calls[|calls1| + i]);
  }

  /** So a downloaded entry that is on disk is trashed in the account if and only if the scanner
  skips its name, a folder above it cannot be listed, or it could not be examined. A row that
  was matched with a new file is moved instead. */
  lemma TrashedThoughHere(w1: World, used1: set<Link>, calls1: seq<Call>, w: World, used: set<Link>, calls: seq<Call>,
                          exclude: seq<string>, local: Scan, moves: map<Path, Path>, granted: set<Path>, clean: bool,
                          unreadable: set<Path>, unexamined: set<Path>, p: Path)
    requires Pushed(w1, used1, calls1, w, used, calls, exclude, local, moves, granted, clean)
    requires ReportedBy(w1.disk, exclude, unreadable, unexamined, local.Keys)
    requires p in w1.base && w1.base[p].materialized && p in w1.disk && p !in moves
    ensures |calls1| <= |calls|
    ensures CallTrash(p, w1.base[p].link) in calls[|calls1|..]
            <==> !Visible(p, exclude) || Hidden(unreadable, p) || p in unexamined
  {
    hide Pushed, ReportedBy, Visible, Hidden, Vanished;
    TrashedIffVanished(w1, used1, calls1, w, used, calls, exclude, local, moves, granted, clean, p);
    LooksDeleted(w1, local, exclude, unreadable, unexamined, p);
  }

  /** A push never uploads anything but scanned files that differ from their rows and are not
  where a moved file went; and unless it was cut short or warned, it uploads all of these. */
  lemma UploadedIffChanged(w1: World, used1: set<Link>, calls1: seq<Call>, w: World, used: set<Link>, calls: seq<Call>,
                           exclude: seq<string>, local: Scan, moves: map<Path, Path>, granted: set<Path>, clean: bool,
                           p: Path)
    requires Pushed(w1, used1, calls1, w, used, calls, exclude, local, moves, granted, clean)
    ensures var due := p in local && !local[p].isDir && p !in moves.Values && !InStep(w1, p, false);
      && (Requested(p, false, calls1, calls) ==> due)
      && (clean && due ==> Requested(p, false, calls1, calls))
  {
    hide Linked, Relocated, SteadyAccount, Agreed, Pushable, Complete, RowsAccounted, NothingToPush, FilesInStep,
         OnlyFolderRows, AllAsked, InStep;
    hide Vanished;
    if Requested(p, false, calls1, calls) {
      var i :| |calls1| <= i < |calls| && Sends(calls[i], p, false);
      assert PlanOf(w1, local, moves, exclude).Foresees(calls[i]);
    }
  }
}
