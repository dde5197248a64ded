# pDrive: the sync engine and the listing gate

pDrive keeps a local folder and a Proton Drive account in step. It remembers the last agreed
state of every path in a baseline table. One pass of `SyncBoth` scans the folder, pulls (a walk
over the whole account, or a replay of the event stream with re-listing of the folders that
changed), scans again and pushes. A pull saves a conflict copy before it overwrites an edited
file and drops rows whose node is gone; a push matches moved files, trashes what vanished here
and uploads the rest, folders first.

This project models that engine and proves what it promises:

- **No bytes are lost.** Whatever fails, every scanned file's content is still at its path, at
  its conflict copy or in the local trash, or was the agreed content that a remote revision
  replaced: in every pass that walks, and in every replay before which no tracked node has moved
  in the account.
- **Another device's revision** is replaced or trashed by a pass exactly where it was not received
  and the file was changed here.
- **A push is accountable.** Every vanished row is moved or trashed, never both and never twice;
  every new file is the target of one move or uploaded, once; only what differs from its row is
  uploaded; a node that was moved does not go to the trash with its old folder; and nothing that
  is not due is trashed.
- **A pass synchronises.** After a pass without a warning the folder, the baseline and the
  account are one tree, and every file's path holds what the three-way specification asks for,
  except where a local version unlike the baseline lies at or below a tracked path that is gone
  remotely.
- **Replaying equals walking.** A walk reaches one target, defined path by path. A replay of a
  complete delta reaches the same target in every order of its re-listings if and only if nothing
  lies in a folder without a row, and in one given order if and only if that order leaves no node
  without a row.
- **Fixpoint, no echo, placeholders.** A state at rest, placeholders included, stays as it is; a
  folder nobody touched never makes pDrive send anything; and over any session of passes,
  refreshed folders, fetched files, changed caps and remote changes, files and placeholders stay
  in step with the baseline.
- **Guards.** The deletion cliff bounds what really disappears; the subtree pattern selects
  exactly the subtree; conflict names are unique and visible to the next scan.
- **The cursor** is anchored so that no concurrent remote change is skipped.
- **The gate** answers every listing once, in time, over every interleaving of its goroutines,
  and the daemon answers inside the gate's hold.

## How it is laid out

`World.dfy` holds the three trees and what one step of a pull does to them. The objects of the
source are classes: `Local.LocalFolder`, `State.StateDB` and `Remotes.Source` (every operation
may fail), and `Sync.Mirror`, whose methods follow `push.go`, `mirror.go` and `conflict.go`
step by step. `Mirror.View()` is the state as one value; each method says how it changes that
value, and the lemmas are about values. A step that fails gives a warning, so "nothing failed"
reads `warnings == old(warnings)`. Few of them count as a fault: a file put in place or a new
folder made that could not be recorded, a new folder that could not be made, a download that took
a placeholder away and could then not be put in place, and a scan before a push that left an
entry out. The claims about sessions hold for every run without a fault, whatever else fails.

Four lines of argument run over the same methods: `Survival` (bytes), `PullExact`,
`EventReplay`, `FolderRefresh`, `PushSteps`, `PushRun` and `Passes` (exactness), `RowLinks` (the
baseline stays a tree), and `Runs` with `Claims`, `Steadiness` and `Sessions` (what every run of
steps keeps). `Repeats` says why no path is taken up twice, `Aftermath` what a push asks for after
a pull that did not go through everywhere. `MoveDetection` is the pairing of moved files, `PushJob` puts the lines of argument
of a push together, and `Witnesses` holds the inputs at which a promise fails. `Reconciliation`
is the per-path specification; the engine never calls it. `GateSteps`, `GateServer`, `Listing`
and `ListingDaemon` are the gate and the daemon's side of it; `Cursor` is the walk with other
writers.

A remote account is a map from paths to nodes; SHA-1 is an injective hash with a separate
"unknown". Times are nanoseconds, a path is a string, and the sync root is the empty path.

## Where the code does not do what is promised

Each entry names an input that shows it, and the exact condition under which it does.

- `reconcile.go` lets a local edit beat a remote deletion and uploads a new local file; the engine
  moves either to the local trash if a tracked path at or above it is gone remotely
  (`mirror.go:660-684`). Inputs: `Witnesses.EditDoesNotBeatDeletion` and
  `Witnesses.NewFileGoesWithItsFolder`. Condition: `Passes.EngineRefinesSpecification`.
- `README.md:270` says that a conflict never discards either version. If the remote version was
  not received, because its download failed, or because it is over the size cap and then nothing
  fails, the push uploads a local edit over it, or trashes it for a local deletion. Inputs:
  `Witnesses.RevisionIsOverwritten` and `Witnesses.RevisionIsTrashed`. Condition:
  `Aftermath.RevisionLostIffUnfetched`.
- `conflict.go:15-25` says of the renamed local version that nothing is ever discarded. The rename
  does not look whether the name is taken (`conflict.go:62`), and a replay may take up one path
  twice: then the second rename replaces the first copy, and the edit is nowhere. Input:
  `Witnesses.EditIsOverwritten`. Condition, for a rename: `Survival.AsideKeepsAllIff`. A pass that
  walks, or before which no tracked node has moved, takes up no path twice
  (`Sync.Mirror.SyncBoth`, `Repeats.ApartApplied`).
- `mirror.go:359-363` says that a folder never seen is picked up where its parent is re-listed.
  Folders come in map order (`mirror.go:330`); one that comes before its parent is passed over, and
  what it holds is not fetched, though nothing warns and the cursor moves on. Input:
  `Witnesses.ChildFirstStaysAway`. Condition: `EventReplay.EveryOrderReaches` for every order, and
  `EventReplay.ReplayFinished` for a given one.
- `scan.go:84-93` says that an unreadable folder must not make what is below look deleted. The
  walk does not go into the folder, so it does, and the push has the account trash it. Input:
  `Witnesses.UnreadableFolderIsTrashed`. Condition: `PushRun.LooksDeleted` and
  `PushJob.TrashedThoughHere`, which also covers rows whose names the scanner skips.
- A download removes the placeholder before it is put in place (`mirror.go:497-502`). If that
  last step fails, the file looks deleted here, and the same pass has the account trash it,
  though nobody touched it. Input: `Witnesses.LostPlaceholderIsTrashed`. Condition:
  `Claims.FailedCommit`.
- `push.go:294-295` speaks of matching moves by inode first and content second. Per pair that is
  so, but candidates come in map order, so a content match may be found before an inode match.
  Input: `MoveDetection.ContentMayComeFirst`. Condition: `MoveDetection.SureIffUnrivalled`, and
  `MoveDetection.SureInPassIffUnrivalled` for rows that come longest path first.
- Moves are carried out before deletions (`push.go:110-122`), which keeps a moved node out of the
  trash that its old folder goes to. It goes there all the same if a second vanished row carries
  its link, as after a move whose old row could not be forgotten.
  Input: `Witnesses.TwinRowTakesMovedNode`. Condition: `RowLinks.MovedNodeStays`.
- `state.go:294-301` promises "everything beneath"; LIKE ignores ASCII case, so a row below a
  folder of the same name in other letters goes too. Input: `SubtreePattern.CaseVariantIsSelected`.
  Condition: `SubtreePattern.SubtreeExactIffNoCaseVariants`.
- A full walk that returns an error may have moved the cursor all the same: the time of the walk
  is noted after it (`mirror.go:253-258`). Input: `Cursor.ErrorMovesCursor`. Condition:
  `Cursor.Walker.FullMirror`, by the write that failed and the cursor as it was; the cursor is
  well anchored then as well.

## Model

| member | source | states |
|---|---|---|
| SubtreePattern.EscapeLike | internal/state/state.go:400-409 | the buffer loop yields the string with every wildcard and backslash escaped, which is what EscapedPrefix matches literally |
| SubtreePattern.EscapedPrefix | internal/state/state.go:295-301 | by induction over LIKE: an escaped literal followed by a pattern matches exactly the strings that start with the literal, up to ASCII case, and whose rest matches the pattern |
| SubtreePattern.SubtreePatternExact | internal/state/state.go:295-301 | `escapeLike(dir) + "/%"` matches a path if and only if it starts with `dir` and a slash, up to ASCII case |
| SubtreePattern.SubtreeExactIffNoCaseVariants | internal/state/state.go:294-301 | subtree deletes select exactly each folder and what is below it if and only if no path lies below one of the folders in other letters only |
| SubtreePattern.CaseVariantIsSelected | internal/state/state.go:296-297 | a concrete pair that shows the delete reaching outside the subtree |
| SubtreePattern.SelectionClosed | internal/state/state.go:294-301 | whatever the case, a selected folder takes all that it holds with it |
| Names.ConflictNameSibling | internal/mirror/reconcile.go:232-249 | a conflict copy lies in the folder of its original and never over it |
| Names.ConflictNameInjective | internal/mirror/reconcile.go:232-249 | two copies share a name only if path and time are the same |
| Names.ConflictNameValid | internal/mirror/mirror.go:693-707 | the copy of a valid path is a valid path |
| Names.ConflictCopyVisible | internal/mirror/scan.go:30-163 | the next scan sees the copy of a visible file if and only if no exclusion names the copy itself |
| Guards.CliffExact | internal/mirror/guards.go:80-114 | from ten deletions on and below 100 percent, the rounded-down check passes exactly when deletions * 100 < limit * tracked, the clamp included |
| Deletions.ReapingStaysUnderLimit | internal/mirror/mirror.go:621-645 | what a reaping takes off the walked rows was not seen by the walk, and from ten due rows on and below 100 percent its number stays under the limit |
| Deletions.TrashedWasDue | internal/mirror/push.go:272-292 | what a push takes off the baseline without moving it had no local counterpart |
| Deletions.TrashingStaysUnderLimit | internal/mirror/push.go:97-122 | and from ten due rows on and below 100 percent its number stays under the limit |
| Reconciliation.Settled | internal/mirror/reconcile.go:151-225 | carrying out the decided action brings the three sides together, never drops an edit, keeps both versions of a conflict, and trashes only what one side deleted and the other left alone |
| State.StateDB.PutNode | internal/state/state.go:222-250 | inserts or replaces one row, or fails and changes nothing |
| State.StateDB.GetNodeByID | internal/state/state.go:270-284 | finds a row with the link exactly when there is one |
| State.StateDB.DeleteSubtree | internal/state/state.go:294-301 | forgets the folder and every row that the pattern selects, or fails and changes nothing |
| Local.LocalFolder.StageDownload | internal/mirror/local.go:44-83 | before anything is decided at most the folders above the destination were created |
| Local.LocalFolder.RenameAside | internal/mirror/conflict.go:60-67 | the file is at the copy's name and no longer at its own, or nothing has changed |
| Local.LocalFolder.CommitStaged | internal/mirror/local.go:87-97 | the content is in place in one step or not at all; a folder is never replaced |
| Local.LocalFolder.WriteStub | internal/mirror/local.go:99-126 | the placeholder is there, or at most folders were created |
| Local.LocalFolder.TrashLocal | internal/mirror/local.go:141-162 | on success all at and below the path is in the trash; on any failure whatever left the folder is in the trash |
| Local.LocalFolder.RemoveEmptyParents | internal/mirror/local.go:228-240 | only folders above the path go, and only those that hold nothing; unless one could not be removed, no empty folder is left above |
| Local.LocalFolder.Scan | internal/mirror/scan.go:79-149 | exactly the visible entries are reported, truly described, except what lies below a folder that cannot be listed and entries that cannot be examined; each of those gives one warning |
| Remotes.Source.Upload | internal/mirror/source.go:40-41 | a new revision keeps the node's link, a new file gets a link never used before, a refusal changes nothing |
| Remotes.Source.Mkdir | internal/mirror/source.go:42-43 | a new folder gets a fresh link; a name that is taken by a folder is refused or answered with that folder |
| Remotes.Source.Trash | internal/mirror/source.go:44-45 | the node with this link is gone together with all below it |
| Remotes.Source.Move | internal/mirror/source.go:46-47 | the file is at the new place with link and content kept |
| Survival.ApplyKeepsFiles | internal/mirror/mirror.go:416-518 | applying any node, with any of its steps failing, keeps the bytes of every scanned file |
| Survival.RemovalKeepsFiles | internal/mirror/mirror.go:660-684 | removing a tracked node, finished or not, keeps them too |
| Survival.AsideKeepsAllIff | internal/mirror/conflict.go:60-67 | a rename aside keeps the bytes of every file if and only if no other bytes stand under the name of the copy |
| Witnesses.EditIsOverwritten | internal/mirror/conflict.go:26-67 | a renamed folder, a new one of its name, a file edited here: the replay takes up one path twice, and the edit is neither on disk nor in the trash |
| Repeats.ApartChild | internal/mirror/mirror.go:353-387 | while no tracked node has moved in the account, the listing of a known folder reports every child under its own path |
| Repeats.ApartApplied | internal/mirror/mirror.go:416-518 | taking up a node under its own path and for the first time keeps that so, with no path taken up twice, whatever becomes of the node |
| PullExact.ApplyExact | internal/mirror/mirror.go:416-518 | one more node applied without failure takes every path one step towards the target that the starting trees dictate |
| PullExact.ReapStep | internal/mirror/mirror.go:637-644 | longest path first, dropping a row takes exactly this row and the files at and below it |
| PullExact.PullDone | internal/mirror/mirror.go:199-261 | walking every node and dropping every unseen row reaches the target at every path |
| EventReplay.RelistPassesOver | internal/mirror/mirror.go:353-365 | after a folder without a row was passed over, what has been applied is still exactly what this order of re-listings reaches |
| EventReplay.RelistEnds | internal/mirror/mirror.go:367-412 | after a known folder was re-listed, that is so again, and no row was stale |
| EventReplay.NothingStale | internal/mirror/mirror.go:391-411 | in an exact replay a re-listing finds no stale row |
| EventReplay.AllDropped | internal/mirror/mirror.go:324-328 | the deletions of a complete delta drop exactly the rows without a node |
| EventReplay.ReplayFinished | internal/mirror/mirror.go:265-346 | deletions and re-listings of a complete delta reach the target of a full walk if and only if their order leaves no node without a row; where nothing lies in a folder without a row every order does |
| EventReplay.EveryOrderReaches | internal/mirror/mirror.go:330-337 | every order of the announced folders leaves no node without a row, if and only if every node lies in the root or in a folder with a row |
| EventReplay.TopDownReaches | internal/mirror/mirror.go:359-363 | re-listing each folder after the one it lies in leaves no node without a row, whatever has a row |
| Witnesses.ChildFirstStaysAway | internal/mirror/mirror.go:330-365 | a new folder with a file, both announced: in one order both get their rows, in the other the file gets neither a row nor a place on disk |
| EventReplay.PulledIsUnique | internal/mirror/mirror.go:195-413 | two finished pulls of one state leave the same file contents and the same rows, so replaying equals walking |
| Sync.Mirror.PreserveLocalIfConflicting | internal/mirror/conflict.go:26-78 | the file is renamed aside exactly when it differs from the baseline and from what arrives; if it cannot be secured the overwrite is refused |
| Sync.Mirror.WriteStubFor | internal/mirror/mirror.go:541-566 | a file over the cap gets a placeholder unless the real file is there |
| Sync.Mirror.FetchFile | internal/mirror/mirror.go:469-518 | download, staging, preservation and commit end in one of the allowed outcomes, with exactly that outcome's effect |
| Sync.Mirror.ApplyNode | internal/mirror/mirror.go:416-518 | the same for every node; what lands is content that the account holds under the node's link |
| Sync.Mirror.DeleteNode | internal/mirror/mirror.go:660-684 | on success the node is trashed, forgotten and emptied parents are pruned; on failure the row stays and nothing is lost |
| Sync.Mirror.ReapUnseen | internal/mirror/mirror.go:621-645 | refuses exactly when the cliff guard does, and then changes nothing; otherwise only unseen rows and what they select are lost |
| Sync.Mirror.WalkAll | internal/mirror/mirror.go:220-245 | a finished walk has seen exactly the nodes with a safe name, and applied each once; it only adds rows; whatever fails, bytes survive and the steps are those of a run |
| Sync.Mirror.FullMirror | internal/mirror/mirror.go:199-261 | bytes survive; without a warning the target is reached; rows that are lost were unseen and stay under the limit; the cursor moves to the position read before the walk, once walk and reaping came to their end |
| Sync.Mirror.CollectChanges | internal/mirror/mirror.go:280-318 | without a warning every announced folder is among those to re-list; the deletions counted are those of tracked nodes |
| Sync.Mirror.ApplyDeletions | internal/mirror/mirror.go:324-328 | rows are dropped by link, unknown links are passed over |
| Sync.Mirror.ApplyChildren | internal/mirror/mirror.go:367-389 | every child of the listing with a safe path is applied once and remembered as seen |
| Sync.Mirror.DropUnlisted | internal/mirror/mirror.go:391-412 | refuses exactly when the cliff guard does, and then changes nothing; otherwise exactly the unreported rows of this folder go, with what is below them |
| Sync.Mirror.RelistDir | internal/mirror/mirror.go:352-413 | an unknown folder is passed over, otherwise exactly its children are applied, so that what is applied is what the order of the re-listings reaches; no path is taken up twice unless a tracked node has moved |
| Sync.Mirror.ApplyEvents | internal/mirror/mirror.go:265-346 | bytes survive; a complete delta replayed without a warning reaches the walk's target if and only if the order of this run left no node without a row, as every order does where nothing lies in a folder without a row; each folder is re-listed once; the cliff guard's refusal changes nothing; the cursor moves on success only |
| Sync.Mirror.HashIfNeeded | internal/mirror/scan.go:167-183 | the baseline's hash is taken over exactly when size and second agree; otherwise the file is read |
| Sync.Mirror.ScanHashed | internal/mirror/push.go:30-45 | the scan before a pull is truly described and, without a warning, complete and hashed |
| Sync.Mirror.Pull | internal/mirror/push.go:66-82 | walk or replay as the cursor and the stream decide; without a warning the target is reached by a walk in ordinary circumstances, and by a replay of a complete delta if nothing lies in a folder without a row, or if its order reached every node all the same; a walk takes up no path twice |
| Sync.Mirror.RefreshDir | internal/mirror/mirror.go:737-775 | without a warning the folder is up to date: what the account has in it is here with its rows, edited versions are kept beside, and what it no longer has is in the trash; bytes survive and the three claims hold whatever fails |
| FolderRefresh.RefreshEnds | internal/mirror/mirror.go:726-775 | applying a folder's children and sweeping its stale rows leaves every entry of the folder as the account has it |
| Sync.Mirror.Materialize | internal/mirror/mirror.go:569-618 | a placeholder is replaced by genuine content with its hash recorded; anything else is refused |
| Sync.Mirror.FindLocalDeletions | internal/mirror/push.go:272-292 | exactly the rows without a local counterpart, longest path first |
| PushRun.LooksDeleted | internal/mirror/push.go:272-292 | a downloaded entry that is on disk looks deleted if and only if its name is skipped, a folder above it cannot be listed, or it cannot be examined |
| Sync.Mirror.DetectMoves | internal/mirror/push.go:299-346 | the pairing is that of the rows in turn with the first free candidate that matches; its range is moveTargets; nothing that matches is left apart; a row that nothing rivals for the new file with its inode gets it |
| MoveDetection.PairUpPairs | internal/mirror/push.go:316-346 | the pairing is one to one, and each pair agrees on inode or on size and hash |
| MoveDetection.PairUpMissesNothing | internal/mirror/push.go:316-346 | no vanished file is left apart from a free candidate that matches it |
| MoveDetection.SureIffUnrivalled | internal/mirror/push.go:294-346 | in every order of rows and candidates the row gets the new file with its inode, if and only if no other vanished file matches that file and no other new file matches the row |
| MoveDetection.SureInPassIffUnrivalled | internal/mirror/push.go:290-346 | the same for rows longest path first, where only rows that are no shorter count as rivals, if no longer one competes for the row's other matches |
| MoveDetection.ContentMayComeFirst | internal/mirror/push.go:294-295 | an input at which a content match is taken although a candidate has the inode |
| Sync.Mirror.RemoteParentID | internal/mirror/push.go:244-269 | the recursion ends and yields the link of the parent's row, a folder |
| Sync.Mirror.CreateRemoteDir | internal/mirror/push.go:219-240 | the folder and those above it have rows afterwards, and no other row has changed |
| Sync.Mirror.PushNode | internal/mirror/push.go:156-216 | a tracked entry that is as its row says causes no request; any other is asked for and in sync afterwards; folders above apart, at most one request, for this path |
| Sync.Mirror.ApplyMove | internal/mirror/push.go:349-382 | a move that goes through leaves its target in sync and the vanished row dealt with; rows stay linked and a granted node is at its target whatever fails; one request for the row at most |
| Sync.Mirror.MoveAndRecord | internal/mirror/push.go:359-381 | the node is relocated, then the old row goes, then the new one has the scan's columns, and the old hash where none was read; how far it got is the outcome |
| Sync.Mirror.UploadAndRecord | internal/mirror/push.go:189-215 | one upload under the parent's link, then a row that describes exactly the file that was sent |
| Sync.Mirror.MkdirAndRecord | internal/mirror/push.go:229-239 | one folder under the parent's link, then its row |
| Sync.Mirror.TrashRemote | internal/mirror/push.go:385-400 | exactly one request for the row; rows are forgotten only once the node, with all below it, is in the account's trash |
| Sync.Mirror.MoveAndTrash | internal/mirror/push.go:110-122 | each moved row is asked for at most once and each due row exactly once; a row that is gone moved or was due; a granted node stays at its new place while rows are trashed, whatever fails |
| Sync.Mirror.UploadAll | internal/mirror/push.go:124-152 | without a warning every local entry that is not a move target ends in sync, and every one that was not as its row says was asked for; each file is asked for once at most, and nothing else but folders; no node is lost |
| Sync.Mirror.Push | internal/mirror/push.go:85-153 | refused by the guard nothing is done; otherwise: without a warning all three trees agree; the baseline stays linked and moved nodes stay whatever fails; every due row is trashed once, every moved row moved once at most, every other file uploaded once at most, and only if it differs from its row; without a warning all that differs is asked for; rows lost stay under the limit; with nothing to push nothing is asked |
| PushRun.TrashCallsIssued | internal/mirror/push.go:115-122 | the requests of the deletions name each vanished row that did not move exactly once |
| PushJob.TrashedIffVanished | internal/mirror/push.go:97-122 | a push that the guard lets through asks for a row's node to be trashed if and only if the row vanished and was not moved |
| PushJob.TrashedThoughHere | internal/mirror/scan.go:83-93 | so an entry that is on disk is trashed if and only if its name is skipped, a folder above it cannot be listed, or it cannot be examined |
| Witnesses.UnreadableFolderIsTrashed | internal/mirror/scan.go:84-93 | an agreed state in which an unlisted folder has its file trashed |
| PushJob.UploadedIffChanged | internal/mirror/push.go:139-182 | a push uploads nothing but scanned files that differ from their rows and are not where a moved file went; unless it warns or is cut short it uploads all of these |
| RowLinks.MovedNodeStays | internal/mirror/push.go:97-98 | trashing a vanished row takes a node at a live path along if and only if the row carries its link |
| RowLinks.RelocatedThroughTrash | internal/mirror/push.go:110-122 | so every node whose move was granted stays, unless another vanished row carries its link |
| Witnesses.TwinRowTakesMovedNode | internal/mirror/push.go:110-122 | two rows with one link, and the moved node is trashed |
| Sync.Mirror.SyncBoth | internal/mirror/push.go:14-63 | the whole pass: no bytes lost if it walks or no tracked node has moved; synchronised without a warning, a replay under the condition of Sync.Mirror.Pull; fixpoint, no echo, placeholders in step together with all they need for the next pass |
| Paths.DepthOfParent | internal/mirror/push.go:126-136 | counting separators puts every folder before what it holds |
| PushRun.MoveStep | internal/mirror/push.go:349-382 | a finished move leaves its target in sync and one vanished row less |
| PushRun.TrashStep | internal/mirror/push.go:385-400 | trashing the longest vanished row takes exactly that row along |
| PushRun.UploadStep | internal/mirror/push.go:184-216 | a finished upload leaves its path in sync and nothing else changed |
| PushRun.MkdirAgain | internal/mirror/push.go:218-240 | asking again for a folder that exists changes nothing |
| PushRun.PushEnd | internal/mirror/push.go:85-153 | when no vanished row and no local entry is left to deal with, the three trees agree |
| RowLinks.MkdirLinked | internal/mirror/push.go:218-240 | creating a folder, recorded or not, keeps every row's parent row present, a folder, and carrying the stored parent id |
| RowLinks.UploadLinked | internal/mirror/push.go:184-216 | so does an upload, recorded or not |
| RowLinks.MoveLinked | internal/mirror/push.go:349-382 | so does a move, forgotten and recorded or not |
| RowLinks.TrashLinked | internal/mirror/push.go:384-400 | so does a removal, forgotten or not, in whatever letter case |
| Passes.PulledIsPushable | internal/mirror/push.go:47-61 | what a finished pull leaves, conflict copies included, is what an exact push can start from |
| Passes.EngineRefinesSpecification | internal/mirror/reconcile.go:136-225 | at every file's path an exact pass leaves locally what the specification asks for, if and only if no local version unlike the baseline lies at or below a tracked path that is gone remotely; such a version is gone everywhere and in the local trash |
| Witnesses.EditDoesNotBeatDeletion | internal/mirror/mirror.go:660-684 | calm circumstances in which the specification uploads an edited file and the engine trashes it |
| Witnesses.NewFileGoesWithItsFolder | internal/mirror/mirror.go:660-684 | calm circumstances in which the specification uploads a new file and the engine trashes it with its folder |
| Passes.ConflictComplete | internal/mirror/conflict.go:10-78 | if the three contents are pairwise different, the remote one ends at the path and the local one at the copy on all three sides, and one conflict is recorded |
| Claims.RestIsFixed | internal/mirror/mirror.go:441-454 | from a state at rest, in which placeholders stand for the files over the cap, every step of a pull leads back to it |
| Claims.AgreedIsAtRest | internal/mirror/mirror.go:541-566 | agreement is rest without placeholders, whatever the cap |
| Claims.QuietIsUpheld | internal/mirror/mirror.go:416-518 | in a folder nobody touched every step of a pull keeps rows and files in step, failed downloads included |
| Claims.FailedCommit | internal/mirror/mirror.go:497-502 | a download that cannot be put in place leaves a quiet folder quiet if and only if no placeholder stood there; otherwise exactly this file looks deleted to the next push |
| Claims.FaultIffDisturbed | internal/mirror/mirror.go:416-518 | applying a node leaves a quiet folder quiet if and only if the step is no fault: nothing less counts as one, and nothing more; the new folder that could not be made disturbs it later, in Aftermath.OrphanDisturbs |
| Aftermath.OrphanDisturbs | internal/mirror/mirror.go:353-389 | taking up a node whose folder has no row leaves a quiet folder quiet if and only if nothing is done on disk; otherwise its folder stands there without a row |
| Aftermath.OrphanIsAskedFor | internal/mirror/push.go:156-165 | and the push that follows asks for that folder, or for nothing at all |
| Witnesses.MissedFolderIsSent | internal/mirror/mirror.go:419-429 | a new folder cannot be made, its file then arrives, and the push asks for the folder though nobody touched anything |
| Aftermath.AtRiskIffUnfetched | internal/mirror/mirror.go:416-566 | over every run of a pull that takes up the node once at most: another device's revision is at risk if and only if the file was changed here into something else and the revision was neither downloaded nor left as a placeholder |
| Aftermath.RevisionLostIffUnfetched | internal/mirror/push.go:14-182 | so a pass replaces the revision by other content, or trashes it, exactly then |
| Witnesses.RevisionIsOverwritten | internal/mirror/mirror.go:431-438 | a revision whose download fails, or that is over the cap, and the edit is uploaded over it |
| Witnesses.RevisionIsTrashed | internal/mirror/mirror.go:469-472 | a revision whose download fails, of a file deleted here, and the account is asked to trash it |
| Witnesses.LostPlaceholderIsTrashed | internal/mirror/mirror.go:497-502 | a placeholder, a lifted cap and a failed rename, and the account is asked to trash the file |
| Claims.QuietThroughRemoteEdits | internal/mirror/push.go:156-182 | remote creations and edits leave such a folder with nothing to send |
| Claims.MirroringIsUpheld | internal/mirror/mirror.go:541-566 | every step, failed downloads included, keeps each tracked file either downloaded with the baseline's hash and no placeholder, or a placeholder only, and keeps what this needs of the account |
| Claims.MirroredThroughPush | internal/mirror/push.go:272-292 | a push keeps that too: only folders that became empty fall |
| Steadiness.SteadyMkdir | internal/mirror/push.go:218-240 | creating a folder keeps what placeholders need of the account: links that are stable and fresh, kinds, names |
| Steadiness.SteadyUpload | internal/mirror/push.go:184-216 | so does an upload, recorded or not |
| Steadiness.SteadyTrash | internal/mirror/push.go:384-400 | so does a removal |
| Steadiness.SteadyThroughOthers | internal/mirror/source.go:17-48 | so do creations, edits and deletions by other devices |
| Claims.PlacedIsMirrored | internal/mirror/mirror.go:568-618 | so does fetching a placeholder's file |
| Steadiness.SteadyPlaced | internal/mirror/mirror.go:568-618 | and what the placeholders need of the account is kept |
| Sessions.NeverEchoes | internal/mirror/push.go:14-63 | over any number of passes with remote creations and edits in between and no fault in any of them, downloads failing at will short of a lost placeholder, no request ever changes the account |
| Sessions.StaysMirrored | internal/mirror/mirror.go:541-618 | under any order of passes, refreshed folders, fetched files, changed caps and remote creations, edits and deletions, every tracked file is downloaded with the baseline's hash or a placeholder, never both |
| Cursor.WriteKeeps | internal/mirror/mirror.go:202-208 | a concurrent write, deletion, move or renaming leaves every path touched since the cursor, seen as it is, or still to come |
| Cursor.ListKeeps | internal/mirror/mirror.go:220-245 | so does listing a folder |
| Cursor.StrayKeeps | internal/mirror/mirror.go:220-245 | and so does listing, by its link, a folder that was moved or dropped meanwhile |
| Cursor.Walker.FullMirror | internal/mirror/mirror.go:199-261 | with writers before every listing, whatever the walk did not see as it is now has an event behind the cursor that is stored; an error leaves the cursor unchanged if and only if the note of the time is not what failed or the cursor was at that position already; a walk left alone is not cut short |
| Cursor.ErrorMovesCursor | internal/mirror/mirror.go:253-258 | an empty account and a note that fails: an error, and the cursor has moved |
| GateSteps.StepValid | internal/gate/server.go:134-188 | every step of a connection, an event or the clock keeps the gate valid |
| GateSteps.GateIsSafe | internal/gate/server.go:253-299 | over every interleaving: one answer per event and it allows, no channel closed twice, one receive loop, ids never shared, no hold over 3 s, the daemon's own opens never held |
| GateSteps.NeverStuck | internal/gate/server.go:255-299 | an event's next step always brings it nearer its answer, unless it waits for the clock within its hold |
| GateServer.Server.Register | internal/gate/server.go:134-156 | a second daemon is refused, the hold is clamped, and the step is the step system's |
| GateServer.Server.LoadAck | internal/gate/server.go:178-180 | a late or duplicate acknowledgement finds nothing |
| GateServer.Server.CloseDone | internal/gate/server.go:179-180 | closing never hits a closed channel |
| GateServer.Server.Unregister | internal/gate/server.go:162-170 | room is made for the next daemon |
| GateServer.Server.Decide | internal/gate/server.go:255-279 | who is asked, and for how long, is decided under the lock |
| GateServer.Server.Store | internal/gate/server.go:281-284 | the channel is known under an id of its own |
| GateServer.Server.Release | internal/gate/server.go:290-298 | an event is let go by its channel or by its timer |
| GateServer.Server.Allow | internal/gate/server.go:256-257 | the deferred answer is given exactly once |
| Listing.StepValid | internal/daemon/gate.go:128-173 | every step keeps one refresh at most and every listing inside its budget |
| Listing.NeverStuck | internal/daemon/gate.go:143-173 | a listing that holds back the clock can always take its next step towards its acknowledgement; a joined one's leader is there |
| Listing.ClockMovesOn | internal/daemon/gate.go:143-173 | from every reachable state the listings' own steps, taking no time, let the clock move on |
| Listing.ListingsAnsweredInTime | internal/daemon/gate.go:143-173 | over every interleaving one refresh runs at most, and leaders and joined listings alike are answered within nine tenths of the configured hold, strictly inside it |
| Listing.BudgetInsideHoldIff | internal/gate/server.go:146-153 | the gate cuts a hold that it finds too long: the daemon's budget lies inside what is left if and only if the configured value is at most 3333 |
| Listing.AnsweredInsideTheHold | internal/config/config.go:158-162 | whatever was configured, every listing is answered within nine tenths of the time that the gate holds it for this daemon |
| ListingDaemon.Refresher.Enter | internal/daemon/gate.go:145-173 | joins the running refresh or starts one with its budget |
| ListingDaemon.Refresher.Clear | internal/daemon/gate.go:159-162 | the refresh that ends is the one that runs, and it makes room |
| ListingDaemon.Refresher.CloseDone | internal/daemon/gate.go:163-164 | the joined listings are let go; the channel was not closed before |
| ListingDaemon.Refresher.Ack | internal/daemon/gate.go:111-114 | the acknowledgement goes out within the budget |

## Left out

- Sync.Mirror.SyncBoth: the exact outcome is stated for passes without a warning in calm circumstances (`Passes.Calm`): true digests, no size cap, names that a scan sees, no path that is a file in one tree and a folder in another, stable links, size and time that do not lie, inodes found only on their own content, no two paths that differ in letter case. Survival of bytes, the three claims and the linked baseline need less and hold under failures.
- Sync.Mirror.SyncBoth: the host name holds no slash, NUL or opening bracket, all copies of one pass carry one time stamp, and the user does not write to the folder while a pass runs.
- Passes.EngineRefinesSpecification: speaks of files; which emptied folders keep a row, and are then trashed in the account by the push, depends on whether the pull could remove them and is not stated. For folders the specification's actions are not compared; a full walk re-creates a folder that was deleted here.
- Sync.Mirror.RefreshDir: that a folder's own subfolders exist on disk afterwards follows from Sync.Mirror.ApplyNode; the statement about the folder as a whole speaks of rows and files.
- Claims.QuietIsUpheld: takes remote files to report their digests; an account without digests re-downloads files.
- Claims.MirroringIsUpheld: remotely a path does not change between file and folder.
- Sessions.StaysMirrored: other devices use names that a scan sees, none a case variant of another, tell digests, and give new nodes new links (`Steadiness.Peaceful`).
- Sessions.NeverEchoes: runs with a fault are not claimed; `Claims.FaultIffDisturbed`, `Claims.FailedCommit`, `Aftermath.OrphanDisturbs` and `PushJob.TrashedThoughHere` say which steps and scans those are.
- Aftermath.RevisionLostIffUnfetched: the push sees every local entry and does not warn, the file is not the source of a move, and no step of the pull stops half-way, takes the file's name for a copy or a folder, or drops a row around it.
- Sync.Mirror.SyncBoth: that no bytes are lost also needs names that no conflict copy of the pass can take, and size and time that do not lie; a replay after a tracked node has moved is covered only if it took up no path twice.
- MoveDetection.SureInPassIffUnrivalled: where rows with longer paths compete for the row's other matches, only the sufficient half is stated.
- Sync.Mirror.FullMirror: the account is quiet here; concurrent writers are in Cursor.Walker.FullMirror, which leaves out what the walk does to the folder.
- Sync.Mirror.FindLocalDeletions: rows with paths of equal length come in any order; likewise Sync.Mirror.UploadAll for entries of one depth, which the source sorts by name.
- Sync.Mirror.Materialize: is asked for a path other than the root.
- Local.LocalFolder.MkdirAll: creates all folders or none.
- Local.LocalFolder.TrashLocal: the trash keeps every entry. In the source its folders are stamped to the second, so a rename within one second may replace an earlier entry of the same path. A placeholder goes together with its path.
- Local.LocalFolder.RemoveStub: always succeeds.
- Local.LocalFolder.Scan: symbolic links and special files are not entries of the folder; a folder that cannot be examined hides itself only.
- Remotes.Source.Mkdir: the service's answer to a name that is taken is a choice between refusal and the existing folder.
- GateSteps.GateIsSafe: a listing counts as held once the question is sent; a socket write that blocks is not modelled.
- Listing.ListingsAnsweredInTime: claims release and single flight, not that a joined listing saw its own folder refreshed; the refresh itself honours its context.
- Sync.Mirror.Push: a request carries the local path it is made for; that the account resolves the parent's link to this path is proved where rows are linked (RowLinks, Steadiness), not for arbitrary rows.
- The missing-root guard: a pass may be refused at any time, but when it is refused is not stated.
- Reading rows never fails, and the check whether a local file is up to date can always read it.
- Meta values other than the cursor, progress events, and result counters other than warnings and conflicts.
- `Sync`, the pass that only pulls: it is `Sync.Mirror.Pull` without a scan before it.
- What a replay makes of a remote folder that was moved or renamed, for which the code makes no promise, beyond the survival of bytes.
- The Proton API, encryption, rate limiting, the watcher, the TUI and the command line.
- SQLite, fanotify and system calls as such: they are maps and atomic steps here.
