/** The three-way decision for one path (internal/mirror/reconcile.go).

The engine never calls it; here it is the specification the engine is measured
against. */
module Reconciliation {
  import opened Types

  datatype Action =
    | ActNothing | ActDownload | ActUpload | ActAdopt | ActTrashLocal | ActTrashRemote
    | ActConflict | ActMkdirLocal | ActMkdirRemote | ActDropBaseline

  datatype Facts = Facts(
    baseExists: bool, baseHash: Hash, baseIsDir: bool,
    localExists: bool, localHash: Hash, localIsDir: bool,
    remoteExists: bool, remoteHash: Hash, remoteIsDir: bool)
  {
    predicate ChangedLocally() {
      if !baseExists then localExists
      else if !localExists then true
      else if localIsDir || baseIsDir then localIsDir != baseIsDir
      else if localHash.Unknown? || baseHash.Unknown? then false
      else localHash != baseHash
    }

    predicate ChangedRemotely() {
      if !baseExists then remoteExists
      else if !remoteExists then true
      else if remoteIsDir || baseIsDir then remoteIsDir != baseIsDir
      else if remoteHash.Unknown? || baseHash.Unknown? then false
      else remoteHash != baseHash
    }

    predicate SameContent() {
      if localIsDir != remoteIsDir then false
      else if localIsDir then true
      else if localHash.Unknown? || remoteHash.Unknown? then false
      else localHash == remoteHash
    }
  }

  function Reconcile(f: Facts): Action {
    if !f.localExists && !f.remoteExists then
      if f.baseExists then ActDropBaseline else ActNothing
    else if f.localExists && !f.remoteExists then
      if f.localIsDir then
        if f.baseExists then ActTrashLocal else ActMkdirRemote
      else if !f.baseExists then ActUpload
      else if f.ChangedLocally() then ActUpload
      else ActTrashLocal
    else if !f.localExists && f.remoteExists then
      if f.remoteIsDir then
        if f.baseExists then ActTrashRemote else ActMkdirLocal
      else if !f.baseExists then ActDownload
      else if f.ChangedRemotely() then ActDownload
      else ActTrashRemote
    else if f.localIsDir && f.remoteIsDir then ActNothing
    else if f.localIsDir != f.remoteIsDir then ActConflict
    else
      match (f.ChangedLocally(), f.ChangedRemotely())
      case (false, false) =>
        if f.baseExists then ActNothing else if f.SameContent() then ActAdopt else ActConflict
      case (true, false) => ActUpload
      case (false, true) => ActDownload
      case (true, true) => if f.SameContent() then ActAdopt else ActConflict
  }

  /** What the three sides hold at one path, when it is a file wherever it exists.
  `copy` is the preserved local version beside it; `bin` is what went to the trash. */
  datatype Cell = Cell(base: Option<Content>, local: Option<Content>, remote: Option<Content>,
                       copy: Option<Content>, bin: Option<Content>)

  function HashOf(c: Option<Content>): Hash {
    if c.Some? then Sum(c.value) else Unknown
  }

  function FactsOf(c: Cell): Facts {
    Facts(c.base.Some?, HashOf(c.base), false, c.local.Some?, HashOf(c.local), false,
          c.remote.Some?, HashOf(c.remote), false)
  }

  /** Carrying an action out. The folder actions do not arise for files. */
  function Execute(a: Action, c: Cell): Cell {
    match a
    case ActDownload => c.(base := c.remote, local := c.remote)
    case ActUpload => c.(base := c.local, remote := c.local)
    case ActAdopt => c.(base := c.local)
    case ActTrashLocal => c.(base := None, local := None, bin := c.local)
    case ActTrashRemote => c.(base := None, remote := None, bin := c.remote)
    case ActConflict => c.(base := c.remote, local := c.remote, copy := c.local)
    case ActDropBaseline => c.(base := None)
    case _ => c
  }

  /** Deciding and carrying out one path.  The three sides come together; deletion never
  beats a modification and a conflict keeps both versions; and a version is trashed
  exactly when one side deleted what the other had left alone. */
  function Settled(c: Cell): (d: Cell)
    ensures d.base == d.local == d.remote
    ensures c.local.Some? && c.local != c.base ==> c.local == d.local || c.local == d.copy
    ensures c.remote.Some? && c.remote != c.base ==> c.remote == d.remote
    ensures d.bin != c.bin ==> d.bin == c.base && (c.local.None? || c.remote.None?)
    ensures d.copy == c.copy || (d.copy == c.local && d.local == c.remote)
  {
    Execute(Reconcile(FactsOf(c)), c)
  }
}
