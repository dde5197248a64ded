/** The sync folder and the local trash (internal/mirror/local.go, scan.go).

Every operation may fail; a failure is the result `false`, and the contract says what
has changed by then. */
module Local {
  import opened Types
  import opened Paths
  import opened Names
  import opened World

  class LocalFolder {
    var disk: Disk
    var stubs: set<Path>
    var trash: Trash

    method MkdirAll(d: Path) returns (ok: bool)
      modifies this`disk
      ensures ok ==> !Blocked(old(disk), d) && disk == WithDirs(old(disk), d)
      ensures !ok ==> disk == old(disk)
    {
      if * {
        return false;
      }
      if Blocked(disk, d) {
        return false;
      }
      disk := WithDirs(disk, d);
      ok := true;
    }

    /** Download into the scratch folder, creating the destination's folders on the way. */
    method StageDownload(p: Path) returns (ok: bool, parents: bool)
      modifies this`disk
      ensures ok ==> parents
      ensures parents ==> !Blocked(old(disk), ParentOf(p)) && disk == WithDirs(old(disk), ParentOf(p))
      ensures !parents ==> disk == old(disk)
    {
      parents := MkdirAll(ParentOf(p));
      ok := parents;
      if * {
        ok := false; // the transfer broke, or the bytes could not be written
      }
    }

    /** Rename a file to the name of its conflict copy. */
    method RenameAside(p: Path, copy: Path) returns (ok: bool)
      requires IsFile(disk, p)
      modifies this`disk
      ensures disk == Aside(old(disk), p, copy, ok)
      ensures ok ==> !IsDir(old(disk), copy)
    {
      if * {
        return false;
      }
      if IsDir(disk, copy) {
        return false;
      }
      disk := (disk - {p})[copy := disk[p]];
      ok := true;
    }

    /** Rename the staged download into place. */
    method CommitStaged(p: Path, content: Content, mtime: Time) returns (ok: bool, entry: Entry)
      modifies this`disk
      ensures ok ==> entry.File? && entry.content == content && !IsDir(old(disk), p)
      ensures disk == if ok then old(disk)[p := entry] else old(disk)
    {
      var inode: nat :| 0 <= inode;
      var stamped: Time :| 0 <= stamped; // now, unless the wanted time is set below
      entry := File(content, if mtime != 0 then mtime else stamped, inode);
      if * {
        entry := File(content, stamped, inode);
      }
      if * {
        return false, entry;
      }
      if IsDir(disk, p) {
        return false, entry;
      }
      disk := disk[p := entry];
      ok := true;
    }

    method WriteStub(p: Path) returns (ok: bool, parents: bool)
      modifies this`disk, this`stubs
      ensures ok ==> parents
      ensures parents ==> !Blocked(old(disk), ParentOf(p)) && disk == WithDirs(old(disk), ParentOf(p))
      ensures !parents ==> disk == old(disk)
      ensures stubs == if ok then old(stubs) + {p} else old(stubs)
    {
      parents := MkdirAll(ParentOf(p));
      ok := parents;
      if * {
        ok := false;
      }
      if ok {
        stubs := stubs + {p};
      }
    }

    method RemoveStub(p: Path)
      modifies this`stubs
      ensures stubs == old(stubs) - {p}
    {
      stubs := stubs - {p};
    }

    /** Move a path, with all that it holds, to the trash. A rename does it in one step;
    across file systems the tree is copied and then removed, and either half may stop
    short. Nothing leaves the folder that is not in the trash. */
    method TrashLocal(p: Path) returns (ok: bool)
      requires Tree(disk)
      modifies this
      ensures ok ==> disk == map q | q in old(disk) && !AtOrUnder(q, p) :: old(disk)[q]
      ensures ok ==> stubs == set q | q in old(stubs) && !AtOrUnder(q, p)
      ensures ok ==> trash == old(trash) + FilesAt(old(disk), p)
      ensures !ok ==> LeftInTrash(old(disk), old(stubs), old(trash), p)
    {
      ghost var disk0, trash0 := disk, trash;
      var files := FilesAt(disk, p);
      if * {
        trash := trash + files;
        Drop(p);
        return true;
      }
      var copied: Trash := *;
      if !(copied <= files) {
        copied := {};
      }
      trash := trash + copied;
      if copied == files {
        if * {
          Drop(p);
          return true;
        }
        var removed: set<Path> := *; // part of the tree could not be removed again
        if (forall q | q in removed :: AtOrUnder(q, p)) && Tree(disk - removed) {
          disk := disk - removed;
          stubs := stubs - removed;
        }
      }
      ok := false;
    }

    ghost predicate LeftInTrash(disk0: Disk, stubs0: set<Path>, trash0: Trash, p: Path)
      reads this
    {
      && (forall q | q in disk :: q in disk0 && disk[q] == disk0[q])
      && (forall q | q in disk0 && q !in disk ::
            AtOrUnder(q, p) && (disk0[q].File? ==> (q, disk0[q].content) in trash))
      && stubs <= stubs0 && (forall q | q in stubs0 - stubs :: AtOrUnder(q, p))
      && trash0 <= trash <= trash0 + FilesAt(disk0, p)
      && Tree(disk)
    }

    method Drop(p: Path)
      requires Tree(disk)
      modifies this`disk, this`stubs
      ensures disk == map q | q in old(disk) && !AtOrUnder(q, p) :: old(disk)[q]
      ensures stubs == set q | q in old(stubs) && !AtOrUnder(q, p)
      ensures Tree(disk)
    {
      disk := map q | q in disk && !AtOrUnder(q, p) :: disk[q];
      stubs := set q | q in stubs && !AtOrUnder(q, p);
    }

    /** Prune folders left empty above a removed path, stopping at the root. Unless a folder
    could not be removed, no empty folder is left above. */
    method RemoveEmptyParents(p: Path) returns (stuck: bool)
      requires Tree(disk)
      modifies this`disk
      ensures Pruned(old(disk), disk, stubs, p) && Tree(disk)
      ensures !stuck && (ParentOf(p) == "" || IsDir(old(disk), ParentOf(p)))
              ==> forall q | Under(p, q) && q != "" :: !EmptyDir(disk, stubs, q)
    {
      ghost var disk0 := disk;
      ghost var there := ParentOf(p) == "" || IsDir(disk, ParentOf(p));
      stuck := false;
      ParentAbove(p);
      var dir := ParentOf(p);
      while dir != ""
        invariant Pruned(disk0, disk, stubs, p)
        invariant dir != "" ==> Under(p, dir)
        invariant there && dir != "" ==> IsDir(disk, dir)
        invariant forall q | Under(p, q) && q != "" && IsDir(disk, q) ::
                    q == dir || (dir != "" && Under(dir, q)) || !there
        decreases |dir|
      {
        if !EmptyDir(disk, stubs, dir) {
          break;
        }
        if * {
          stuck := true;
          break;
        }
        PrunedTree(disk0, disk, stubs, p);
        disk := disk - {dir};
        ParentAbove(dir);
        if ParentOf(dir) != "" {
          UnderTransitive(p, dir, ParentOf(dir));
        }
        forall q | Under(p, q) && q != "" && IsDir(disk, q) && there
          ensures q == ParentOf(dir) || (ParentOf(dir) != "" && Under(ParentOf(dir), q))
        {
          UnderViaParent(dir, q);
        }
        dir := ParentOf(dir);
      }
      PrunedTree(disk0, disk, stubs, p);
    }

    /** Everything visible, hashes left out. A folder that cannot be listed is reported, but the
    walk does not go into it; an entry that cannot be examined is passed over. Each gives one
    warning. */
    method Scan(exclude: seq<string>)
      returns (out: Scan, warned: nat, ghost unreadable: set<Path>, ghost unexamined: set<Path>)
      ensures forall p | p in out :: p in disk && out[p] == Describe(disk[p])
      ensures ReportedBy(disk, exclude, unreadable, unexamined, out.Keys)
      ensures forall d | d in unreadable ::
                (d == "" || (IsDir(disk, d) && Visible(d, exclude))) && !Hidden(unreadable, d)
      ensures forall p | p in unexamined :: Live(disk, exclude, p) && !Hidden(unreadable, p)
      ensures warned == |unreadable| + |unexamined|
      ensures warned == 0 ==> forall p | p in disk && Visible(p, exclude) :: p in out
    {
      hide Visible;
      var closed: set<Path>, odd: set<Path> := *, *;
      if !forall d | d in closed :: (d == "" || (IsDir(disk, d) && Visible(d, exclude))) && !Hidden(closed, d) {
        closed := {};
      }
      odd := set p | p in odd && Live(disk, exclude, p) && !Hidden(closed, p);
      out := map p | p in disk && Visible(p, exclude) && !Hidden(closed, p) && p !in odd :: Describe(disk[p]);
      warned := |closed| + |odd|;
      unreadable, unexamined := closed, odd;
    }

    method HashFile(p: Path) returns (ok: bool, h: Hash)
      ensures ok ==> IsFile(disk, p) && h == Sum(disk[p].content)
      ensures !ok ==> h == Unknown
    {
      if * {
        return false, Unknown;
      }
      ok := IsFile(disk, p);
      h := if ok then Sum(disk[p].content) else Unknown;
    }
  }
}
