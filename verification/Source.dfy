/** The account, behind the interface the engine uses (internal/mirror/source.go).

Any call may fail, and then changes nothing. `calls` records every request that asks
the account to change, whether or not it was granted, with the local path on whose behalf
it was made, which the account does not see. Names are unique in a folder. */
module Remotes {
  import opened Types
  import opened Paths
  import opened World
  import opened PushSteps

  datatype Call =
    | CallUpload(path: Path, parent: Link, name: string)
    | CallMkdir(path: Path, parent: Link, name: string)
    | CallTrash(path: Path, link: Link)
    | CallMove(path: Path, link: Link, parent: Link, name: string)

  /** `dir` is the path of the folder with this link. */
  predicate FolderAt(remote: Account, link: Link, dir: Path) {
    (dir == "" && link == ROOT_LINK) || (dir in remote && remote[dir].isDir && remote[dir].link == link)
  }

  /** What a listing of that folder holds. */
  function Children(remote: Account, link: Link): set<Path> {
    set q | q in remote && remote[q].parent == link
  }

  /** One remote change: something was created or updated in a folder, or removed. An
  update may lack its parent. */
  datatype Change = Upsert(link: Link, parent: Option<Link>) | Removal(link: Link)

  /** An answer to an event poll: what changed since the cursor, or that the stream no
  longer reaches back that far. */
  datatype Delta = Delta(refresh: bool, changes: seq<Change>, cursor: string)

  class Source {
    var nodes: Account
    ghost var calls: seq<Call>
    /** Every link id given out so far; ids are never given out twice. */
    var used: set<Link>
    /** The current position of the event stream. */
    var latest: string
    /** What a poll from the stored cursor answers. */
    var feed: Delta

    method LatestEventID() returns (ok: bool, cursor: string)
      ensures ok ==> cursor == latest
    {
      ok := *;
      cursor := latest;
    }

    method PollEvents() returns (ok: bool, delta: Delta)
      ensures ok ==> delta == feed
    {
      ok := *;
      delta := feed;
    }

    /** The active revision of a file. */
    method Download(link: Link) returns (ok: bool, content: Content, ghost at: Path)
      ensures ok ==> at in nodes && nodes[at].link == link && !nodes[at].isDir && content == nodes[at].content
    {
      at := "";
      if * {
        return false, [], "";
      }
      if exists q :: q in nodes && nodes[q].link == link && !nodes[q].isDir {
        var q :| q in nodes && nodes[q].link == link && !nodes[q].isDir;
        return true, nodes[q].content, q;
      }
      return false, [], "";
    }

    method ListDir(link: Link) returns (ok: bool, children: set<Path>)
      ensures ok ==> children == Children(nodes, link)
    {
      ok := *;
      children := Children(nodes, link);
    }

    /** The parent of a node, for an event that does not name it. */
    method LinkParent(link: Link) returns (ok: bool, parent: Link)
      ensures ok ==> exists q :: q in nodes && nodes[q].link == link && nodes[q].parent == parent
    {
      if * {
        return false, "";
      }
      if exists q :: q in nodes && nodes[q].link == link {
        var q :| q in nodes && nodes[q].link == link;
        return true, nodes[q].parent;
      }
      return false, "";
    }

    method FindFolder(link: Link) returns (found: bool, dir: Path)
      ensures found ==> FolderAt(nodes, link, dir)
    {
      if link == ROOT_LINK {
        return true, "";
      }
      if exists q :: q in nodes && nodes[q].isDir && nodes[q].link == link {
        var q :| q in nodes && nodes[q].isDir && nodes[q].link == link;
        return true, q;
      }
      return false, "";
    }

    /** A new file, or a new revision of the one that has this name. */
    method Upload(parent: Link, name: string, content: Content, mtime: Time, ghost path: Path)
      returns (ok: bool, link: Link, ghost dir: Path)
      modifies this`nodes, this`calls, this`used
      ensures calls == old(calls) + [CallUpload(path, parent, name)]
      ensures used == if ok then old(used) + {link} else old(used)
      ensures !ok ==> nodes == old(nodes)
      ensures ok ==> FolderAt(old(nodes), parent, dir)
      ensures ok ==> var p := Join(dir, name);
        && (if p in old(nodes) then !old(nodes)[p].isDir && link == old(nodes)[p].link
            else FreshLink(old(nodes), link) && link !in old(used))
        && nodes == old(nodes)[p := RemoteFile(link, parent, content, mtime)]
    {
      calls := calls + [CallUpload(path, parent, name)];
      link := *;
      var found, folder := FindFolder(parent);
      dir := folder;
      if * {
        return false, link, dir;
      }
      if !found {
        return false, link, dir;
      }
      var p := Join(folder, name);
      if p in nodes {
        if nodes[p].isDir {
          return false, link, dir;
        }
        link := nodes[p].link;
      } else if link in used || !FreshLink(nodes, link) {
        return false, link, dir;
      }
      used := used + {link};
      nodes := nodes[p := RemoteFile(link, parent, content, mtime)];
      ok := true;
    }

    /** A new folder. A folder that has this name already is refused or handed back, never
    duplicated. */
    method Mkdir(parent: Link, name: string, ghost path: Path) returns (ok: bool, link: Link, ghost dir: Path)
      modifies this`nodes, this`calls, this`used
      ensures calls == old(calls) + [CallMkdir(path, parent, name)]
      ensures used == if ok then old(used) + {link} else old(used)
      ensures !ok ==> nodes == old(nodes)
      ensures ok ==> FolderAt(old(nodes), parent, dir)
      ensures ok ==> var p := Join(dir, name);
        if p in old(nodes) then old(nodes)[p].isDir && link == old(nodes)[p].link && nodes == old(nodes)
        else FreshLink(old(nodes), link) && link !in old(used)
             && nodes == old(nodes)[p := RemoteDir(link, parent)]
    {
      calls := calls + [CallMkdir(path, parent, name)];
      link := *;
      var found, folder := FindFolder(parent);
      dir := folder;
      if * {
        return false, link, dir;
      }
      if !found {
        return false, link, dir;
      }
      var p := Join(folder, name);
      if p in nodes {
        link := nodes[p].link;
        if nodes[p].isDir {
          used := used + {link};
          return true, link, dir;
        }
        return false, link, dir;
      }
      if link in used || !FreshLink(nodes, link) {
        return false, link, dir;
      }
      used := used + {link};
      nodes := nodes[p := RemoteDir(link, parent)];
      ok := true;
    }

    /** Move a node, with all that it holds, to the account's trash. */
    method Trash(link: Link, ghost path: Path) returns (ok: bool, ghost at: Path)
      modifies this`nodes, this`calls
      ensures calls == old(calls) + [CallTrash(path, link)]
      ensures !ok ==> nodes == old(nodes)
      ensures ok ==> at in old(nodes) && old(nodes)[at].link == link && nodes == Without(old(nodes), at)
    {
      calls := calls + [CallTrash(path, link)];
      at := "";
      if * {
        return false, "";
      }
      if exists q :: q in nodes && nodes[q].link == link {
        var q :| q in nodes && nodes[q].link == link;
        nodes := Without(nodes, q);
        return true, q;
      }
      return false, "";
    }

    /** Give a file another folder or name. */
    method Move(link: Link, parent: Link, name: string, ghost path: Path)
      returns (ok: bool, ghost at: Path, ghost dir: Path)
      modifies this`nodes, this`calls
      ensures calls == old(calls) + [CallMove(path, link, parent, name)]
      ensures !ok ==> nodes == old(nodes)
      ensures ok ==> at in old(nodes) && old(nodes)[at].link == link && !old(nodes)[at].isDir
      ensures ok ==> FolderAt(old(nodes), parent, dir) && Join(dir, name) !in old(nodes)
      ensures ok ==> nodes == (old(nodes) - {at})[Join(dir, name) := old(nodes)[at].(parent := parent)]
    {
      calls := calls + [CallMove(path, link, parent, name)];
      at := "";
      var found, folder := FindFolder(parent);
      dir := folder;
      if * {
        return false, "", dir;
      }
      if found && Join(folder, name) !in nodes
         && exists q :: q in nodes && nodes[q].link == link && !nodes[q].isDir
      {
        var q :| q in nodes && nodes[q].link == link && !nodes[q].isDir;
        nodes := (nodes - {q})[Join(folder, name) := nodes[q].(parent := parent)];
        return true, q, folder;
      }
      return false, "", dir;
    }
  }
}
