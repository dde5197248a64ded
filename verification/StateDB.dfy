/** The baseline table (internal/state/state.go) as a map that statements update. A
statement that fails leaves the table as it was. */
module State {
  import opened Types
  import opened Paths
  import opened SubtreePattern
  import opened World

  class StateDB {
    var nodes: Base
    var cursor: string

    method PutNode(p: Path, row: Row) returns (ok: bool)
      modifies this`nodes
      ensures nodes == if ok then old(nodes)[p := row] else old(nodes)
    {
      if * {
        return false;
      }
      nodes := nodes[p := row];
      ok := true;
    }

    method GetNode(p: Path) returns (row: Option<Row>)
      ensures row == if p in nodes then Some(nodes[p]) else None
    {
      row := if p in nodes then Some(nodes[p]) else None;
    }

    /** Some row that carries the link, if there is one. */
    method GetNodeByID(link: Link) returns (found: Option<Path>)
      ensures found.Some? ==> found.value in nodes && nodes[found.value].link == link
      ensures found.None? ==> forall p | p in nodes :: nodes[p].link != link
    {
      if exists p :: p in nodes && nodes[p].link == link {
        var p :| p in nodes && nodes[p].link == link;
        found := Some(p);
      } else {
        found := None;
      }
    }

    method DeleteNode(p: Path) returns (ok: bool)
      modifies this`nodes
      ensures nodes == if ok then Forget(old(nodes), p, false) else old(nodes)
    {
      if * {
        return false;
      }
      nodes := nodes - {p};
      ok := true;
    }

    /** Deletes what the LIKE pattern of `p` selects. */
    method DeleteSubtree(p: Path) returns (ok: bool)
      modifies this`nodes
      ensures nodes == if ok then Forget(old(nodes), p, true) else old(nodes)
    {
      if * {
        return false;
      }
      var pattern := EscapeLike(p);
      pattern := pattern + "/%";
      nodes := map q | q in nodes && !(q == p || Like(pattern, q)) :: nodes[q];
      ok := true;
    }

    method SetCursor(value: string) returns (ok: bool)
      modifies this`cursor
      ensures cursor == if ok then value else old(cursor)
    {
      if * {
        return false;
      }
      cursor := value;
      ok := true;
    }
  }
}
