/** The event cursor of a full walk (internal/mirror/mirror.go), with other devices writing at
every moment. The cursor is read before the walk and stored after it; whatever the walk did
not see as it is now has an event behind the stored cursor. */
module Cursor {
  import opened Types
  import opened Paths
  import opened World

  /** What the account holds at a path: a folder, or some version of a file. */
  datatype Item = Item(isDir: bool, version: nat)

  type Holdings = map<Path, Item>

  /** One write, which is also one event of the stream. A move also stands for a new name. */
  datatype Write = Put(path: Path, item: Item) | Drop(path: Path) | Move(path: Path, to: Path)

  /** Where `q` comes to lie when what is at or below `from` moves to `to`. */
  function Rebased(q: Path, from: Path, to: Path): Path
    requires AtOrUnder(q, from)
  {
    to + q[|from|..]
  }

  function Without(s: Holdings, p: Path): Holdings {
    map q | q in s && !AtOrUnder(q, p) :: s[q]
  }

  /** What is at or below `from`, at its new place. */
  function Moved(s: Holdings, from: Path, to: Path): (m: Holdings)
    ensures forall q | q in s && AtOrUnder(q, from) :: Rebased(q, from, to) in m && m[Rebased(q, from, to)] == s[q]
    ensures forall p | p in m ::
              AtOrUnder(p, to) && exists q :: q in s && AtOrUnder(q, from) && p == Rebased(q, from, to)
  {
    forall q, r | AtOrUnder(q, from) && AtOrUnder(r, from) && Rebased(q, from, to) == Rebased(r, from, to)
      ensures q == r
    {
      RebasedApart(q, r, from, to);
    }
    map q | q in s && AtOrUnder(q, from) :: Rebased(q, from, to) := s[q]
  }

  lemma RebasedApart(q: Path, r: Path, from: Path, to: Path)
    requires AtOrUnder(q, from) && AtOrUnder(r, from) && Rebased(q, from, to) == Rebased(r, from, to)
    ensures q == r
  {
    assert Rebased(q, from, to)[|to|..] == q[|from|..] && Rebased(r, from, to)[|to|..] == r[|from|..];
    assert q == from + q[|from|..] && r == from + r[|from|..];
  }

  lemma RebasedParent(q: Path, from: Path, to: Path)
    requires Under(q, from)
    ensures AtOrUnder(ParentOf(q), from) && ParentOf(Rebased(q, from, to)) == Rebased(ParentOf(q), from, to)
  {
    UnderViaParent(q, from);
    var k, p := LastIndex(q, '/'), Rebased(q, from, to);
    var j := |to| + k - |from|;
    assert k >= |from|;
    assert forall i | |to| <= i < |p| :: p[i] == q[i - |to| + |from|];
    assert p[j] == '/' && forall i | j < i < |p| :: p[i] != '/';
    assert p[..j] == to + q[..k][|from|..];
  }

  function Apply(s: Holdings, w: Write): Holdings {
    match w
    case Put(p, item) => s[p := item]
    case Drop(p) => Without(s, p)
    case Move(from, to) => Without(s, from) + Moved(s, from, to)
  }

  predicate HasFolder(s: Holdings, p: Path) {
    p != "" && (ParentOf(p) == "" || (ParentOf(p) in s && s[ParentOf(p)].isDir))
  }

  /** Every node lies in the root or in a folder. */
  predicate TreeOf(s: Holdings) {
    forall p {:trigger ParentOf(p)} | p in s :: HasFolder(s, p)
  }

  lemma NodeHasFolder(s: Holdings, p: Path)
    requires TreeOf(s) && p in s
    ensures HasFolder(s, p)
  {
    ParentAbove(p);
  }

  /** A write that the account grants: a node's folder exists, a folder stays one, and nothing
  moves below itself or over something else. */
  predicate Granted(s: Holdings, w: Write) {
    match w
    case Put(p, item) => HasFolder(s, p) && (p in s && s[p].isDir ==> item.isDir)
    case Drop(p) => p != ""
    case Move(from, to) => from != "" && HasFolder(s, to) && to !in s && !AtOrUnder(to, from)
  }

  /** The event says that `p` changed: it was written, or it went or came with a folder above
  it. */
  predicate Touches(w: Write, p: Path) {
    match w
    case Put(q, _) => p == q
    case Drop(q) => AtOrUnder(p, q)
    case Move(from, to) => AtOrUnder(p, from) || AtOrUnder(p, to)
  }

  /** Some event from position `from` on touches `p`. */
  predicate TouchedSince(history: seq<Write>, from: nat, p: Path) {
    exists i :: from <= i < |history| && Touches(history[i], p)
  }

  lemma ApplyTree(s: Holdings, w: Write)
    requires TreeOf(s) && Granted(s, w)
    ensures TreeOf(Apply(s, w))
  {
    match w
    case Put(p, item) =>
      forall q | q in Apply(s, w) ensures HasFolder(Apply(s, w), q) { if q != p { NodeHasFolder(s, q); } }
    case Drop(p) =>
      forall q | q in Without(s, p) ensures HasFolder(Without(s, p), q) {
        NodeHasFolder(s, q);
        WithoutHasFolder(s, p, q);
      }
    case Move(from, to) =>
      forall q | q in Apply(s, w) ensures HasFolder(Apply(s, w), q) { MovedHasFolder(s, from, to, q); }
  }

  lemma WithoutHasFolder(s: Holdings, p: Path, q: Path)
    requires p != "" && HasFolder(s, q) && !AtOrUnder(q, p)
    ensures HasFolder(Without(s, p), q)
  {
    UnderViaParent(q, p);
  }

  lemma MovedHasFolder(s: Holdings, from: Path, to: Path, p: Path)
    requires TreeOf(s) && Granted(s, Move(from, to)) && p in Apply(s, Move(from, to))
    ensures HasFolder(Apply(s, Move(from, to)), p)
  {
    var moved := Moved(s, from, to);
    if p in moved {
      var q :| q in s && AtOrUnder(q, from) && p == Rebased(q, from, to);
      if q == from {
        assert p == to;
        WithoutHasFolder(s, from, to);
        NotMoved(s, from, to, ParentOf(to));
      } else {
        RebasedParent(q, from, to);
        NodeHasFolder(s, q);
      }
    } else {
      NodeHasFolder(s, p);
      WithoutHasFolder(s, from, p);
      if ParentOf(p) != "" { NothingBelow(s, to, ParentOf(p)); NotMoved(s, from, to, ParentOf(p)); }
    }
  }

  lemma NotMoved(s: Holdings, from: Path, to: Path, p: Path)
    requires !AtOrUnder(p, to)
    ensures p !in Moved(s, from, to)
  {
  }

  /** Nothing lies at or below a path that is not there. */
  lemma {:induction false} NothingBelow(s: Holdings, to: Path, p: Path)
    requires TreeOf(s) && to !in s && p in s && to != ""
    ensures !AtOrUnder(p, to)
    decreases |p|
  {
    if Under(p, to) {
      UnderViaParent(p, to);
      NodeHasFolder(s, p);
      NothingBelow(s, to, ParentOf(p));
    }
  }

  /** The folder was dropped or moved since then, by itself or with a folder above it. */
  predicate Uprooted(history: seq<Write>, from: nat, d: Path) {
    exists i :: from <= i < |history| && !history[i].Put? && Touches(history[i], d)
  }

  /** Then all that the path may have held is touched. */
  lemma UprootedBelow(history: seq<Write>, from: nat, d: Path, p: Path)
    requires Uprooted(history, from, d) && Under(p, d)
    ensures TouchedSince(history, from, p)
  {
    var i :| from <= i < |history| && !history[i].Put? && Touches(history[i], d);
    var w := history[i];
    if AtOrUnder(d, w.path) { UnderTransitive(p, d, w.path); } else { UnderTransitive(p, d, w.to); }
    assert Touches(history[i], p);
  }

  lemma TouchedMore(history: seq<Write>, from: nat, w: Write, p: Path)
    requires from <= |history|
    ensures TouchedSince(history + [w], from, p) <==> TouchedSince(history, from, p) || Touches(w, p)
  {
    var more := history + [w];
    assert more[|history|] == w;
    assert forall i | 0 <= i < |history| :: more[i] == history[i];
  }

  // ----- the walk

  /** The walk has a folder above `p` still to list. */
  predicate Pending(todo: set<Path>, p: Path) {
    exists d :: d in todo && (d == "" || Under(p, d))
  }

  /** A path that no event since the cursor touches: seen as it is, or still to come. */
  predicate SeenAt(now: Holdings, seen: Holdings, todo: set<Path>, p: Path) {
    && (p in seen ==> p in now && seen[p] == now[p])
    && (p in now ==> Pending(todo, p) || p in seen)
  }

  /** What the walk saw at `p`, if anything, is what is there now. */
  predicate SeenAsIs(now: Holdings, seen: Holdings, p: Path) {
    (p in seen <==> p in now) && (p in now ==> seen[p] == now[p])
  }

  ghost predicate WalkInv(now: Holdings, history: seq<Write>, from: nat, seen: Holdings, todo: set<Path>) {
    && TreeOf(now) && from <= |history|
    && forall p :: TouchedSince(history, from, p) || SeenAt(now, seen, todo, p)
  }

  /** Another device writes in between. */
  lemma WriteKeeps(now: Holdings, history: seq<Write>, from: nat, seen: Holdings, todo: set<Path>, w: Write)
    requires WalkInv(now, history, from, seen, todo) && Granted(now, w)
    ensures WalkInv(Apply(now, w), history + [w], from, seen, todo)
  {
    ApplyTree(now, w);
    forall p ensures TouchedSince(history + [w], from, p) || SeenAt(Apply(now, w), seen, todo, p) {
      TouchedMore(history, from, w, p);
      if w.Move? && !Touches(w, p) { NotMoved(now, w.path, w.to, p); }
      assert TouchedSince(history, from, p) || SeenAt(now, seen, todo, p);
    }
  }

  function Subfolders(s: Holdings, d: Path): set<Path> {
    set p | p in s && ParentOf(p) == d && s[p].isDir
  }

  /** What a listing of `d` adds to what the walk has seen. */
  function WithListing(seen: Holdings, now: Holdings, d: Path): Holdings {
    seen + map p | p in now && ParentOf(p) == d :: now[p]
  }

  /** The folder below `d` that leads to `p`. */
  lemma {:induction false} StepTowards(now: Holdings, d: Path, p: Path)
    requires TreeOf(now) && p in now && (d == "" || Under(p, d)) && ParentOf(p) != d
    ensures exists c :: c in Subfolders(now, d) && Under(p, c)
    decreases |p|
  {
    var q := ParentOf(p);
    ParentAbove(p);
    if d != "" { UnderViaParent(p, d); }
    if ParentOf(q) == d {
      assert q in Subfolders(now, d);
    } else {
      StepTowards(now, d, q);
      var c :| c in Subfolders(now, d) && Under(q, c);
      UnderTransitive(p, q, c);
    }
  }

  /** One folder is listed. */
  lemma ListKeeps(now: Holdings, history: seq<Write>, from: nat, seen: Holdings, todo: set<Path>, d: Path)
    requires WalkInv(now, history, from, seen, todo) && d in todo
    ensures WalkInv(now, history, from, WithListing(seen, now, d), todo - {d} + Subfolders(now, d))
  {
    var seen', todo' := WithListing(seen, now, d), todo - {d} + Subfolders(now, d);
    forall p ensures TouchedSince(history, from, p) || SeenAt(now, seen', todo', p) {
      assert TouchedSince(history, from, p) || SeenAt(now, seen, todo, p);
      if SeenAt(now, seen, todo, p) && p in now && Pending(todo, p) && ParentOf(p) != d {
        var e :| e in todo && (e == "" || Under(p, e));
        if e == d {
          StepTowards(now, d, p);
        } else {
          assert e in todo';
        }
      }
    }
  }

  /** What a listing by link reports below `d` when `d` is no longer this folder's path. */
  predicate ChildrenOf(heard: Holdings, d: Path) {
    d != "" && forall p | p in heard :: ParentOf(p) == d
  }

  /** A folder that was moved or dropped meanwhile is listed, or something else in its place. */
  lemma StrayKeeps(now: Holdings, history: seq<Write>, from: nat, seen: Holdings, todo: set<Path>, d: Path,
                   heard: Holdings)
    requires WalkInv(now, history, from, seen, todo) && d in todo
    requires Uprooted(history, from, d) && ChildrenOf(heard, d)
    ensures WalkInv(now, history, from, seen + heard, todo - {d} + Subfolders(heard, d))
  {
    forall p ensures TouchedSince(history, from, p) || SeenAt(now, seen + heard, todo - {d} + Subfolders(heard, d), p) {
      assert TouchedSince(history, from, p) || SeenAt(now, seen, todo, p);
      ParentAbove(p);
      if Under(p, d) { UprootedBelow(history, from, d, p); }
      if Pending(todo, p) && !Under(p, d) {
        var e :| e in todo && (e == "" || Under(p, e));
        assert e in todo - {d} + Subfolders(heard, d);
      }
    }
  }

  class Walker {
    /** The account, the event stream, and the stored cursor as a position in it. */
    var now: Holdings
    var history: seq<Write>
    var stored: Option<nat>

    /** Other devices write; what the account does not grant does not happen. */
    method OthersWrite(writes: seq<Write>, ghost from: nat, ghost seen: Holdings, ghost todo: set<Path>)
      requires WalkInv(now, history, from, seen, todo)
      modifies this`now, this`history
      ensures WalkInv(now, history, from, seen, todo)
      ensures writes == [] ==> now == old(now) && history == old(history)
    {
      for i := 0 to |writes|
        invariant WalkInv(now, history, from, seen, todo)
        invariant i == 0 ==> now == old(now) && history == old(history)
      {
        if Granted(now, writes[i]) {
          WriteKeeps(now, history, from, seen, todo, writes[i]);
          now, history := Apply(now, writes[i]), history + [writes[i]];
        }
      }
    }

    /** Take the cursor, walk the tree folder by folder while others write before every
    listing, store the cursor, and note the time of the walk. `fails` says which of these fail;
    with no further round for others to write in, the walk is cancelled.

    The cursor that is stored is well anchored. An error leaves the cursor as it was if and
    only if the note of the time is not what failed, or the cursor was at that position already.
    A walk that others leave alone is not cancelled if it has a round for every folder. */
    method FullMirror(others: seq<seq<Write>>, fails: Failing) returns (error: Option<Error>, seen: Holdings)
      requires TreeOf(now)
      modifies this
      ensures error.None? || error == Some(TimeNotNoted) ==>
                && stored == Some(|old(history)|) && |old(history)| <= |history|
                && forall p :: TouchedSince(history, |old(history)|, p) || SeenAsIs(now, seen, p)
      ensures error.Some? ==>
                (stored == old(stored) <==> error != Some(TimeNotNoted) || old(stored) == Some(|old(history)|))
      ensures error.None? ==> !fails.note
      ensures error.Some? ==> FailedAt(fails, error.value)
      ensures Alone(others) && |others| > |Folders(old(now))| ==> error != Some(Cancelled)
    {
      seen := map[];
      if fails.read {
        return Some(CursorNotRead), seen;
      }
      var cursor := |history|;
      error, seen := Walk(others, fails, cursor);
      if error.Some? {
        return;
      }
      if fails.reaping {
        return Some(NotReaped), seen;
      }
      if fails.cursor {
        return Some(CursorNotStored), seen;
      }
      stored := Some(cursor);
      AllSeen(now, history, cursor, seen);
      error := if fails.note then Some(TimeNotNoted) else None;
    }

    /** The walk itself, from the root on, and the writes of others while rows are reaped. */
    method Walk(others: seq<seq<Write>>, fails: Failing, cursor: nat) returns (error: Option<Error>, seen: Holdings)
      requires TreeOf(now) && cursor == |history|
      modifies this`now, this`history
      ensures error.None? ==> WalkInv(now, history, cursor, seen, {})
      ensures error.Some? ==> FailedAt(fails, error.value) && (error.value.ListingFailed? || error.value.Cancelled?)
      ensures Alone(others) && |others| > |Folders(old(now))| ==> error != Some(Cancelled)
    {
      hide WalkInv, Rounds, Folders, Subfolders;
      seen := map[];
      var todo: set<Path> := {""};
      var i := 0;
      ghost var listed: set<Path> := {};
      WalkStarts(now, history);
      FirstRound(now);
      while i < |others| && todo != {}
        invariant i <= |others| && WalkInv(now, history, cursor, seen, todo)
        invariant Alone(others) ==> now == old(now) && history == old(history) && |listed| == i
                                    && Rounds(now, listed, todo)
      {
        OthersWrite(others[i], cursor, seen, todo);
        var d :| d in todo;
        if i in fails.listings {
          return Some(ListingFailed(i)), seen;
        }
        ghost var todo0 := todo;
        seen, todo := ListFolder(d, cursor, seen, todo);
        if Alone(others) { OneMoreRound(now, listed, todo0, d); }
        listed := listed + {d};
        i := i + 1;
      }
      if todo != {} {
        if Alone(others) { RoundsLeft(now, listed, todo); }
        return Some(Cancelled), seen;
      }
      if i < |others| {
        OthersWrite(others[i], cursor, seen, todo);
      }
      error := None;
    }

    /** One folder is listed, by its link: what is reported under the path that it had may be
    anything if it was moved or dropped meanwhile. */
    method ListFolder(d: Path, cursor: nat, seen: Holdings, todo: set<Path>) returns (seen': Holdings, todo': set<Path>)
      requires WalkInv(now, history, cursor, seen, todo) && d in todo
      ensures WalkInv(now, history, cursor, seen', todo')
      ensures cursor == |history| ==> todo' == todo - {d} + Subfolders(now, d)
    {
      hide WalkInv, Subfolders;
      var heard: Holdings := *;
      if Uprooted(history, cursor, d) && ChildrenOf(heard, d) {
        StrayKeeps(now, history, cursor, seen, todo, d, heard);
        seen' := seen + heard;
        todo' := todo - {d} + Subfolders(heard, d);
      } else {
        ListKeeps(now, history, cursor, seen, todo, d);
        seen' := WithListing(seen, now, d);
        todo' := todo - {d} + Subfolders(now, d);
      }
    }
  }

  /** Nobody writes while the walk is under way. */
  predicate Alone(others: seq<seq<Write>>) {
    forall i | 0 <= i < |others| :: others[i] == []
  }

  /** Which steps of a walk fail; listings by their round. */
  datatype Failing = Failing(read: bool, listings: set<nat>, reaping: bool, cursor: bool, note: bool)

  datatype Error = CursorNotRead | ListingFailed(round: nat) | Cancelled | NotReaped | CursorNotStored | TimeNotNoted

  predicate FailedAt(fails: Failing, error: Error) {
    match error
    case CursorNotRead => fails.read
    case ListingFailed(round) => round in fails.listings
    case Cancelled => true
    case NotReaped => fails.reaping
    case CursorNotStored => fails.cursor
    case TimeNotNoted => fails.note
  }

  /** At an empty account nothing fails but the note of the time: an error, and the cursor has
  moved. */
  method ErrorMovesCursor() returns (error: Option<Error>, before: Option<nat>, after: Option<nat>)
    ensures error == Some(TimeNotNoted) && before == None && after == Some(0)
  {
    var w := new Walker;
    w.now, w.history, w.stored := map[], [], None;
    before := w.stored;
    var seen;
    error, seen := w.FullMirror([[]], Failing(false, {}, false, false, true));
    after := w.stored;
  }

  // ----- how many rounds a walk needs

  function Folders(s: Holdings): set<Path> {
    set p | p in s && s[p].isDir
  }

  /** Nothing was listed twice, and what is to be listed was found by listing its folder. */
  predicate Rounds(s: Holdings, listed: set<Path>, todo: set<Path>) {
    && listed !! todo && listed + todo <= Folders(s) + {""}
    && forall p | p in listed + todo && p != "" :: ParentOf(p) in listed
  }

  lemma FirstRound(s: Holdings)
    ensures Rounds(s, {}, {""})
  {
  }

  lemma OneMoreRound(s: Holdings, listed: set<Path>, todo: set<Path>, d: Path)
    requires TreeOf(s) && Rounds(s, listed, todo) && d in todo
    ensures Rounds(s, listed + {d}, todo - {d} + Subfolders(s, d)) && |listed + {d}| == |listed| + 1
  {
    hide TreeOf, ParentOf;
    forall p | p in Subfolders(s, d) ensures p != "" && p != d && p !in listed {
      NodeHasFolder(s, p);
    }
  }

  lemma RoundsLeft(s: Holdings, listed: set<Path>, todo: set<Path>)
    requires Rounds(s, listed, todo) && todo != {}
    ensures |listed| <= |Folders(s)|
  {
    var d :| d in todo;
    FewerOf(listed + {d}, Folders(s) + {""});
    assert |Folders(s) + {""}| <= |Folders(s)| + 1;
  }

  lemma FewerOf(a: set<Path>, b: set<Path>)
    requires a <= b
    ensures |a| <= |b|
  {
    assert b == a + (b - a);
  }

  lemma WalkStarts(now: Holdings, history: seq<Write>)
    requires TreeOf(now)
    ensures WalkInv(now, history, |history|, map[], {""})
  {
    forall p ensures SeenAt(now, map[], {""}, p) {
      assert "" in {""};
    }
  }

  lemma AllSeen(now: Holdings, history: seq<Write>, from: nat, seen: Holdings)
    requires WalkInv(now, history, from, seen, {})
    ensures forall p :: TouchedSince(history, from, p) || SeenAsIs(now, seen, p)
  {
    forall p ensures TouchedSince(history, from, p) || SeenAsIs(now, seen, p) {
      assert TouchedSince(history, from, p) || SeenAt(now, seen, {}, p);
    }
  }
}
