/** Which new local file a vanished one is taken to have moved to (internal/mirror/push.go):
row by row, the first free candidate that matches, by inode or by size and content. */
module MoveDetection {
  import opened Types
  import opened Paths
  import opened World
  import opened Survival

  predicate SameInode(row: Row, f: Entry)
    requires f.File?
  {
    row.inode != 0 && f.inode == row.inode
  }

  predicate SameBytes(row: Row, f: Entry)
    requires f.File?
  {
    row.size == |f.content| && row.hash == Sum(f.content)
  }

  /** Attempts to read a candidate, on behalf of a row, that failed. */
  type Unread = set<(Path, Path)>

  /** The candidate `c` matches the row of `from`. For a match by content it has to be read. */
  predicate Matches(base: Base, disk: Disk, unread: Unread, from: Path, c: Path) {
    && from in base && !base[from].isDir && IsFile(disk, c)
    && (SameInode(base[from], disk[c]) || (SameBytes(base[from], disk[c]) && (from, c) !in unread))
  }

  /** The first candidate in this order that is free and matches. */
  function FirstMatch(base: Base, disk: Disk, unread: Unread, from: Path, order: seq<Path>, taken: set<Path>)
    : (c: Option<Path>)
    ensures c.Some? ==> c.value in order && c.value !in taken && Matches(base, disk, unread, from, c.value)
    ensures c.None? ==> forall d | d in order && d !in taken :: !Matches(base, disk, unread, from, d)
  {
    if order == [] then None
    else if order[0] !in taken && Matches(base, disk, unread, from, order[0]) then Some(order[0])
    else FirstMatch(base, disk, unread, from, order[1..], taken)
  }

  /** What the rows in this order make of the candidates in that order. */
  function PairUp(base: Base, disk: Disk, unread: Unread, gone: seq<Path>, order: seq<Path>): map<Path, Path> {
    if gone == [] then map[]
    else
      var init, from := gone[..|gone| - 1], gone[|gone| - 1];
      var moves := PairUp(base, disk, unread, init, order);
      var c := FirstMatch(base, disk, unread, from, order, moves.Values);
      if c.Some? then moves[from := c.value] else moves
  }

  // ----- a pairing

  /** A partial pairing of vanished files with new local files, one to one. */
  predicate Pairing(base: Base, disk: Disk, candidates: set<Path>, gone: set<Path>, moves: map<Path, Path>) {
    && (forall p | p in moves :: p in gone && moves[p] in candidates && Matches(base, disk, {}, p, moves[p]))
    && (forall p, q | p in moves && q in moves && moves[p] == moves[q] :: p == q)
  }

  lemma OneMorePair(moves: map<Path, Path>, from: Path, c: Path)
    requires from !in moves
    ensures moves[from := c].Values == moves.Values + {c}
  {
    var more := moves[from := c];
    forall v | v in moves.Values + {c} ensures v in more.Values {
      if v == c { assert more[from] == c; } else { var q :| q in moves && moves[q] == v; assert more[q] == v; }
    }
  }

  lemma {:induction false} PairUpPairs(base: Base, disk: Disk, unread: Unread, gone: seq<Path>, order: seq<Path>)
    requires NoRepeats(gone)
    ensures Pairing(base, disk, Members(order), Members(gone), PairUp(base, disk, unread, gone, order))
    decreases |gone|
  {
    if gone != [] {
      var init, from := gone[..|gone| - 1], gone[|gone| - 1];
      PairUpPairs(base, disk, unread, init, order);
      var moves := PairUp(base, disk, unread, init, order);
      assert gone == init + [from];
      assert from !in moves;
      forall p | p in moves ensures moves[p] in moves.Values {
      }
    }
  }

  /** What is paired stays paired. */
  lemma {:induction false} PairUpGrows(base: Base, disk: Disk, unread: Unread, gone: seq<Path>, more: seq<Path>,
                                       order: seq<Path>)
    requires NoRepeats(gone + more)
    ensures var moves := PairUp(base, disk, unread, gone, order);
      var moves' := PairUp(base, disk, unread, gone + more, order);
      forall p | p in moves :: p in moves' && moves'[p] == moves[p]
    decreases |more|
  {
    if more == [] {
      assert gone + more == gone;
    } else {
      var init := more[..|more| - 1];
      assert (gone + more)[..|gone + more| - 1] == gone + init;
      PairUpGrows(base, disk, unread, gone, init, order);
      PairUpPairs(base, disk, unread, gone + init, order);
    }
  }

  /** No vanished file is left apart from a free candidate that matches it. */
  lemma {:induction false} PairUpMissesNothing(base: Base, disk: Disk, unread: Unread, gone: seq<Path>,
                                               order: seq<Path>, p: Path, c: Path)
    requires NoRepeats(gone) && p in gone && c in order
    ensures var moves := PairUp(base, disk, unread, gone, order);
      p in moves || c in moves.Values || !Matches(base, disk, unread, p, c)
    decreases |gone|
  {
    var init, from := gone[..|gone| - 1], gone[|gone| - 1];
    assert gone == init + [from];
    var moves := PairUp(base, disk, unread, init, order);
    PairUpPairs(base, disk, unread, init, order);
    if p != from {
      PairUpMissesNothing(base, disk, unread, init, order, p, c);
      assert from !in moves;
      var d := FirstMatch(base, disk, unread, from, order, moves.Values);
      if d.Some? { OneMorePair(moves, from, d.value); }
    }
  }

  /** Attempts on behalf of a row that comes later change nothing. */
  lemma {:induction false} PairUpSame(base: Base, disk: Disk, unread: Unread, unread': Unread, gone: seq<Path>,
                                      order: seq<Path>)
    requires forall p, c | p in gone :: (p, c) in unread <==> (p, c) in unread'
    ensures PairUp(base, disk, unread, gone, order) == PairUp(base, disk, unread', gone, order)
    decreases |gone|
  {
    if gone != [] {
      var init, from := gone[..|gone| - 1], gone[|gone| - 1];
      PairUpSame(base, disk, unread, unread', init, order);
      FirstMatchSame(base, disk, unread, unread', from, order, PairUp(base, disk, unread, init, order).Values);
    }
  }

  lemma {:induction false} FirstMatchSame(base: Base, disk: Disk, unread: Unread, unread': Unread, from: Path,
                                          order: seq<Path>, taken: set<Path>)
    requires forall c :: (from, c) in unread <==> (from, c) in unread'
    ensures FirstMatch(base, disk, unread, from, order, taken) == FirstMatch(base, disk, unread', from, order, taken)
    decreases |order|
  {
    if order != [] {
      FirstMatchSame(base, disk, unread, unread', from, order[1..], taken);
    }
  }

  /** The first `i` candidates are taken or do not match. */
  lemma {:induction false} FirstMatchFrom(base: Base, disk: Disk, unread: Unread, from: Path, order: seq<Path>,
                                          taken: set<Path>, i: nat)
    requires i <= |order| && forall k | 0 <= k < i :: order[k] in taken || !Matches(base, disk, unread, from, order[k])
    ensures FirstMatch(base, disk, unread, from, order, taken)
            == FirstMatch(base, disk, unread, from, order[i..], taken)
    decreases i
  {
    if i > 0 {
      assert order[1..][i - 1..] == order[i..];
      FirstMatchFrom(base, disk, unread, from, order[1..], taken, i - 1);
    }
  }

  lemma FewerMatch(base: Base, disk: Disk, unread: Unread, unread': Unread, from: Path)
    requires unread <= unread'
    ensures forall c | !Matches(base, disk, unread, from, c) :: !Matches(base, disk, unread', from, c)
  {
  }

  lemma FirstIsMatch(base: Base, disk: Disk, unread: Unread, from: Path, order: seq<Path>, taken: set<Path>)
    requires order != [] && order[0] !in taken && Matches(base, disk, unread, from, order[0])
    ensures FirstMatch(base, disk, unread, from, order, taken) == Some(order[0])
  {
  }

  lemma NothingToMatch(base: Base, disk: Disk, unread: Unread, from: Path, order: seq<Path>, taken: set<Path>)
    requires order == [] || (from in base && base[from].isDir)
    ensures FirstMatch(base, disk, unread, from, order, taken) == None
  {
  }

  // ----- inode first, content second

  predicate ListOf(s: seq<Path>, of: set<Path>) { NoRepeats(s) && Members(s) == of }

  predicate PairsWith(base: Base, disk: Disk, unread: Unread, gone: seq<Path>, order: seq<Path>, from: Path, c: Path) {
    var moves := PairUp(base, disk, unread, gone, order);
    from in moves && moves[from] == c
  }

  /** Whatever the order of rows and candidates, and whichever files cannot be read, the row of
  `from` is paired with `c`. */
  ghost predicate Sure(base: Base, disk: Disk, gone: set<Path>, candidates: set<Path>, from: Path, c: Path) {
    forall rows, order, unread | ListOf(rows, gone) && ListOf(order, candidates) ::
      PairsWith(base, disk, unread, rows, order, from, c)
  }

  /** Nothing else matches either of the two. */
  predicate Unrivalled(base: Base, disk: Disk, gone: set<Path>, candidates: set<Path>, from: Path, c: Path) {
    && (forall p | p in gone && p != from :: !Matches(base, disk, {}, p, c))
    && (forall d | d in candidates && d != c :: !Matches(base, disk, {}, from, d))
  }

  /** Without rivals a row gets the new file that has its inode. */
  lemma UnrivalledIsPaired(base: Base, disk: Disk, unread: Unread, gone: seq<Path>, order: seq<Path>, from: Path,
                           c: Path)
    requires NoRepeats(gone) && from in gone && c in order
    requires from in base && !base[from].isDir && IsFile(disk, c) && SameInode(base[from], disk[c])
    requires Unrivalled(base, disk, Members(gone), Members(order), from, c)
    ensures PairsWith(base, disk, unread, gone, order, from, c)
  {
    PairUpPairs(base, disk, unread, gone, order);
    PairUpMissesNothing(base, disk, unread, gone, order, from, c);
  }

  lemma {:induction false} ListExists(of: set<Path>) returns (s: seq<Path>)
    ensures ListOf(s, of)
    decreases |of|
  {
    if of == {} {
      s := [];
    } else {
      var x :| x in of;
      var rest := ListExists(of - {x});
      s := rest + [x];
      MembersMore(rest, x);
      assert forall i | 0 <= i < |rest| :: rest[i] in Members(rest);
      assert of - {x} + {x} == of;
    }
  }

  lemma ListWithFirst(of: set<Path>, x: Path) returns (s: seq<Path>)
    requires x in of
    ensures ListOf(s, of) && s != [] && s[0] == x
  {
    var rest := ListExists(of - {x});
    s := [x] + rest;
    assert forall i | 0 <= i < |rest| :: rest[i] in Members(rest);
    assert Members(s) == {x} + Members(rest);
  }

  /** The row that comes first gets the candidate that comes first, if it matches. */
  lemma FirstGetsFirst(base: Base, disk: Disk, gone: seq<Path>, order: seq<Path>)
    requires NoRepeats(gone) && gone != [] && order != [] && Matches(base, disk, {}, gone[0], order[0])
    ensures PairsWith(base, disk, {}, gone, order, gone[0], order[0])
  {
    assert gone[..1][..0] == [] && gone[..1] + gone[1..] == gone;
    assert PairUp(base, disk, {}, gone[..1], order) == map[gone[0] := order[0]];
    PairUpGrows(base, disk, {}, gone[..1], gone[1..], order);
  }

  /** A row is certain to be paired with the new file that has its inode if and only if no
  other vanished file matches that file, and no other new file matches the row. */
  lemma SureIffUnrivalled(base: Base, disk: Disk, gone: set<Path>, candidates: set<Path>, from: Path, c: Path)
    requires from in gone && from in base && !base[from].isDir
    requires c in candidates && IsFile(disk, c) && SameInode(base[from], disk[c])
    ensures Sure(base, disk, gone, candidates, from, c) <==> Unrivalled(base, disk, gone, candidates, from, c)
  {
    if Unrivalled(base, disk, gone, candidates, from, c) {
      forall rows, order, unread | ListOf(rows, gone) && ListOf(order, candidates)
        ensures PairsWith(base, disk, unread, rows, order, from, c)
      {
        UnrivalledIsPaired(base, disk, unread, rows, order, from, c);
      }
    }
    if p :| p in gone && p != from && Matches(base, disk, {}, p, c) {
      var rows := ListWithFirst(gone, p);
      var order := ListWithFirst(candidates, c);
      FirstGetsFirst(base, disk, rows, order);
      PairUpPairs(base, disk, {}, rows, order);
      assert !PairsWith(base, disk, {}, rows, order, from, c);
    }
    if d :| d in candidates && d != c && Matches(base, disk, {}, from, d) {
      var rows := ListWithFirst(gone, from);
      var order := ListWithFirst(candidates, d);
      FirstGetsFirst(base, disk, rows, order);
      assert !PairsWith(base, disk, {}, rows, order, from, c);
    }
  }

  // ----- the same with the rows in the order of a pass

  predicate LongestFirst(rows: seq<Path>) {
    forall i, j | 0 <= i < j < |rows| :: |rows[j]| <= |rows[i]|
  }

  /** As `Sure`, but rows with longer paths have their turn earlier. */
  ghost predicate SureInPass(base: Base, disk: Disk, gone: set<Path>, candidates: set<Path>, from: Path, c: Path) {
    forall rows, order, unread | ListOf(rows, gone) && LongestFirst(rows) && ListOf(order, candidates) ::
      PairsWith(base, disk, unread, rows, order, from, c)
  }

  /** Nothing that comes in time matches either of the two. */
  predicate UnrivalledInPass(base: Base, disk: Disk, gone: set<Path>, candidates: set<Path>, from: Path, c: Path) {
    && (forall p | p in gone && p != from && |p| >= |from| :: !Matches(base, disk, {}, p, c))
    && (forall d | d in candidates && d != c :: !Matches(base, disk, {}, from, d))
  }

  lemma {:induction false} LongestFirstList(of: set<Path>) returns (s: seq<Path>)
    ensures ListOf(s, of) && LongestFirst(s)
    decreases |of|
  {
    if of == {} {
      s := [];
    } else {
      var x := LongestExists(of);
      var rest := LongestFirstList(of - {x});
      s := [x] + rest;
      assert forall i | 0 <= i < |rest| :: rest[i] in Members(rest);
      assert Members(s) == {x} + Members(rest);
    }
  }

  /** Such an order in which only longer paths come before `x`. */
  lemma LongestFirstWith(of: set<Path>, x: Path) returns (s: seq<Path>, i: nat)
    requires x in of
    ensures ListOf(s, of) && LongestFirst(s) && i < |s| && s[i] == x && forall k | 0 <= k < i :: |s[k]| > |x|
  {
    var longer := set p | p in of && |p| > |x|;
    var first := LongestFirstList(longer);
    var last := LongestFirstList(of - longer - {x});
    s, i := first + [x] + last, |first|;
    assert forall k | 0 <= k < |first| :: first[k] in Members(first);
    assert forall k | 0 <= k < |last| :: last[k] in Members(last);
    assert Members(s) == Members(first) + {x} + Members(last);
  }

  /** What a row finds at its turn is what it keeps. */
  lemma AtItsTurn(base: Base, disk: Disk, unread: Unread, rows: seq<Path>, order: seq<Path>, i: nat)
    requires NoRepeats(rows) && i < |rows|
    ensures var before := PairUp(base, disk, unread, rows[..i], order);
      var c := FirstMatch(base, disk, unread, rows[i], order, before.Values);
      && Pairing(base, disk, Members(order), Members(rows[..i]), before)
      && (c.Some? ==> PairsWith(base, disk, unread, rows, order, rows[i], c.value))
      && forall p | p in before :: PairsWith(base, disk, unread, rows, order, p, before[p])
  {
    assert rows[..i + 1][..i] == rows[..i];
    assert rows[..i + 1] + rows[i + 1..] == rows && rows[..i] + rows[i..] == rows;
    PairUpPairs(base, disk, unread, rows[..i], order);
    PairUpGrows(base, disk, unread, rows[..i + 1], rows[i + 1..], order);
    PairUpGrows(base, disk, unread, rows[..i], rows[i..], order);
  }

  lemma UnrivalledInPassIsPaired(base: Base, disk: Disk, unread: Unread, rows: seq<Path>, order: seq<Path>, from: Path,
                                 c: Path)
    requires NoRepeats(rows) && LongestFirst(rows) && from in rows && c in order
    requires from in base && !base[from].isDir && IsFile(disk, c) && SameInode(base[from], disk[c])
    requires UnrivalledInPass(base, disk, Members(rows), Members(order), from, c)
    ensures PairsWith(base, disk, unread, rows, order, from, c)
  {
    var i :| 0 <= i < |rows| && rows[i] == from;
    AtItsTurn(base, disk, unread, rows, order, i);
    var before := PairUp(base, disk, unread, rows[..i], order);
    assert c !in before.Values by {
      assert forall p | p in rows[..i] :: p in Members(rows) && p != from && |p| >= |from|;
    }
    assert Matches(base, disk, unread, from, c);
    var d := FirstMatch(base, disk, unread, from, order, before.Values);
    assert d.value in Members(order) && Matches(base, disk, {}, from, d.value);
  }

  /** In a pass, too, if no vanished file with a longer path competes for the row's other
  matches. */
  lemma SureInPassIffUnrivalled(base: Base, disk: Disk, gone: set<Path>, candidates: set<Path>, from: Path, c: Path)
    requires from in gone && from in base && !base[from].isDir
    requires c in candidates && IsFile(disk, c) && SameInode(base[from], disk[c])
    requires forall p, d | p in gone && |p| > |from| && d in candidates && d != c && Matches(base, disk, {}, from, d) ::
               !Matches(base, disk, {}, p, d)
    ensures SureInPass(base, disk, gone, candidates, from, c)
            <==> UnrivalledInPass(base, disk, gone, candidates, from, c)
  {
    if UnrivalledInPass(base, disk, gone, candidates, from, c) {
      forall rows, order, unread | ListOf(rows, gone) && LongestFirst(rows) && ListOf(order, candidates)
        ensures PairsWith(base, disk, unread, rows, order, from, c)
      {
        UnrivalledInPassIsPaired(base, disk, unread, rows, order, from, c);
      }
    }
    if p :| p in gone && p != from && |p| >= |from| && Matches(base, disk, {}, p, c) {
      var rows, i := LongestFirstWith(gone, p);
      var order := ListWithFirst(candidates, c);
      RivalRowComesFirst(base, disk, rows, order, i, from);
      assert !PairsWith(base, disk, {}, rows, order, from, c);
    }
    if d :| d in candidates && d != c && Matches(base, disk, {}, from, d) {
      var rows, i := LongestFirstWith(gone, from);
      var order := ListWithFirst(candidates, d);
      AtItsTurn(base, disk, {}, rows, order, i);
      var before := PairUp(base, disk, {}, rows[..i], order);
      assert d !in before.Values by {
        assert forall p | p in rows[..i] :: p in Members(rows) && |p| > |from|;
      }
      assert !PairsWith(base, disk, {}, rows, order, from, c);
    }
  }

  /** A row that is no shorter may have its turn earlier, and then finds the file free or taken
  by yet another. */
  lemma RivalRowComesFirst(base: Base, disk: Disk, rows: seq<Path>, order: seq<Path>, i: nat, from: Path)
    requires NoRepeats(rows) && i < |rows| && from != rows[i] && |from| <= |rows[i]|
    requires forall k | 0 <= k < i :: |rows[k]| > |rows[i]|
    requires order != [] && Matches(base, disk, {}, rows[i], order[0])
    ensures !PairsWith(base, disk, {}, rows, order, from, order[0])
  {
    AtItsTurn(base, disk, {}, rows, order, i);
    var before := PairUp(base, disk, {}, rows[..i], order);
    PairUpPairs(base, disk, {}, rows, order);
    if order[0] in before.Values {
      var p :| p in before && before[p] == order[0];
      assert p in rows[..i];
      assert PairsWith(base, disk, {}, rows, order, p, before[p]);
    }
  }

  /** One vanished file, a new file with its inode and one with its bytes: which of the two is
  taken depends on the order in which they come. */
  lemma ContentMayComeFirst()
    ensures var row := Row("l", ROOT_LINK, false, Sum([1]), 1, 0, 5, true);
      var base, disk := map["old" := row], map["inode" := File([2], 0, 5), "bytes" := File([1], 0, 9)];
      && SameInode(row, disk["inode"])
      && PairUp(base, disk, {}, ["old"], ["bytes", "inode"]) == map["old" := "bytes"]
      && PairUp(base, disk, {}, ["old"], ["inode", "bytes"]) == map["old" := "inode"]
  {
    var row := Row("l", ROOT_LINK, false, Sum([1]), 1, 0, 5, true);
    var base, disk := map["old" := row], map["inode" := File([2], 0, 5), "bytes" := File([1], 0, 9)];
    assert ["old"][..0] == [];
    assert PairUp(base, disk, {}, [], ["bytes", "inode"]) == map[];
    assert Matches(base, disk, {}, "old", "bytes") && Matches(base, disk, {}, "old", "inode");
  }
}
