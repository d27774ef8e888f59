/** The strong references to a lease entry, counted by the moves that give one out and take one back: the lock
    lives exactly as long as one is outstanding. */
module LeaseHandles {
  import opened Wrappers
  import opened SessionLease

  /** The references to an entry after a move that found `n`: an acquire that returns the entry and a clone give
      one out, a drop takes one back, and the crash of its process takes them all. */
  function Outstanding(w: World, m: Move, e: nat, n: int): int
    requires Enabled(w, m)
  {
    match m
    case Clone(f) => if f == e then n + 1 else n
    case Drop(f) => if f == e then n - 1 else n
    case Crash(proc) => if e in w.entries && w.entries[e].proc == proc then 0 else n
    case _ => if Returned(w, m) == Some(e) then n + 1 else n
  }

  /** And after a whole run. */
  function OutstandingAfter(w: World, moves: seq<Move>, e: nat, n: int): int
    requires ValidMoves(w, moves)
    decreases |moves|
  {
    if moves == [] then n else OutstandingAfter(After(w, moves[0]), moves[1..], e, Outstanding(w, moves[0], e, n))
  }

  function HandlesOf(w: World, e: nat): int {
    if e in w.entries then w.entries[e].handles else 0
  }

  lemma MoveCounts(w: World, m: Move, e: nat)
    requires Enabled(w, m) && RegistryOk(w)
    ensures HandlesOf(After(w, m), e) == Outstanding(w, m, e, HandlesOf(w, e))
  {
  }

  lemma {:induction false} RunCounts(w: World, moves: seq<Move>, e: nat)
    requires Safe(w) && ValidMoves(w, moves)
    ensures HandlesOf(Play(w, moves), e) == OutstandingAfter(w, moves, e, HandlesOf(w, e))
    decreases |moves|
  {
    if moves == [] {
    } else {
      MoveCounts(w, moves[0], e);
      OneMoveIsSafe(w, moves[0]);
      RunCounts(After(w, moves[0]), moves[1..], e);
    }
  }

  lemma OneMoveIsSafe(w: World, m: Move)
    requires Safe(w) && Enabled(w, m)
    ensures Safe(After(w, m))
  {
    assert [m][1..] == [];
    assert ValidMoves(w, [m]) && Play(w, [m]) == After(w, m) by {
      assert ValidMoves(After(w, m), []) && Play(After(w, m), []) == After(w, m);
    }
    EveryRunIsSafe(w, [m]);
  }

  /** An entry's process, path and inode never change. */
  predicate SameEntry(w: World, v: World, e: nat)
    requires e in w.entries
  {
    && e in v.entries && v.entries[e].proc == w.entries[e].proc && v.entries[e].path == w.entries[e].path
    && v.entries[e].inode == w.entries[e].inode && v.entries[e].fileId == w.entries[e].fileId
  }

  lemma {:induction false} EntryStays(w: World, moves: seq<Move>, e: nat)
    requires e in w.entries && ValidMoves(w, moves)
    ensures SameEntry(w, Play(w, moves), e)
    decreases |moves|
  {
    if moves == [] {
    } else {
      assert SameEntry(w, After(w, moves[0]), e);
      EntryStays(After(w, moves[0]), moves[1..], e);
    }
  }

  /** Over every run from boot, the references to an entry are those given out and not yet taken back; while
      there is one the entry holds the lock of its inode, and when there is none nothing holds it in its
      name. */
  lemma LockLivesWithItsHandles(disk: map<string, nat>, moves: seq<Move>, e: nat)
    requires Injective(disk) && ValidMoves(Boot(disk), moves)
    ensures var w := Play(Boot(disk), moves);
            && HandlesOf(w, e) == OutstandingAfter(Boot(disk), moves, e, 0)
            && (OutstandingAfter(Boot(disk), moves, e, 0) > 0 ==>
                  e in w.entries && w.entries[e].inode in w.flocks && w.flocks[w.entries[e].inode] == ByEntry(e))
            && (OutstandingAfter(Boot(disk), moves, e, 0) <= 0 ==> forall i :: i in w.flocks ==> w.flocks[i] != ByEntry(e))
  {
    EveryRunIsSafe(Boot(disk), moves);
    RunCounts(Boot(disk), moves, e);
  }

  /** A handle fences its inode until it is dropped: from any safe state in which an entry is held, every run
      that leaves a reference outstanding leaves the lock on the same inode with the same entry. */
  lemma HandleFencesUntilDropped(w: World, moves: seq<Move>, e: nat)
    requires Safe(w) && ValidMoves(w, moves) && e in w.entries
    requires OutstandingAfter(w, moves, e, HandlesOf(w, e)) > 0
    ensures var v := Play(w, moves);
            w.entries[e].inode in v.flocks && v.flocks[w.entries[e].inode] == ByEntry(e)
  {
    RunCounts(w, moves, e);
    EntryStays(w, moves, e);
    EveryRunIsSafe(w, moves);
  }
}
