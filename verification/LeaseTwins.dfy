/** Two threads of one process that acquire a lease on a path without a lock file: one run from boot, without
    unlinks or crashes, in which the second retires the first one's lease and is turned away although its own
    process holds the session. */
module LeaseTwins {
  import opened Wrappers
  import opened SessionLease

  /** Both twins have looked at a path without a lock file, and the second found no entry to join. */
  function TwinsLooked(path: string, a: Tid, b: Tid): World {
    World(map[], map[], map[a := Looked(path, None, false), b := Wanting(path)], map[b.proc := map[]], map[])
  }

  /** The second twin has its lease; the first still believes there is no lock file. */
  function TwinLeased(path: string, a: Tid, b: Tid, i: nat, e: nat): World {
    World(map[path := i], map[i := ByEntry(e)], map[a := Looked(path, None, false)], map[b.proc := map[path := e]],
          map[e := Entry(b.proc, path, i, i, 1)])
  }

  lemma TwinsLook(path: string, a: Tid, b: Tid)
    requires a != b
    ensures var moves := [Stat(a, path), Stat(b, path), Join(b)];
            QuietMoves(Boot(map[]), moves) && ValidMoves(Boot(map[]), moves) && Play(Boot(map[]), moves) == TwinsLooked(path, a, b)
  {
    var moves := [Stat(a, path), Stat(b, path), Join(b)];
    var look := Looked(path, None, false);
    var w1 := World(map[], map[], map[a := look], map[], map[]);
    var w2 := World(map[], map[], map[a := look, b := look], map[], map[]);
    Prepend(w2, Join(b), TwinsLooked(path, a, b), []);
    assert moves[2..] == [Join(b)] && moves[1..] == [Stat(b, path)] + moves[2..] && moves == [Stat(a, path)] + moves[1..];
    Prepend(w1, Stat(b, path), w2, moves[2..]);
    Prepend(Boot(map[]), Stat(a, path), w1, moves[1..]);
  }

  function TwinLocked(path: string, a: Tid, b: Tid, i: nat): World {
    World(map[path := i], map[i := ByThread(b)], map[a := Looked(path, None, false), b := Locked(path, i)],
          map[b.proc := map[]], map[])
  }

  lemma TwinLocks(path: string, a: Tid, b: Tid, i: nat)
    requires a != b
    ensures var moves := [Open(b, i), Flock(b, false)];
            var w := TwinsLooked(path, a, b);
            QuietMoves(w, moves) && ValidMoves(w, moves) && Play(w, moves) == TwinLocked(path, a, b, i)
  {
    var w := TwinsLooked(path, a, b);
    var w4 := w.(disk := map[path := i], pcs := map[a := Looked(path, None, false), b := Opened(path, i)]);
    Prepend(w4, Flock(b, false), TwinLocked(path, a, b, i), []);
    Prepend(w, Open(b, i), w4, [Flock(b, false)]);
    assert [Open(b, i)] + [Flock(b, false)] == [Open(b, i), Flock(b, false)];
  }

  lemma TwinTakesLease(path: string, a: Tid, b: Tid, i: nat, e: nat)
    requires a != b
    ensures var moves := [Identify(b), Insert(b, e)];
            var w := TwinLocked(path, a, b, i);
            QuietMoves(w, moves) && ValidMoves(w, moves) && Play(w, moves) == TwinLeased(path, a, b, i, e)
  {
    var w := TwinLocked(path, a, b, i);
    var w6 := w.(pcs := map[a := Looked(path, None, false), b := Identified(path, i, i)]);
    Prepend(w6, Insert(b, e), TwinLeased(path, a, b, i, e), []);
    Prepend(w, Identify(b), w6, [Insert(b, e)]);
    assert [Identify(b)] + [Insert(b, e)] == [Identify(b), Insert(b, e)];
  }

  /** The retiring thread looks for the last time: its own process holds the lease, but no entry tells it. */
  function TwinRefused(path: string, a: Tid, b: Tid, i: nat, e: nat): World {
    World(map[path := i], map[i := ByEntry(e)], map[a := Looked(path, Some(i), true)], map[b.proc := map[]],
          map[e := Entry(b.proc, path, i, i, 1)])
  }

  lemma TwinOpens(path: string, a: Tid, b: Tid, i: nat, j: nat, e: nat)
    requires i != j
    ensures var w := TwinRefused(path, a, b, i, e).(pcs := map[a := Wanting(path)]);
            Enabled(w, Open(a, j)) && After(w, Open(a, j)) == w.(pcs := map[a := Opened(path, i)])
  {
  }

  lemma TwinGivesUp(path: string, a: Tid, b: Tid, i: nat, j: nat, e: nat)
    requires a != b && a.proc == b.proc && i != j
    ensures var moves := [Join(a), Open(a, j)];
            var w := TwinLeased(path, a, b, i, e);
            && QuietMoves(w, moves) && ValidMoves(w, moves)
            && Play(w, moves) == TwinRefused(path, a, b, i, e).(pcs := map[a := Opened(path, i)])
  {
    var w := TwinLeased(path, a, b, i, e);
    var w8 := TwinRefused(path, a, b, i, e).(pcs := map[a := Wanting(path)]);
    var w9 := w8.(pcs := map[a := Opened(path, i)]);
    TwinOpens(path, a, b, i, j, e);
    Prepend(w8, Open(a, j), w9, []);
    Prepend(w, Join(a), w8, [Open(a, j)]);
    assert [Join(a)] + [Open(a, j)] == [Join(a), Open(a, j)];
  }

  lemma TwinLooksAgain(path: string, a: Tid, b: Tid, i: nat, e: nat)
    ensures var moves := [Flock(a, true), StatAgain(a)];
            var w := TwinRefused(path, a, b, i, e).(pcs := map[a := Opened(path, i)]);
            QuietMoves(w, moves) && ValidMoves(w, moves) && Play(w, moves) == TwinRefused(path, a, b, i, e)
  {
    var w := TwinRefused(path, a, b, i, e).(pcs := map[a := Opened(path, i)]);
    var w10 := w.(pcs := map[a := GaveUp(path)]);
    Prepend(w10, StatAgain(a), TwinRefused(path, a, b, i, e), []);
    Prepend(w, Flock(a, true), w10, [StatAgain(a)]);
    assert [Flock(a, true)] + [StatAgain(a)] == [Flock(a, true), StatAgain(a)];
  }

  function TwinRun(path: string, a: Tid, b: Tid, i: nat, j: nat, e: nat): seq<Move> {
    [Stat(a, path), Stat(b, path), Join(b)] + [Open(b, i), Flock(b, false)] + [Identify(b), Insert(b, e)]
    + [Join(a), Open(a, j)] + [Flock(a, true), StatAgain(a)]
  }

  /** One run from boot, without any unlink or crash: two threads of one process acquire a lease on a path
      that has no lock file yet. One gets it; the other's outdated reading retires the entry, its flock fails,
      and its last look finds nothing to join: it reports the session held elsewhere while its own process
      holds the only lease. */
  lemma TwinIsTurnedAway(path: string, a: Tid, b: Tid, i: nat, j: nat, e: nat)
    requires a != b && a.proc == b.proc && i != j
    ensures var moves := TwinRun(path, a, b, i, j, e);
            && QuietMoves(Boot(map[]), moves) && ValidMoves(Boot(map[]), moves)
            && var w := Play(Boot(map[]), moves);
            && Enabled(w, Join(a)) && w.pcs[a] == Looked(path, Some(i), true)
            && Returned(w, Join(a)).None? && a !in After(w, Join(a)).pcs
            && Live(After(w, Join(a)).entries, e) && w.entries[e].proc == a.proc && w.entries[e].path == path
  {
    var looks, locks := [Stat(a, path), Stat(b, path), Join(b)], [Open(b, i), Flock(b, false)];
    var takes, gives, again := [Identify(b), Insert(b, e)], [Join(a), Open(a, j)], [Flock(a, true), StatAgain(a)];
    var boot := Boot(map[]);
    TwinsLook(path, a, b);
    TwinLocks(path, a, b, i);
    PlayConcat(boot, looks, locks);
    TwinTakesLease(path, a, b, i, e);
    PlayConcat(boot, looks + locks, takes);
    TwinGivesUp(path, a, b, i, j, e);
    PlayConcat(boot, looks + locks + takes, gives);
    TwinLooksAgain(path, a, b, i, e);
    PlayConcat(boot, looks + locks + takes + gives, again);
    LastLookFindsNothing(path, a, b, i, e);
  }

  lemma LastLookFindsNothing(path: string, a: Tid, b: Tid, i: nat, e: nat)
    requires a.proc == b.proc
    ensures var w := TwinRefused(path, a, b, i, e);
            && Enabled(w, Join(a)) && w.pcs[a] == Looked(path, Some(i), true)
            && Returned(w, Join(a)).None? && a !in After(w, Join(a)).pcs
            && Live(After(w, Join(a)).entries, e) && w.entries[e].proc == a.proc && w.entries[e].path == path
  {
  }

  lemma {:induction false} PlayConcat(w: World, a: seq<Move>, b: seq<Move>)
    requires QuietMoves(w, a) && ValidMoves(w, a)
    requires QuietMoves(Play(w, a), b) && ValidMoves(Play(w, a), b)
    ensures QuietMoves(w, a + b) && ValidMoves(w, a + b) && Play(w, a + b) == Play(Play(w, a), b)
    decreases |a|
  {
    if a == [] {
      assert a + b == b;
    } else {
      assert (a + b)[0] == a[0] && (a + b)[1..] == a[1..] + b;
      PlayConcat(After(w, a[0]), a[1..], b);
    }
  }

  lemma Prepend(w: World, m: Move, v: World, rest: seq<Move>)
    requires Enabled(w, m) && !m.Unlink? && After(w, m) == v && QuietMoves(v, rest) && ValidMoves(v, rest)
    ensures QuietMoves(w, [m] + rest) && ValidMoves(w, [m] + rest) && Play(w, [m] + rest) == Play(v, rest)
  {
    assert ([m] + rest)[1..] == rest;
  }
}
