/** What an acquire can do and what it leaves behind: a free session is acquired in six moves, a taken lock turns
    the caller away, and a holder that drops its last handle or crashes leaves its session free. Together they
    say that every move the machine allows is possible where the program makes it. */
module LeaseProgress {
  import opened Wrappers
  import opened SessionLease

  /** The thread is outside `acquire`, its process has nobody to join at the path, and the lock file is absent or
      unlocked. */
  predicate Free(w: World, t: Tid, path: string) {
    && t !in w.pcs
    && (path in LeasesOf(w, t.proc) ==> !Live(w.entries, LeasesOf(w, t.proc)[path]))
    && (path in w.disk ==> w.disk[path] !in w.flocks)
  }

  /** An inode is free for the kernel to hand out exactly when no lock file, live entry or open descriptor has
      it; then no lock is on it. */
  lemma UnusedMeans(w: World, i: nat)
    ensures Unused(w, i) <==>
              && (forall p :: p in w.disk ==> w.disk[p] != i)
              && (forall e :: e in w.entries && w.entries[e].handles > 0 ==> w.entries[e].inode != i)
              && (forall t :: t in w.pcs && (w.pcs[t].Opened? || w.pcs[t].Locked? || w.pcs[t].Identified?) ==> w.pcs[t].inode != i)
    ensures Safe(w) && Unused(w, i) ==> i !in w.flocks
  {
    assert forall p :: p in w.disk ==> w.disk[p] in w.disk.Values;
    assert Safe(w) && i in w.flocks ==> Held(w, i, w.flocks[i]);
  }

  /** A free session is acquired: look, find nobody to join, open, lock, identify and register. Each step is
      possible after the one before, and the caller is out with an entry of its own that holds the lock of the
      inode behind the path. */
  lemma FreeSessionIsAcquired(w: World, t: Tid, path: string, i: nat, e: nat) returns (w1: World, w2: World, w3: World, w4: World, w5: World)
    requires Safe(w) && Free(w, t, path) && Unused(w, i) && e !in w.entries
    ensures Enabled(w, Stat(t, path)) && w1 == After(w, Stat(t, path))
    ensures Enabled(w1, Join(t)) && Returned(w1, Join(t)).None? && w2 == After(w1, Join(t))
    ensures Enabled(w2, Open(t, i)) && w3 == After(w2, Open(t, i))
    ensures Enabled(w3, Flock(t, false)) && w4 == After(w3, Flock(t, false))
    ensures Enabled(w4, Identify(t)) && w5 == After(w4, Identify(t))
    ensures Enabled(w5, Insert(t, e)) && Returned(w5, Insert(t, e)) == Some(e)
    ensures var v := After(w5, Insert(t, e));
            var inode := if path in w.disk then w.disk[path] else i;
            && e in v.entries && v.entries[e] == Entry(t.proc, path, inode, inode, 1)
            && OnDisk(v, path) == Some(inode) && inode in v.flocks && v.flocks[inode] == ByEntry(e)
            && path in LeasesOf(v, t.proc) && LeasesOf(v, t.proc)[path] == e && t !in v.pcs
  {
    var inode := if path in w.disk then w.disk[path] else i;
    UnusedMeans(w, i);
    w1, w2 := LooksAndMisses(w, t, path);
    w3 := After(w2, Open(t, i));
    w4, w5 := LocksAndRegisters(w3, t, path, inode, e);
  }

  lemma LooksAndMisses(w: World, t: Tid, path: string) returns (w1: World, w2: World)
    requires Free(w, t, path)
    ensures Enabled(w, Stat(t, path)) && w1 == After(w, Stat(t, path))
    ensures Enabled(w1, Join(t)) && Returned(w1, Join(t)).None? && w2 == After(w1, Join(t))
    ensures w2.disk == w.disk && w2.flocks == w.flocks && w2.entries == w.entries && w2.pcs == w.pcs[t := Wanting(path)]
    ensures forall i :: Unused(w, i) ==> Unused(w2, i)
  {
    w1 := After(w, Stat(t, path));
    w2 := After(w1, Join(t));
    assert w1.pcs[t := Wanting(path)] == w.pcs[t := Wanting(path)];
  }

  lemma LocksAndRegisters(w3: World, t: Tid, path: string, inode: nat, e: nat) returns (w4: World, w5: World)
    requires t in w3.pcs && w3.pcs[t] == Opened(path, inode) && OnDisk(w3, path) == Some(inode) && inode !in w3.flocks
    requires e !in w3.entries
    ensures Enabled(w3, Flock(t, false)) && w4 == After(w3, Flock(t, false))
    ensures Enabled(w4, Identify(t)) && w5 == After(w4, Identify(t))
    ensures Enabled(w5, Insert(t, e)) && Returned(w5, Insert(t, e)) == Some(e)
    ensures var v := After(w5, Insert(t, e));
            && e in v.entries && v.entries[e] == Entry(t.proc, path, inode, inode, 1)
            && OnDisk(v, path) == Some(inode) && inode in v.flocks && v.flocks[inode] == ByEntry(e)
            && path in LeasesOf(v, t.proc) && LeasesOf(v, t.proc)[path] == e && t !in v.pcs
  {
    w4 := After(w3, Flock(t, false));
    w5 := After(w4, Identify(t));
  }

  /** A caller that is handed an entry is out of `acquire`. */
  lemma ReturnedIsOut(w: World, m: Move)
    requires Enabled(w, m) && Returned(w, m).Some?
    ensures (m.Join? || m.Insert?) && m.t !in After(w, m).pcs
  {
  }

  /** A live entry's lock is free once its last handle is dropped; handles may be dropped and cloned as long as
      it lives. */
  lemma LastDropFrees(w: World, e: nat)
    requires Safe(w) && Live(w.entries, e)
    ensures Enabled(w, Drop(e)) && Enabled(w, Clone(e))
    ensures w.entries[e].handles == 1 ==> w.entries[e].inode !in After(w, Drop(e)).flocks && !Live(After(w, Drop(e)).entries, e)
  {
  }

  /** A process may crash at any moment: its threads, its registry and its locks are gone, its entries are dead,
      and nothing else changes. */
  lemma CrashFrees(w: World, proc: nat)
    requires Safe(w)
    ensures Enabled(w, Crash(proc))
    ensures var v := After(w, Crash(proc));
            && v.disk == w.disk && proc !in v.registry && v.registry == w.registry - {proc}
            && (forall t :: t in v.pcs <==> t in w.pcs && t.proc != proc)
            && (forall t :: t in v.pcs ==> v.pcs[t] == w.pcs[t])
            && (forall e :: e in v.entries && v.entries[e].proc == proc ==> !Live(v.entries, e))
            && (forall e :: e in w.entries && w.entries[e].proc != proc ==> e in v.entries && v.entries[e] == w.entries[e])
            && (forall i :: i in v.flocks <==> i in w.flocks && !OwnedBy(w, w.flocks[i], proc))
            && (forall i :: i in v.flocks ==> v.flocks[i] == w.flocks[i])
  {
    forall i | i in w.flocks ensures InProc(w, w.flocks[i], proc) <==> OwnedBy(w, w.flocks[i], proc) {
      assert Held(w, i, w.flocks[i]);
    }
  }

  predicate OwnedBy(w: World, h: Holder, proc: nat) {
    if h.ByThread? then h.t.proc == proc else h.e in w.entries && w.entries[h.e].proc == proc
  }

  /** A lock that is taken turns a caller away, for another try or for good. */
  lemma TakenLockTurnsAway(w: World, t: Tid, giveUp: bool)
    requires Enabled(w, Flock(t, giveUp)) && w.pcs[t].inode in w.flocks
    ensures var v := After(w, Flock(t, giveUp));
            && v == w.(pcs := v.pcs) && v.pcs == w.pcs[t := v.pcs[t]]
            && v.pcs[t] == (if giveUp then GaveUp(w.pcs[t].path) else Wanting(w.pcs[t].path))
            && (giveUp ==> Enabled(v, StatAgain(t)) && Enabled(After(v, StatAgain(t)), Join(t)))
            && (!giveUp ==> Enabled(v, IoError(t)) && t !in After(v, IoError(t)).pcs
                            && forall i :: Unused(v, i) ==> Enabled(v, Open(t, i)))
  {
  }

  /** A lock file may be unlinked at any moment. */
  lemma UnlinkRemoves(w: World, path: string)
    requires path in w.disk
    ensures Enabled(w, Unlink(path)) && After(w, Unlink(path)) == w.(disk := w.disk - {path})
  {
  }
}
