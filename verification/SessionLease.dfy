/** Per-session write leases: exclusive flocks over a sibling lock file, shared within a process through a registry
    of weak entries. Every system call and every registry section is one atomic move of some thread. */
module SessionLease {
  import opened Wrappers

  /** A lease entry. `inode` is the inode its descriptor locked, `fileId` the identity read back from
      the path, `handles` the strong references left; the lock dies with the last one. */
  datatype Entry = Entry(proc: nat, path: string, inode: nat, fileId: nat, handles: nat)

  datatype Tid = Tid(proc: nat, thread: nat)

  /** Where a thread stands inside `acquire`; a thread not listed is outside it. */
  datatype Pc =
    | Looked(path: string, onDisk: Option<nat>, last: bool)
    | Wanting(path: string)
    | Opened(path: string, inode: nat)
    | GaveUp(path: string)
    | Locked(path: string, inode: nat)
    | Identified(path: string, inode: nat, fileId: nat)

  datatype Holder = ByThread(t: Tid) | ByEntry(e: nat)

  type Leases = map<string, nat>

  datatype World = World(
    disk: map<string, nat>,
    flocks: map<nat, Holder>,
    pcs: map<Tid, Pc>,
    registry: map<nat, Leases>,
    entries: map<nat, Entry>)

  predicate Live(entries: map<nat, Entry>, e: nat) {
    e in entries && entries[e].handles > 0
  }

  function OnDisk(w: World, path: string): Option<nat> {
    if path in w.disk then Some(w.disk[path]) else None
  }

  function LeasesOf(w: World, proc: nat): Leases {
    if proc in w.registry then w.registry[proc] else map[]
  }

  datatype JoinResult = JoinResult(leases: Leases, joined: Option<nat>)

  /** The registry half of `join_live`: join a live entry whose inode matches what the caller read from
      disk, retire a live one that does not, and leave a dead one to be replaced. */
  function JoinLive(leases: Leases, entries: map<nat, Entry>, path: string, onDisk: Option<nat>): JoinResult {
    if path !in leases || !Live(entries, leases[path]) then JoinResult(leases, None)
    else if Some(entries[leases[path]].fileId) == onDisk then JoinResult(leases, Some(leases[path]))
    else JoinResult(leases - {path}, None)
  }

  /** A process's registry object. */
  class LeaseTable {
    var leases: Leases

    constructor ()
      ensures leases == map[]
    {
      leases := map[];
    }

    method Join(entries: map<nat, Entry>, path: string, onDisk: Option<nat>) returns (joined: Option<nat>)
      modifies this
      ensures JoinResult(leases, joined) == JoinLive(old(leases), entries, path, onDisk)
    {
      if path in leases && Live(entries, leases[path]) {
        var entry := leases[path];
        if Some(entries[entry].fileId) == onDisk { return Some(entry); }
        leases := leases - {path};
      }
      return None;
    }

    method Insert(path: string, entry: nat)
      modifies this
      ensures leases == old(leases)[path := entry]
    {
      leases := leases[path := entry];
    }
  }

  // ----- moves

  datatype Move =
    | Stat(t: Tid, path: string)
    | Join(t: Tid)
    | Open(t: Tid, inode: nat)
    | Flock(t: Tid, giveUp: bool)
    | StatAgain(t: Tid)
    | IoError(t: Tid)
    | Identify(t: Tid)
    | Insert(t: Tid, e: nat)
    | Clone(e: nat)
    | Drop(e: nat)
    | Crash(proc: nat)
    | Unlink(path: string)

  predicate HoldsInode(pc: Pc) {
    pc.Opened? || pc.Locked? || pc.Identified?
  }

  predicate HoldsLock(pc: Pc) {
    pc.Locked? || pc.Identified?
  }

  /** No link and no open descriptor refers to the inode, so the kernel may hand it out. */
  predicate Unused(w: World, i: nat) {
    && i !in w.disk.Values
    && (forall e :: e in w.entries && Live(w.entries, e) ==> w.entries[e].inode != i)
    && (forall t :: t in w.pcs && HoldsInode(w.pcs[t]) ==> w.pcs[t].inode != i)
  }

  predicate Enabled(w: World, m: Move) {
    match m
    case Stat(t, _) => t !in w.pcs
    case Join(t) => t in w.pcs && w.pcs[t].Looked?
    case Open(t, i) => t in w.pcs && w.pcs[t].Wanting? && Unused(w, i)
    case Flock(t, _) => t in w.pcs && w.pcs[t].Opened?
    case StatAgain(t) => t in w.pcs && w.pcs[t].GaveUp?
    case IoError(t) => t in w.pcs && w.pcs[t].Wanting?
    case Identify(t) => t in w.pcs && w.pcs[t].Locked?
    case Insert(t, e) => t in w.pcs && w.pcs[t].Identified? && e !in w.entries
    case Clone(e) => Live(w.entries, e)
    case Drop(e) => Live(w.entries, e)
    case Crash(_) => true
    case Unlink(path) => path in w.disk
  }

  function AfterJoin(w: World, t: Tid): World
    requires Enabled(w, Join(t))
  {
    var pc := w.pcs[t];
    var r := JoinLive(LeasesOf(w, t.proc), w.entries, pc.path, pc.onDisk);
    var w1 := w.(registry := w.registry[t.proc := r.leases]);
    if r.joined.Some? then
      var e := r.joined.value;
      w1.(entries := w.entries[e := w.entries[e].(handles := w.entries[e].handles + 1)], pcs := w.pcs - {t})
    else if pc.last then w1.(pcs := w.pcs - {t})
    else w1.(pcs := w.pcs[t := Wanting(pc.path)])
  }

  function AfterDrop(w: World, e: nat): World
    requires Enabled(w, Drop(e))
  {
    var entry := w.entries[e];
    w.(entries := w.entries[e := entry.(handles := entry.handles - 1)],
       flocks := if entry.handles == 1 then w.flocks - {entry.inode} else w.flocks)
  }

  predicate InProc(w: World, h: Holder, proc: nat) {
    match h
    case ByThread(t) => t.proc == proc
    case ByEntry(e) => e in w.entries && w.entries[e].proc == proc
  }

  function AfterCrash(w: World, proc: nat): World {
    w.(pcs := map t | t in w.pcs && t.proc != proc :: w.pcs[t],
       registry := w.registry - {proc},
       entries := map e | e in w.entries ::
                    if w.entries[e].proc == proc then w.entries[e].(handles := 0) else w.entries[e],
       flocks := map i | i in w.flocks && !InProc(w, w.flocks[i], proc) :: w.flocks[i])
  }

  function AfterInsert(w: World, t: Tid, e: nat): World
    requires Enabled(w, Insert(t, e))
  {
    var pc := w.pcs[t];
    w.(entries := w.entries[e := Entry(t.proc, pc.path, pc.inode, pc.fileId, 1)],
       registry := w.registry[t.proc := LeasesOf(w, t.proc)[pc.path := e]],
       flocks := w.flocks[pc.inode := ByEntry(e)],
       pcs := w.pcs - {t})
  }

  function After(w: World, m: Move): World
    requires Enabled(w, m)
  {
    match m
    case Stat(t, path) => w.(pcs := w.pcs[t := Looked(path, OnDisk(w, path), false)])
    case Join(t) => AfterJoin(w, t)
    case Open(t, i) =>
      var path := w.pcs[t].path;
      var inode := if path in w.disk then w.disk[path] else i;
      w.(disk := w.disk[path := inode], pcs := w.pcs[t := Opened(path, inode)])
    case Flock(t, giveUp) =>
      var pc := w.pcs[t];
      if pc.inode !in w.flocks then w.(flocks := w.flocks[pc.inode := ByThread(t)], pcs := w.pcs[t := Locked(pc.path, pc.inode)])
      else w.(pcs := w.pcs[t := if giveUp then GaveUp(pc.path) else Wanting(pc.path)])
    case StatAgain(t) => w.(pcs := w.pcs[t := Looked(w.pcs[t].path, OnDisk(w, w.pcs[t].path), true)])
    case IoError(t) => w.(pcs := w.pcs - {t})
    case Identify(t) =>
      var pc := w.pcs[t];
      if pc.path in w.disk then w.(pcs := w.pcs[t := Identified(pc.path, pc.inode, w.disk[pc.path])])
      else w.(pcs := w.pcs - {t}, flocks := w.flocks - {pc.inode})
    case Insert(t, e) => AfterInsert(w, t, e)
    case Clone(e) => w.(entries := w.entries[e := w.entries[e].(handles := w.entries[e].handles + 1)])
    case Drop(e) => AfterDrop(w, e)
    case Crash(proc) => AfterCrash(w, proc)
    case Unlink(path) => w.(disk := w.disk - {path})
  }

  /** The entry a move hands to its caller, if any. */
  function Returned(w: World, m: Move): Option<nat>
    requires Enabled(w, m)
  {
    match m
    case Join(t) => JoinLive(LeasesOf(w, t.proc), w.entries, w.pcs[t].path, w.pcs[t].onDisk).joined
    case Insert(_, e) => Some(e)
    case _ => None
  }

  predicate ValidMoves(w: World, moves: seq<Move>)
    decreases |moves|
  {
    moves != [] ==> Enabled(w, moves[0]) && ValidMoves(After(w, moves[0]), moves[1..])
  }

  function Play(w: World, moves: seq<Move>): World
    requires ValidMoves(w, moves)
    decreases |moves|
  {
    if moves == [] then w else Play(After(w, moves[0]), moves[1..])
  }

  /** Any lock files may already be on disk; nobody runs yet. */
  function Boot(disk: map<string, nat>): World {
    World(disk, map[], map[], map[], map[])
  }

  // ----- what every interleaving keeps

  predicate Injective(disk: map<string, nat>) {
    forall p, q :: p in disk && q in disk && disk[p] == disk[q] ==> p == q
  }

  /** Every live entry and every thread past its flock holds the lock of its inode. */
  predicate LocksHeld(w: World) {
    && (forall e :: e in w.entries && Live(w.entries, e) ==>
          w.entries[e].inode in w.flocks && w.flocks[w.entries[e].inode] == ByEntry(e))
    && (forall t :: t in w.pcs && HoldsLock(w.pcs[t]) ==>
          w.pcs[t].inode in w.flocks && w.flocks[w.pcs[t].inode] == ByThread(t))
  }

  predicate Held(w: World, i: nat, h: Holder) {
    match h
    case ByEntry(e) => Live(w.entries, e) && w.entries[e].inode == i
    case ByThread(t) => t in w.pcs && HoldsLock(w.pcs[t]) && w.pcs[t].inode == i
  }

  /** And no lock is held by anything else: none leaks. */
  predicate NoLeaks(w: World) {
    forall i :: i in w.flocks ==> Held(w, i, w.flocks[i])
  }

  predicate RegistryOk(w: World) {
    forall p, path :: p in w.registry && path in w.registry[p] ==>
      var e := w.registry[p][path];
      e in w.entries && w.entries[e].proc == p && w.entries[e].path == path
  }

  predicate Safe(w: World) {
    Injective(w.disk) && LocksHeld(w) && NoLeaks(w) && RegistryOk(w)
  }

  predicate LocksExact(w: World) {
    LocksHeld(w) && NoLeaks(w)
  }

  lemma JoinKeepsLocks(w: World, t: Tid)
    requires LocksExact(w) && Enabled(w, Join(t))
    ensures LocksExact(AfterJoin(w, t))
  {
    var v := AfterJoin(w, t);
    forall e | e in v.entries && Live(v.entries, e)
      ensures v.entries[e].inode in v.flocks && v.flocks[v.entries[e].inode] == ByEntry(e)
    {
      assert Live(w.entries, e) && v.entries[e].inode == w.entries[e].inode;
    }
  }

  lemma InsertKeepsLocks(w: World, t: Tid, e: nat)
    requires LocksExact(w) && Enabled(w, Insert(t, e))
    ensures LocksExact(AfterInsert(w, t, e))
  {
  }

  lemma DropKeepsLocks(w: World, e: nat)
    requires LocksExact(w) && Enabled(w, Drop(e))
    ensures LocksExact(AfterDrop(w, e))
  {
  }

  lemma CrashKeepsLocks(w: World, proc: nat)
    requires LocksExact(w)
    ensures LocksExact(AfterCrash(w, proc))
  {
  }

  lemma FlockKeepsLocks(w: World, t: Tid, giveUp: bool)
    requires LocksExact(w) && Enabled(w, Flock(t, giveUp))
    ensures LocksExact(After(w, Flock(t, giveUp)))
  {
    if w.pcs[t].inode in w.flocks { SameLocks(w, After(w, Flock(t, giveUp))); }
  }

  lemma IdentifyKeepsLocks(w: World, t: Tid)
    requires LocksExact(w) && Enabled(w, Identify(t))
    ensures LocksExact(After(w, Identify(t)))
  {
  }

  lemma CloneKeepsLocks(w: World, e: nat)
    requires LocksExact(w) && Enabled(w, Clone(e))
    ensures LocksExact(After(w, Clone(e)))
  {
  }

  /** Threads may move between lock-free positions and the disk may change without touching locks. */
  lemma SameLocks(w: World, v: World)
    requires LocksExact(w) && v.entries == w.entries && v.flocks == w.flocks
    requires forall t :: t in v.pcs && HoldsLock(v.pcs[t]) ==> t in w.pcs && w.pcs[t] == v.pcs[t]
    requires forall t :: t in w.pcs && HoldsLock(w.pcs[t]) ==> t in v.pcs && w.pcs[t] == v.pcs[t]
    ensures LocksExact(v)
  {
  }

  lemma MoveKeepsLocks(w: World, m: Move)
    requires LocksExact(w) && Enabled(w, m)
    ensures LocksExact(After(w, m))
  {
    match m {
      case Join(t) => JoinKeepsLocks(w, t);
      case Insert(t, e) => InsertKeepsLocks(w, t, e);
      case Drop(e) => DropKeepsLocks(w, e);
      case Crash(proc) => CrashKeepsLocks(w, proc);
      case Flock(t, giveUp) => FlockKeepsLocks(w, t, giveUp);
      case Identify(t) => IdentifyKeepsLocks(w, t);
      case Clone(e) => CloneKeepsLocks(w, e);
      case Stat(_, _) => SameLocks(w, After(w, m));
      case Open(_, _) => SameLocks(w, After(w, m));
      case StatAgain(_) => SameLocks(w, After(w, m));
      case IoError(_) => SameLocks(w, After(w, m));
      case Unlink(_) => SameLocks(w, After(w, m));
    }
  }

  lemma JoinKeepsRegistry(w: World, t: Tid)
    requires RegistryOk(w) && Enabled(w, Join(t))
    ensures RegistryOk(AfterJoin(w, t))
  {
  }

  lemma InsertKeepsRegistry(w: World, t: Tid, e: nat)
    requires RegistryOk(w) && Enabled(w, Insert(t, e))
    ensures RegistryOk(AfterInsert(w, t, e))
  {
  }

  lemma MoveKeepsRegistry(w: World, m: Move)
    requires RegistryOk(w) && Enabled(w, m)
    ensures RegistryOk(After(w, m))
  {
    match m {
      case Join(t) => JoinKeepsRegistry(w, t);
      case Insert(t, e) => InsertKeepsRegistry(w, t, e);
      case _ =>
    }
  }

  /** Safety over every interleaving of any number of processes and threads, crashes and unlinks of the
      lock file at any moment included. */
  lemma {:induction false} EveryRunIsSafe(w: World, moves: seq<Move>)
    requires Safe(w) && ValidMoves(w, moves)
    ensures Safe(Play(w, moves))
    decreases |moves|
  {
    if moves == [] {
    } else {
      MoveKeepsLocks(w, moves[0]);
      MoveKeepsRegistry(w, moves[0]);
      EveryRunIsSafe(After(w, moves[0]), moves[1..]);
    }
  }

  /** Mutual exclusion: no two live lease entries, of whatever processes, fence the same inode, and
      while one does no acquire in flight holds that inode's lock. */
  lemma MutualExclusion(disk: map<string, nat>, moves: seq<Move>, e: nat)
    requires Injective(disk) && ValidMoves(Boot(disk), moves)
    requires Live(Play(Boot(disk), moves).entries, e)
    ensures var w := Play(Boot(disk), moves);
            && (forall f :: f in w.entries && Live(w.entries, f) && w.entries[f].inode == w.entries[e].inode ==> f == e)
            && (forall t :: t in w.pcs && HoldsLock(w.pcs[t]) ==> w.pcs[t].inode != w.entries[e].inode)
  {
    EveryRunIsSafe(Boot(disk), moves);
  }

  // ----- runs in which the lock file is unlinked only between acquires

  predicate InFlight(w: World, path: string) {
    exists t :: t in w.pcs && w.pcs[t].path == path
  }

  predicate QuietMoves(w: World, moves: seq<Move>)
    decreases |moves|
  {
    moves != [] ==>
      && Enabled(w, moves[0])
      && (moves[0].Unlink? ==> !InFlight(w, moves[0].path))
      && QuietMoves(After(w, moves[0]), moves[1..])
  }

  lemma {:induction false} QuietIsValid(w: World, moves: seq<Move>)
    requires QuietMoves(w, moves)
    ensures ValidMoves(w, moves)
    decreases |moves|
  {
    if moves == [] {
    } else {
      QuietIsValid(After(w, moves[0]), moves[1..]);
    }
  }

  /** What an acquire in flight has learned is still so. */
  predicate Current(w: World, pc: Pc) {
    && (HoldsInode(pc) ==> OnDisk(w, pc.path) == Some(pc.inode))
    && (pc.Identified? ==> pc.fileId == pc.inode)
    && (pc.Looked? && pc.onDisk.Some? ==> OnDisk(w, pc.path) == pc.onDisk)
  }

  predicate Fenced(w: World) {
    && (forall e :: e in w.entries && Live(w.entries, e) ==> w.entries[e].fileId == w.entries[e].inode)
    && (forall t :: t in w.pcs ==> Current(w, w.pcs[t]))
  }

  lemma MoveKeepsFenced(w: World, m: Move)
    requires Fenced(w) && Enabled(w, m) && (m.Unlink? ==> !InFlight(w, m.path))
    ensures Fenced(After(w, m))
  {
    var v := After(w, m);
    forall e | e in v.entries && Live(v.entries, e) ensures v.entries[e].fileId == v.entries[e].inode {
      if e in w.entries && Live(w.entries, e) { assert w.entries[e].fileId == w.entries[e].inode; }
    }
    forall t | t in v.pcs ensures Current(v, v.pcs[t]) {
      if t in w.pcs { assert Current(w, w.pcs[t]); }
    }
  }

  lemma {:induction false} QuietRunIsFenced(w: World, moves: seq<Move>)
    requires Safe(w) && Fenced(w) && QuietMoves(w, moves)
    ensures ValidMoves(w, moves) && Safe(Play(w, moves)) && Fenced(Play(w, moves))
    decreases |moves|
  {
    QuietIsValid(w, moves);
    EveryRunIsSafe(w, moves);
    if moves == [] {
    } else {
      MoveKeepsFenced(w, moves[0]);
      MoveKeepsLocks(w, moves[0]);
      MoveKeepsRegistry(w, moves[0]);
      QuietRunIsFenced(After(w, moves[0]), moves[1..]);
    }
  }

  /** A second acquire in the process would be handed this entry. */
  predicate Joinable(w: World, proc: nat, path: string) {
    var leases := LeasesOf(w, proc);
    path in leases && Live(w.entries, leases[path]) && Some(w.entries[leases[path]].fileId) == OnDisk(w, path)
  }

  /** After any quiet run, a registry insert overwrites no joinable entry, and whatever handle the next
      move returns holds the lock of the inode now behind the path it was asked for. */
  lemma HandlesFenceThePath(disk: map<string, nat>, moves: seq<Move>, m: Move)
    requires Injective(disk) && QuietMoves(Boot(disk), moves)
    requires ValidMoves(Boot(disk), moves) && Enabled(Play(Boot(disk), moves), m)
    ensures var w := Play(Boot(disk), moves);
            var v := After(w, m);
            && (m.Insert? ==> !Joinable(w, m.t.proc, w.pcs[m.t].path))
            && (Returned(w, m).Some? ==>
                  var e := Returned(w, m).value;
                  && Live(v.entries, e)
                  && v.entries[e].proc == m.t.proc && v.entries[e].path == w.pcs[m.t].path
                  && OnDisk(v, w.pcs[m.t].path) == Some(v.entries[e].inode)
                  && v.entries[e].inode in v.flocks && v.flocks[v.entries[e].inode] == ByEntry(e))
  {
    QuietRunIsFenced(Boot(disk), moves);
    var w := Play(Boot(disk), moves);
    MoveKeepsLocks(w, m);
    if m.Join? && Returned(w, m).Some? { JoinFences(w, m.t); }
  }

  lemma JoinFences(w: World, t: Tid)
    requires Safe(w) && Fenced(w) && Enabled(w, Join(t)) && Returned(w, Join(t)).Some?
    ensures var e := Returned(w, Join(t)).value;
            && e in w.entries && w.entries[e].proc == t.proc && w.entries[e].path == w.pcs[t].path
            && OnDisk(w, w.pcs[t].path) == Some(w.entries[e].inode)
  {
    assert Current(w, w.pcs[t]);
  }

  // ----- an entry whose lock file was unlinked

  predicate Stale(w: World, e: nat) {
    e in w.entries && OnDisk(w, w.entries[e].path) != Some(w.entries[e].inode)
  }

  /** The kernel cannot reuse the inode a live entry keeps open, so a stale entry stays stale. */
  lemma StaleStays(w: World, m: Move, e: nat)
    requires Enabled(w, m) && Live(w.entries, e) && Stale(w, e)
    ensures Live(After(w, m).entries, e) ==> Stale(After(w, m), e)
  {
  }

  predicate NeverReturned(w: World, moves: seq<Move>, e: nat)
    requires ValidMoves(w, moves)
    decreases |moves|
  {
    moves != [] ==> Returned(w, moves[0]) != Some(e) && NeverReturned(After(w, moves[0]), moves[1..], e)
  }

  /** Once its lock file is unlinked, a live entry is never handed out again in any quiet continuation. */
  lemma {:induction false} StaleIsNeverJoined(w: World, moves: seq<Move>, e: nat)
    requires Safe(w) && Fenced(w) && QuietMoves(w, moves)
    requires e in w.entries && (Live(w.entries, e) ==> Stale(w, e))
    ensures ValidMoves(w, moves) && NeverReturned(w, moves, e)
    decreases |moves|
  {
    QuietIsValid(w, moves);
    if moves == [] {
    } else {
      var m := moves[0];
      if m.Join? && Returned(w, m).Some? { JoinFences(w, m.t); }
      if Live(w.entries, e) { StaleStays(w, m, e); } else { DeadStays(w, m, e); }
      MoveKeepsFenced(w, m);
      MoveKeepsLocks(w, m);
      MoveKeepsRegistry(w, m);
      StaleIsNeverJoined(After(w, m), moves[1..], e);
    }
  }

  lemma DeadStays(w: World, m: Move, e: nat)
    requires Enabled(w, m) && e in w.entries && !Live(w.entries, e)
    ensures e in After(w, m).entries && !Live(After(w, m).entries, e)
  {
  }

  // ----- reentrancy

  /** A join hands out the joinable entry of its process exactly when the caller's reading of the disk
      is still right; with an outdated reading it retires that good entry instead. */
  lemma JoinRetiresJoinableExactlyWhen(w: World, t: Tid)
    requires Enabled(w, Join(t)) && Joinable(w, t.proc, w.pcs[t].path)
    ensures Returned(w, Join(t)) == Some(LeasesOf(w, t.proc)[w.pcs[t].path]) <==> w.pcs[t].onDisk == OnDisk(w, w.pcs[t].path)
    ensures w.pcs[t].path !in LeasesOf(After(w, Join(t)), t.proc) <==> w.pcs[t].onDisk != OnDisk(w, w.pcs[t].path)
  {
  }
}
